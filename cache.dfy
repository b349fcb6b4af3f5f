/**
 * The in-memory cache of `src/lib/cache.ts`: a map from keys to values with
 * an expiry time, read with expiry-on-access, written with a time to live,
 * and swept of expired entries; and `createCacheKey`, which turns a prefix
 * and a parameter object into a key independent of the parameters' order.
 *
 * `Date.now()` is the parameter `now` (milliseconds) of every operation that
 * reads the clock; the minute-by-minute `setInterval` that calls `cleanup`
 * is not part of this model, `Cleanup` is the call it makes.
 * `JSON.stringify` is the parameter `stringify`.
 */
module Cache {
  import opened Common
  import opened Sorting

  datatype Item<V> = Item(value: V, expiry: int)

  /** What `get` answers at time `now`: the value of a present entry that has not expired. */
  function Lookup<V>(m: map<string, Item<V>>, k: string, now: int): Option<V> {
    if k in m && !(m[k].expiry < now) then Some(m[k].value) else None
  }

  /** The map `get` leaves behind: an expired entry for `k` is deleted. */
  function AfterGet<V>(m: map<string, Item<V>>, k: string, now: int): map<string, Item<V>> {
    if k in m && m[k].expiry < now then m - {k} else m
  }

  /** The entries `cleanup` keeps. */
  function Live<V>(m: map<string, Item<V>>, now: int): map<string, Item<V>> {
    map k | k in m && !(m[k].expiry < now) :: m[k]
  }

  /** `(ttlSeconds !== undefined ? ttlSeconds : defaultTtl / 1000) * 1000`. */
  function TtlMs(ttlSeconds: Option<int>, defaultTtl: int): int {
    (if ttlSeconds.Some? then ttlSeconds.value else defaultTtl / 1000) * 1000
  }

  /** Without a time to live, an entry lives the constructor's number of seconds; the shared instance's is 300. */
  lemma DefaultTtl(seconds: int)
    ensures TtlMs(None, seconds * 1000) == seconds * 1000
    ensures TtlMs(None, 300 * 1000) == 300000
  {
    assert (seconds * 1000) / 1000 == seconds;
  }

  /** A value just stored is read back until its expiry, that instant included, and not after; other keys read as before. */
  lemma SetThenLookup<V>(m: map<string, Item<V>>, k: string, v: V, expiry: int, t: int, other: string)
    ensures Lookup(m[k := Item(v, expiry)], k, t) == if t <= expiry then Some(v) else None
    ensures other != k ==> Lookup(m[k := Item(v, expiry)], other, t) == Lookup(m, other, t)
  {
  }

  /** Deleting an expired entry on access changes no later answer of `get`. */
  lemma AfterGetUnseen<V>(m: map<string, Item<V>>, k: string, now: int, t: int, other: string)
    requires now <= t
    ensures Lookup(AfterGet(m, k, now), other, t) == Lookup(m, other, t)
    ensures Lookup(AfterGet(m, k, now), k, now) == Lookup(m, k, now)
  {
  }

  /** The sweep keeps no expired entry and changes no answer of `get` from its time on. */
  lemma LiveUnseen<V>(m: map<string, Item<V>>, now: int, t: int, k: string)
    requires now <= t
    ensures Lookup(Live(m, now), k, t) == Lookup(m, k, t)
    ensures forall x :: x in Live(m, now) ==> x in m && m[x].expiry >= now
  {
  }

  /** The answer and the new map of `getOrSet`: a hit leaves the map alone; a miss stores the made value. */
  function GetOrSetResult<V>(m: map<string, Item<V>>, k: string, made: V, ttlMs: int, now: int): (map<string, Item<V>>, V) {
    var cached := Lookup(m, k, now);
    if cached.Some? then (m, cached.value)
    else (AfterGet(m, k, now)[k := Item(made, now + ttlMs)], made)
  }

  /** After `getOrSet` the key reads back as its answer, so the factory runs at most once while the entry lives. */
  lemma GetOrSetCaches<V>(m: map<string, Item<V>>, k: string, made: V, ttlMs: int, now: int)
    requires ttlMs >= 0
    ensures var (m', r) := GetOrSetResult(m, k, made, ttlMs, now);
      Lookup(m', k, now) == Some(r)
      && (Lookup(m, k, now).Some? ==> m' == m && r == Lookup(m, k, now).value)
      && (Lookup(m, k, now).None? ==> r == made && m'[k] == Item(made, now + ttlMs))
  {
  }

  class MemoryCache<V> {
    var entries: map<string, Item<V>>
    /** The default time to live in milliseconds. */
    const defaultTtl: int

    constructor (defaultTtlSeconds: int := 300)
      ensures entries == map[] && defaultTtl == defaultTtlSeconds * 1000
    {
      entries := map[];
      defaultTtl := defaultTtlSeconds * 1000;
    }

    method Get(key: string, now: int) returns (r: Option<V>)
      modifies this
      ensures r == Lookup(old(entries), key, now)
      ensures entries == AfterGet(old(entries), key, now)
    {
      if key !in entries {
        return None;
      }
      var item := entries[key];
      if item.expiry < now {
        entries := entries - {key};
        return None;
      }
      return Some(item.value);
    }

    method Set(key: string, value: V, ttlSeconds: Option<int>, now: int)
      modifies this
      ensures entries == old(entries)[key := Item(value, now + TtlMs(ttlSeconds, defaultTtl))]
    {
      var ttl := (if ttlSeconds.Some? then ttlSeconds.value else defaultTtl / 1000) * 1000;
      entries := entries[key := Item(value, now + ttl)];
    }

    /** `delete`: whether the key was there. */
    method Delete(key: string) returns (existed: bool)
      modifies this
      ensures existed == (key in old(entries))
      ensures entries == old(entries) - {key}
    {
      existed := key in entries;
      entries := entries - {key};
    }

    method Clear()
      modifies this
      ensures entries == map[]
    {
      entries := map[];
    }

    /** `getOrSet`, with `made` the value the factory resolves to. */
    method GetOrSet(key: string, made: V, ttlSeconds: Option<int>, now: int) returns (r: V)
      modifies this
      ensures (entries, r) == GetOrSetResult(old(entries), key, made, TtlMs(ttlSeconds, defaultTtl), now)
    {
      var cached := Get(key, now);
      if cached.Some? {
        return cached.value;
      }
      Set(key, made, ttlSeconds, now);
      return made;
    }

    /** `cleanup`: one pass over the keys, deleting each expired entry. */
    method Cleanup(now: int)
      modifies this
      ensures entries == Live(old(entries), now)
    {
      ghost var start := entries;
      var pending := entries.Keys;
      while pending != {}
        invariant pending <= start.Keys
        invariant forall k :: k in entries <==> k in start && (k in pending || !(start[k].expiry < now))
        invariant forall k :: k in entries ==> entries[k] == start[k]
        decreases pending
      {
        var k :| k in pending;
        if entries[k].expiry < now {
          entries := entries - {k};
        }
        pending := pending - {k};
      }
      assert entries.Keys == Live(start, now).Keys;
    }
  }

  // ----------------------------------------------------------- cache keys

  /** A parameter object: its keys in `Object.keys` order, a value `None` meaning `undefined`. */
  type ParamList = seq<(string, Option<Json>)>

  predicate DistinctKeys(ps: ParamList) {
    forall i, j :: 0 <= i < j < |ps| ==> ps[i].0 != ps[j].0
  }

  function KeyList(ps: ParamList): seq<string> {
    if ps == [] then [] else KeyList(ps[..|ps| - 1]) + [ps[|ps| - 1].0]
  }

  /** `params[key]`. */
  function ValueAt(ps: ParamList, key: string): Option<Json> {
    if ps == [] then None
    else if ps[|ps| - 1].0 == key then ps[|ps| - 1].1
    else ValueAt(ps[..|ps| - 1], key)
  }

  /** One key's part: empty for `undefined` and `null`, `key:json` otherwise. */
  function Part(ps: ParamList, key: string, stringify: Json -> string): string {
    var v := ValueAt(ps, key);
    if v.None? || v.value == JNull then "" else key + ":" + stringify(v.value)
  }

  function Parts(ps: ParamList, keys: seq<string>, stringify: Json -> string): seq<string> {
    MapSeq(keys, (key: string) => Part(ps, key, stringify))
  }

  /** `createCacheKey`; `None` is a missing (or `null`) parameter object. */
  function CacheKey(prefix: string, params: Option<ParamList>, stringify: Json -> string): string {
    if params.None? then prefix
    else
      var sortedKeys := SortBy(KeyList(params.value), LexLe);
      prefix + ":" + Join(Filter(Parts(params.value, sortedKeys, stringify), (s: string) => s != ""), ",")
  }

  /** Without parameters the key is the prefix; an empty parameter object still adds the colon. */
  lemma CacheKeyBare(prefix: string, stringify: Json -> string)
    ensures CacheKey(prefix, None, stringify) == prefix
    ensures CacheKey(prefix, Some([]), stringify) == prefix + ":"
  {
  }

  lemma {:induction false} KeyListMultiset(ps: ParamList)
    ensures |KeyList(ps)| == |ps|
    ensures forall i :: 0 <= i < |ps| ==> KeyList(ps)[i] == ps[i].0
  {
    if ps != [] {
      KeyListMultiset(ps[..|ps| - 1]);
    }
  }

  /** With distinct keys, the value at a key is the one paired with it anywhere in the list. */
  lemma {:induction false} ValueAtPair(ps: ParamList, i: int)
    requires DistinctKeys(ps) && 0 <= i < |ps|
    ensures ValueAt(ps, ps[i].0) == ps[i].1
  {
    if i < |ps| - 1 {
      ValueAtPair(ps[..|ps| - 1], i);
    }
  }

  lemma {:induction false} ValueAtAbsent(ps: ParamList, key: string)
    requires forall i :: 0 <= i < |ps| ==> ps[i].0 != key
    ensures ValueAt(ps, key) == None
  {
    if ps != [] {
      ValueAtAbsent(ps[..|ps| - 1], key);
    }
  }

  /** Two parameter objects with the same pairs give the same value at every key. */
  lemma SameValues(a: ParamList, b: ParamList, key: string)
    requires DistinctKeys(a) && DistinctKeys(b) && multiset(a) == multiset(b)
    ensures ValueAt(a, key) == ValueAt(b, key)
  {
    if i :| 0 <= i < |a| && a[i].0 == key {
      assert a[i] in multiset(b);
      var j :| 0 <= j < |b| && b[j] == a[i];
      ValueAtPair(a, i);
      ValueAtPair(b, j);
    } else {
      ValueAtAbsent(a, key);
      forall j | 0 <= j < |b| ensures b[j].0 != key {
        assert b[j] in multiset(a);
      }
      ValueAtAbsent(b, key);
    }
  }

  lemma KeyListPermutation(a: ParamList, b: ParamList)
    requires multiset(a) == multiset(b)
    ensures multiset(KeyList(a)) == multiset(KeyList(b))
  {
    KeyListMultiset(a);
    KeyListMultiset(b);
    assert KeyList(a) == MapSeq(a, (e: (string, Option<Json>)) => e.0);
    assert KeyList(b) == MapSeq(b, (e: (string, Option<Json>)) => e.0);
    MapSeqMultiset(a, b, (e: (string, Option<Json>)) => e.0);
  }

  lemma {:induction false} MapSeqMultiset<A, B>(a: seq<A>, b: seq<A>, g: A -> B)
    requires multiset(a) == multiset(b)
    ensures multiset(MapSeq(a, g)) == multiset(MapSeq(b, g))
    decreases |a|
  {
    if a != [] {
      var x := a[|a| - 1];
      assert x in multiset(b);
      var j :| 0 <= j < |b| && b[j] == x;
      RemoveAt(a, |a| - 1);
      RemoveAt(b, j);
      assert a == a[..|a| - 1] + [x];
      MapSeqMultiset(a[..|a| - 1], b[..j] + b[j + 1..], g);
      MapSeqMultisetStep(a[..|a| - 1], x, b[..j], b[j + 1..], g);
    }
  }

  lemma MapSeqMultisetStep<A, B>(a: seq<A>, x: A, p: seq<A>, q: seq<A>, g: A -> B)
    requires multiset(MapSeq(a, g)) == multiset(MapSeq(p + q, g))
    ensures multiset(MapSeq(a + [x], g)) == multiset(MapSeq(p + [x] + q, g))
  {
    MapSeqSplit(p, x, q, g);
    MapSeqSplit(a, x, [], g);
    MapSeqConcat(p, q, g);
    assert a + [x] + [] == a + [x];
    var ma, mp, mq := MapSeq(a, g), MapSeq(p, g), MapSeq(q, g);
    calc {
      multiset(MapSeq(a + [x], g));
      multiset(ma + [g(x)] + []);
      multiset(ma) + multiset{g(x)};
      multiset(mp) + multiset(mq) + multiset{g(x)};
      multiset(mp + [g(x)] + mq);
    }
  }

  /** Taking out the element at `j` takes it out of the multiset. */
  lemma RemoveAt<A>(s: seq<A>, j: int)
    requires 0 <= j < |s|
    ensures s == s[..j] + [s[j]] + s[j + 1..]
    ensures multiset(s[..j] + s[j + 1..]) == multiset(s) - multiset{s[j]}
  {
    assert s == s[..j] + [s[j]] + s[j + 1..];
  }

  lemma MapSeqSplit<A, B>(p: seq<A>, x: A, q: seq<A>, g: A -> B)
    ensures MapSeq(p + [x] + q, g) == MapSeq(p, g) + [g(x)] + MapSeq(q, g)
  {
    var l, r := MapSeq(p + [x] + q, g), MapSeq(p, g) + [g(x)] + MapSeq(q, g);
    assert |l| == |r|;
    forall i | 0 <= i < |l| ensures l[i] == r[i] {
      if i < |p| {
      } else if i == |p| {
      } else {
        assert (p + [x] + q)[i] == q[i - |p| - 1];
      }
    }
  }

  lemma MapSeqConcat<A, B>(p: seq<A>, q: seq<A>, g: A -> B)
    ensures MapSeq(p + q, g) == MapSeq(p, g) + MapSeq(q, g)
  {
    var l, r := MapSeq(p + q, g), MapSeq(p, g) + MapSeq(q, g);
    assert |l| == |r|;
    forall i | 0 <= i < |l| ensures l[i] == r[i] {
      if i >= |p| {
        assert (p + q)[i] == q[i - |p|];
      }
    }
  }

  /** Parts computed over parameter lists that agree at every key are the same. */
  lemma PartsAgree(a: ParamList, b: ParamList, keys: seq<string>, stringify: Json -> string)
    requires DistinctKeys(a) && DistinctKeys(b) && multiset(a) == multiset(b)
    ensures Parts(a, keys, stringify) == Parts(b, keys, stringify)
  {
    var pa, pb := Parts(a, keys, stringify), Parts(b, keys, stringify);
    forall i | 0 <= i < |keys| ensures pa[i] == pb[i] {
      SameValues(a, b, keys[i]);
    }
  }

  /** The key does not depend on the order in which the parameters were given. */
  lemma CacheKeyOrderFree(prefix: string, a: ParamList, b: ParamList, stringify: Json -> string)
    requires DistinctKeys(a) && DistinctKeys(b) && multiset(a) == multiset(b)
    ensures CacheKey(prefix, Some(a), stringify) == CacheKey(prefix, Some(b), stringify)
  {
    LexLeTotalOrder();
    KeyListPermutation(a, b);
    SortByPermutation(KeyList(a), KeyList(b), LexLe);
    PartsAgree(a, b, SortBy(KeyList(a), LexLe), stringify);
  }
}
