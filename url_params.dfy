/**
 * The `URLSearchParams` builder the catalog service and the catalog page
 * fill: a list of key/value pairs that `set` updates in place and
 * `toString` serialises. Percent-encoding is the parameter `enc`.
 */
module UrlParams {
  import opened Common

  type Entry = (string, string)

  /** The keys set so far. */
  function KeysOf(es: seq<Entry>): set<string> {
    set e | e in es :: e.0
  }

  lemma {:induction false} KeysOfAppend(a: seq<Entry>, b: seq<Entry>)
    ensures KeysOf(a + b) == KeysOf(a) + KeysOf(b)
  {
    if a != [] {
      KeysOfAppend(a[1..], b);
      assert (a + b)[1..] == a[1..] + b;
    } else {
      assert a + b == b;
    }
  }

  /** `set(k, v)` from position on: the first pair with key `k` takes the value, later ones go, none means append. */
  function SetFrom(es: seq<Entry>, k: string, v: string, seen: bool): seq<Entry> {
    if es == [] then (if seen then [] else [(k, v)])
    else if es[0].0 == k then (if seen then [] else [(k, v)]) + SetFrom(es[1..], k, v, true)
    else [es[0]] + SetFrom(es[1..], k, v, seen)
  }

  function SetEntry(es: seq<Entry>, k: string, v: string): seq<Entry> {
    SetFrom(es, k, v, false)
  }

  /** Setting a key not yet present appends the pair. */
  lemma {:induction false} SetNewKey(es: seq<Entry>, k: string, v: string)
    requires k !in KeysOf(es)
    ensures SetEntry(es, k, v) == es + [(k, v)]
  {
    if es != [] {
      SetNewKey(es[1..], k, v);
      assert es == [es[0]] + es[1..];
    }
  }

  /** After `set(k, v)` the key occurs once, with the value `v`, and no other pair changed. */
  lemma {:induction false} SetOnce(es: seq<Entry>, k: string, v: string, seen: bool)
    ensures var r := SetFrom(es, k, v, seen);
      (forall e :: e in r && e.0 == k ==> e.1 == v)
      && (forall e :: e in r && e.0 != k <==> e in es && e.0 != k)
      && (!seen ==> (k, v) in r)
      && (seen ==> (k, v) !in r)
  {
    if es != [] {
      SetOnce(es[1..], k, v, seen || es[0].0 == k);
      if es[0].0 != k {
        assert es == [es[0]] + es[1..];
      } else {
        assert forall e :: e in es && e.0 != k ==> e in es[1..];
      }
    }
  }

  /** `set(k, v)` leaves exactly the earlier keys and `k`. */
  lemma {:induction false} SetKeys(es: seq<Entry>, k: string, v: string, seen: bool)
    ensures KeysOf(SetFrom(es, k, v, seen)) == (KeysOf(es) - {k}) + (if seen then {} else {k})
  {
    if es != [] {
      SetKeys(es[1..], k, v, seen || es[0].0 == k);
      var rest := SetFrom(es[1..], k, v, seen || es[0].0 == k);
      if es[0].0 == k {
        KeysOfAppend(if seen then [] else [(k, v)], rest);
      } else {
        KeysOfAppend([es[0]], rest);
      }
    }
  }

  /** `toString()`: `k=v` pairs joined by `&`. */
  function Serialize(es: seq<Entry>, enc: string -> string): string {
    Join(MapSeq(es, (e: Entry) => enc(e.0) + "=" + enc(e.1)), "&")
  }

  /** The query string is empty exactly when no key was set. */
  lemma SerializeEmptyIff(es: seq<Entry>, enc: string -> string)
    ensures Serialize(es, enc) == "" <==> es == []
  {
    var parts := MapSeq(es, (e: Entry) => enc(e.0) + "=" + enc(e.1));
    if es != [] {
      assert |parts[0]| > 0;
      JoinFirst(parts, "&");
    }
  }

  lemma JoinFirst(parts: seq<string>, sep: string)
    requires parts != []
    ensures |Join(parts, sep)| >= |parts[0]|
  {
  }

  /** `` `${base}${qs ? `?${qs}` : ''}` ``. */
  function PathWith(base: string, qs: string): string {
    if qs != "" then base + "?" + qs else base
  }

  /** No pairs, no `?`. */
  lemma PathWithoutEntries(base: string, es: seq<Entry>, enc: string -> string)
    ensures PathWith(base, Serialize(es, enc)) == base <==> es == []
  {
    SerializeEmptyIff(es, enc);
    if es != [] {
      assert |PathWith(base, Serialize(es, enc))| > |base|;
    }
  }

  /** A pair list of the form `cond ? [(k, v)] : []`. */
  function Opt(cond: bool, k: string, v: string): seq<Entry> {
    if cond then [(k, v)] else []
  }

  /** `get(k)`: the value of the first pair with key `k`, or `null`. */
  function Get(es: seq<Entry>, k: string): Option<string> {
    if es == [] then None else if es[0].0 == k then Some(es[0].1) else Get(es[1..], k)
  }

  /** `get` on a concatenation looks in the second part only when the first lacks the key. */
  lemma {:induction false} GetAppend(a: seq<Entry>, b: seq<Entry>, k: string)
    ensures Get(a + b, k) == if Get(a, k).Some? then Get(a, k) else Get(b, k)
  {
    if a == [] {
      assert a + b == b;
    } else {
      GetAppend(a[1..], b, k);
      assert (a + b)[1..] == a[1..] + b;
    }
  }

  /** `get` on an optional pair. */
  lemma GetOpt(cond: bool, k: string, v: string, key: string)
    ensures Get(Opt(cond, k, v), key) == if cond && k == key then Some(v) else None
  {
  }

  class SearchParams {
    var entries: seq<Entry>

    constructor ()
      ensures entries == []
    {
      entries := [];
    }

    /** `set(k, v)`. */
    method Set(k: string, v: string)
      modifies this
      ensures entries == SetEntry(old(entries), k, v)
    {
      entries := SetEntry(entries, k, v);
    }

    function ToString(enc: string -> string): string
      reads this
    {
      Serialize(entries, enc)
    }
  }

  /** Appending an optional pair: nothing when the condition fails, the pair when it holds. */
  lemma AppendOpt(es: seq<Entry>, cond: bool, k: string, v: string)
    ensures es + Opt(cond, k, v) == if cond then es + [(k, v)] else es
  {
    if !cond {
      assert es + [] == es;
    }
  }

  /** `if (cond) usp.set(k, v)`, on a key not set before. */
  method SetIf(usp: SearchParams, cond: bool, k: string, v: string)
    requires k !in KeysOf(usp.entries)
    modifies usp
    ensures usp.entries == old(usp.entries) + Opt(cond, k, v)
    ensures KeysOf(usp.entries) <= KeysOf(old(usp.entries)) + {k}
  {
    AppendOpt(usp.entries, cond, k, v);
    KeysOfAppend(usp.entries, Opt(cond, k, v));
    if cond {
      SetNewKey(usp.entries, k, v);
      usp.Set(k, v);
    }
  }
}
