/**
 * `GET /api/catalog/facets` (`src/app/api/catalog/facets/route.ts`): for
 * the filters of a catalog page, how many products fall into each category
 * (with the price bounds applied) and the range of prices charged (without
 * them).
 *
 * The products collection is a sequence of documents, the categories
 * collection a sequence of ids; `ObjectId(s)` is the parameter `oid`.
 */
module FacetsRoute {
  import opened Common
  import opened ProductsRoute

  // --------------------------------------------------------------- filters

  /** `q` filters titles by regular expression whatever its length; the text index is not used here. */
  predicate TitleOk(query: Query, d: Doc) {
    Present(query.q) ==> ContainsCI(d.title, query.q.value)
  }

  /**
   * The filters both branches share: title, category (an id `ObjectId`
   * rejects is dropped), stock and sale, as in the products route.
   */
  predicate BaseWanted(query: Query, oid: string -> Option<string>, d: Doc) {
    TitleOk(query, d) && FilterOk(query, oid, 1, d) && FilterOk(query, oid, 2, d) && FilterOk(query, oid, 3, d)
  }

  /** The shared filters and the two inclusive bounds on the price charged. */
  predicate PricedWanted(query: Query, oid: string -> Option<string>, d: Doc) {
    BaseWanted(query, oid, d) && FilterOk(query, oid, 4, d) && FilterOk(query, oid, 5, d)
  }

  /** Builds `baseAnd`. */
  method BuildBase(query: Query, oid: string -> Option<string>) returns (terms: seq<Term>)
    ensures forall d :: AllHold(terms, d) <==> BaseWanted(query, oid, d)
  {
    terms := [];
    if Present(query.q) {
      var t := TitleLike(Escape(query.q.value));
      forall d ensures AllHold(terms + [t], d) <==> TitleOk(query, d) {
        AllHoldSnoc(terms, t, d);
        LikeMeansContains(query.q.value, d.title);
      }
      terms := terms + [t];
    }
    assert forall d :: AllHold(terms, d) <==> TitleOk(query, d);
    if Present(query.categoryId) {
      var id := oid(query.categoryId.value);
      if id.Some? {
        var t := InCategory(id.value);
        forall d ensures AllHold(terms + [t], d) <==> TitleOk(query, d) && FilterOk(query, oid, 1, d) {
          AllHoldSnoc(terms, t, d);
        }
        terms := terms + [t];
      }
    }
    assert forall d :: AllHold(terms, d) <==> TitleOk(query, d) && FilterOk(query, oid, 1, d);
    if query.inStock.Some? {
      var t := if query.inStock.value then StockPositive else StockNonPositive;
      forall d ensures AllHold(terms + [t], d)
        <==> TitleOk(query, d) && FilterOk(query, oid, 1, d) && FilterOk(query, oid, 2, d)
      {
        AllHoldSnoc(terms, t, d);
      }
      terms := terms + [t];
    }
    assert forall d :: (AllHold(terms, d)
      <==> TitleOk(query, d) && FilterOk(query, oid, 1, d) && FilterOk(query, oid, 2, d));
    if query.onSale.Some? {
      var t := if query.onSale.value then SaleBelowPrice else NoSaleBelowPrice;
      forall d ensures AllHold(terms + [t], d) <==> BaseWanted(query, oid, d) {
        AllHoldSnoc(terms, t, d);
      }
      terms := terms + [t];
    }
  }

  /** Builds `withPriceAnd`: a copy of `baseAnd` with the price bounds appended. */
  method BuildWithPrice(base: seq<Term>, query: Query, oid: string -> Option<string>) returns (terms: seq<Term>)
    requires forall d :: AllHold(base, d) <==> BaseWanted(query, oid, d)
    ensures |terms| >= |base| && terms[..|base|] == base
    ensures forall d :: AllHold(terms, d) <==> PricedWanted(query, oid, d)
  {
    terms := base;
    if query.priceMin.Some? {
      var t := PriceAtLeast(query.priceMin.value);
      forall d ensures AllHold(terms + [t], d) <==> BaseWanted(query, oid, d) && FilterOk(query, oid, 4, d) {
        AllHoldSnoc(terms, t, d);
      }
      terms := terms + [t];
    }
    assert forall d :: AllHold(terms, d) <==> BaseWanted(query, oid, d) && FilterOk(query, oid, 4, d);
    assert terms[..|base|] == base;
    if query.priceMax.Some? {
      var t := PriceAtMost(query.priceMax.value);
      forall d ensures AllHold(terms + [t], d) <==> PricedWanted(query, oid, d) {
        AllHoldSnoc(terms, t, d);
      }
      assert (terms + [t])[..|base|] == terms[..|base|];
      terms := terms + [t];
    }
  }

  // ------------------------------------------------------ unwind and group

  /** `$unwind` with `preserveNullAndEmptyArrays`: one record per category id, one `null` record for none. */
  function Unwound(d: Doc): seq<Option<string>> {
    if d.categoryIds.Some? && d.categoryIds.value != [] then MapSeq(d.categoryIds.value, (c: string) => Some(c))
    else [None]
  }

  function UnwindAll(docs: seq<Doc>): seq<Option<string>> {
    if docs == [] then [] else UnwindAll(docs[..|docs| - 1]) + Unwound(docs[|docs| - 1])
  }

  /** One output document of `$group`: a key and how many records had it. */
  datatype GroupRec = GroupRec(key: Option<string>, count: nat)

  /** The count a map filled from the records in order ends with for `k`: the last record's. */
  function CountOf(gs: seq<GroupRec>, k: Option<string>): nat {
    if gs == [] then 0
    else if gs[|gs| - 1].key == k then gs[|gs| - 1].count
    else CountOf(gs[..|gs| - 1], k)
  }

  function KeysOf(gs: seq<GroupRec>): set<Option<string>> {
    if gs == [] then {} else KeysOf(gs[..|gs| - 1]) + {gs[|gs| - 1].key}
  }

  /** Counting one more record under `k`. */
  function Bump(gs: seq<GroupRec>, k: Option<string>): seq<GroupRec> {
    if gs == [] then [GroupRec(k, 1)]
    else if gs[|gs| - 1].key == k then gs[..|gs| - 1] + [GroupRec(k, gs[|gs| - 1].count + 1)]
    else Bump(gs[..|gs| - 1], k) + [gs[|gs| - 1]]
  }

  /** `{ $group: { _id: "$categoryIds", count: { $sum: 1 } } }`, keys in order of first appearance. */
  function Group(xs: seq<Option<string>>): seq<GroupRec> {
    if xs == [] then [] else Bump(Group(xs[..|xs| - 1]), xs[|xs| - 1])
  }

  lemma {:induction false} BumpCounts(gs: seq<GroupRec>, k: Option<string>)
    ensures KeysOf(Bump(gs, k)) == KeysOf(gs) + {k}
    ensures forall j :: CountOf(Bump(gs, k), j) == CountOf(gs, j) + (if j == k then 1 else 0)
  {
    if gs != [] {
      var init, last := gs[..|gs| - 1], gs[|gs| - 1];
      if last.key == k {
        var b := init + [GroupRec(k, last.count + 1)];
        assert b[..|b| - 1] == init;
        forall j ensures CountOf(b, j) == CountOf(gs, j) + (if j == k then 1 else 0) {
        }
      } else {
        BumpCounts(init, k);
        var b := Bump(init, k) + [last];
        assert b[..|b| - 1] == Bump(init, k);
      }
    }
  }

  /** Each key of the grouping is a key of some record, and counts exactly the records with it. */
  lemma {:induction false} GroupCounts(xs: seq<Option<string>>)
    ensures KeysOf(Group(xs)) == set x | x in xs
    ensures forall k :: CountOf(Group(xs), k) == multiset(xs)[k]
  {
    if xs != [] {
      var init, last := xs[..|xs| - 1], xs[|xs| - 1];
      GroupCounts(init);
      BumpCounts(Group(init), last);
      assert xs == init + [last];
      assert multiset(xs) == multiset(init) + multiset{last};
      assert (set x | x in xs) == (set x | x in init) + {last};
    }
  }

  // -------------------------------------------------------- counts per id

  /** How often category `c` is listed in the documents' `categoryIds`, over all documents. */
  function Occurrences(docs: seq<Doc>, c: string): nat {
    if docs == [] then 0
    else
      var d := docs[|docs| - 1];
      Occurrences(docs[..|docs| - 1], c) + (if d.categoryIds.Some? then multiset(d.categoryIds.value)[c] else 0)
  }

  lemma {:induction false} MapSomeCount(ids: seq<string>, c: string)
    ensures multiset(MapSeq(ids, (x: string) => Some(x)))[Some(c)] == multiset(ids)[c]
  {
    if ids != [] {
      var init := ids[..|ids| - 1];
      MapSomeCount(init, c);
      assert ids == init + [ids[|ids| - 1]];
      var g := (x: string) => Some(x);
      assert MapSeq(ids, g) == MapSeq(init, g) + [g(ids[|ids| - 1])];
      assert multiset(MapSeq(ids, g)) == multiset(MapSeq(init, g)) + multiset{g(ids[|ids| - 1])};
      assert multiset(ids) == multiset(init) + multiset{ids[|ids| - 1]};
    }
  }

  /** The unwound records of category `c` are its occurrences. */
  lemma {:induction false} UnwindOccurrences(docs: seq<Doc>, c: string)
    ensures multiset(UnwindAll(docs))[Some(c)] == Occurrences(docs, c)
  {
    if docs != [] {
      var d := docs[|docs| - 1];
      UnwindOccurrences(docs[..|docs| - 1], c);
      assert multiset(UnwindAll(docs)) == multiset(UnwindAll(docs[..|docs| - 1])) + multiset(Unwound(d));
      if d.categoryIds.Some? && d.categoryIds.value != [] {
        MapSomeCount(d.categoryIds.value, c);
      } else if d.categoryIds.Some? {
        assert multiset(d.categoryIds.value)[c] == 0;
      }
    }
  }

  /**
   * The loop over `countsArr`: every record with a non-null key sets the
   * map entry of that key; records of the `null` group are skipped.
   */
  method FillCounts(groups: seq<GroupRec>) returns (counts: map<string, nat>)
    ensures forall c :: c in counts <==> Some(c) in KeysOf(groups)
    ensures forall c :: c in counts ==> counts[c] == CountOf(groups, Some(c))
  {
    counts := map[];
    var i := 0;
    while i < |groups|
      invariant 0 <= i <= |groups|
      invariant forall c :: c in counts <==> Some(c) in KeysOf(groups[..i])
      invariant forall c :: c in counts ==> counts[c] == CountOf(groups[..i], Some(c))
    {
      var rec := groups[i];
      assert groups[..i + 1][..i] == groups[..i] && groups[..i + 1][i] == rec;
      if rec.key.Some? {
        counts := counts[rec.key.value := rec.count];
      }
      i := i + 1;
    }
    assert groups[..i] == groups;
  }

  // -------------------------------------------------------------- prices

  /** `$min` over a non-empty group. */
  function MinOf(xs: seq<int>): (m: int)
    requires xs != []
    ensures m in xs && forall x :: x in xs ==> m <= x
  {
    if |xs| == 1 then xs[0]
    else
      var rest := MinOf(xs[1..]);
      assert xs == [xs[0]] + xs[1..];
      Min(xs[0], rest)
  }

  /** `$max` over a non-empty group. */
  function MaxOf(xs: seq<int>): (m: int)
    requires xs != []
    ensures m in xs && forall x :: x in xs ==> x <= m
  {
    if |xs| == 1 then xs[0]
    else
      var rest := MaxOf(xs[1..]);
      assert xs == [xs[0]] + xs[1..];
      Max(xs[0], rest)
  }

  datatype Facets = Facets(categories: map<string, nat>, priceMin: int, priceMax: int)

  /**
   * The route: each existing category with the number of its listings among
   * the products passing every filter (0 when none), and the least and
   * greatest price charged among the products passing the filters without
   * the price bounds, or 0 for both when none does.
   */
  method Get(params: Params, oid: string -> Option<string>, docs: seq<Doc>, cats: seq<string>) returns (r: Facets)
    ensures var query := ParseQuery(params);
      (forall c :: c in r.categories <==> c in cats)
      && (forall c :: c in r.categories ==>
            r.categories[c] == Occurrences(Filter(docs, (d: Doc) => PricedWanted(query, oid, d)), c))
    ensures var query := ParseQuery(params);
      var base := Filter(docs, (d: Doc) => BaseWanted(query, oid, d));
      (base == [] ==> r.priceMin == 0 && r.priceMax == 0)
      && (base != [] ==> r.priceMin == MinOf(MapSeq(base, DocPrice)) && r.priceMax == MaxOf(MapSeq(base, DocPrice)))
  {
    var query := ParseQuery(params);
    var baseAnd := BuildBase(query, oid);
    var withPriceAnd := BuildWithPrice(baseAnd, query, oid);
    var countedDocs := Filter(docs, (d: Doc) => AllHold(withPriceAnd, d));
    FilterCongruent(docs, (d: Doc) => AllHold(withPriceAnd, d), (d: Doc) => PricedWanted(query, oid, d));
    var groups := Group(UnwindAll(countedDocs));
    GroupCounts(UnwindAll(countedDocs));
    var countsMap := FillCounts(groups);
    var categoryCounts := map c | c in cats :: if c in countsMap then countsMap[c] else 0;
    forall c | c in categoryCounts
      ensures categoryCounts[c] == Occurrences(countedDocs, c)
    {
      UnwindOccurrences(countedDocs, c);
      if c !in countsMap {
        assert Some(c) !in UnwindAll(countedDocs);
      }
    }
    var ranged := Filter(docs, (d: Doc) => AllHold(baseAnd, d));
    FilterCongruent(docs, (d: Doc) => AllHold(baseAnd, d), (d: Doc) => BaseWanted(query, oid, d));
    var lo, hi := 0, 0;
    if ranged != [] {
      lo, hi := MinOf(MapSeq(ranged, DocPrice)), MaxOf(MapSeq(ranged, DocPrice));
    }
    return Facets(categoryCounts, lo, hi);
  }

  // ------------------------------------------------------------ properties

  /** The price bounds narrow the counted products but never the price range. */
  lemma PricedWithinBase(query: Query, oid: string -> Option<string>, d: Doc)
    ensures PricedWanted(query, oid, d) ==> BaseWanted(query, oid, d)
    ensures query.priceMin.None? && query.priceMax.None? ==> (PricedWanted(query, oid, d) <==> BaseWanted(query, oid, d))
  {
  }

  /** A category id `ObjectId` rejects filters nothing, unlike in the products route. */
  lemma InvalidCategoryDropped(query: Query, oid: string -> Option<string>, d: Doc)
    requires InvalidCategory(query, oid)
    ensures FilterOk(query, oid, 1, d)
  {
  }

  /** Counts add up over the documents: every listing of a category is counted once. */
  lemma {:induction false} OccurrencesAppend(a: seq<Doc>, b: seq<Doc>, c: string)
    ensures Occurrences(a + b, c) == Occurrences(a, c) + Occurrences(b, c)
  {
    if b != [] {
      var init := b[..|b| - 1];
      OccurrencesAppend(a, init, c);
      assert (a + b)[..|a + b| - 1] == a + init;
      assert (a + b)[|a + b| - 1] == b[|b| - 1];
    } else {
      assert a + b == a;
    }
  }

  /** A product in a single category adds exactly one to that category's count. */
  lemma SingleCategory(d: Doc, c: string, e: string)
    requires d.categoryIds == Some([c])
    ensures Occurrences([d], c) == 1
    ensures e != c ==> Occurrences([d], e) == 0
  {
    assert [d][..0] == [];
  }
}
