/**
 * The client-side Nova Poshta service of `src/services/novaposhta.ts`: the
 * guards that skip a request (a city query shorter than two characters, an
 * empty city reference), the fallbacks on a failed request (an empty list,
 * the base price 70), and the text filter of `searchWarehouses`.
 *
 * Each `fetch` is an input of type `Fetched<T>`: it threw, answered with a
 * non-ok status, or answered with a body. Functions that may skip the
 * request also say whether it was made.
 */
module NovaPoshtaService {
  import opened Common
  import DeliveryCostRoute

  datatype City = City(ref: string, name: string, area: string)

  datatype Warehouse = Warehouse(ref: string, description: string, cityRef: string, number: string)

  datatype Fetched<T> = Threw | NotOk | Ok(body: T)

  /** `searchCities(query)`: the cities, and whether a request was made. */
  function SearchCities(query: string, fetched: Fetched<seq<City>>): (r: (seq<City>, bool))
    ensures r.1 <==> |query| >= 2
    ensures r.0 == (if |query| >= 2 && fetched.Ok? then fetched.body else [])
  {
    if query == "" || |query| < 2 then ([], false)
    else if fetched.Ok? then (fetched.body, true)
    else ([], true)
  }

  /** `getWarehouses(cityRef)`: the warehouses, and whether a request was made. */
  function GetWarehouses(cityRef: string, fetched: Fetched<seq<Warehouse>>): (r: (seq<Warehouse>, bool))
    ensures r.1 <==> cityRef != ""
    ensures r.0 == (if cityRef != "" && fetched.Ok? then fetched.body else [])
  {
    if cityRef == "" then ([], false)
    else if fetched.Ok? then (fetched.body, true)
    else ([], true)
  }

  /** `calculateDeliveryCost(...)`: the route's `cost`, or 70 when the request fails. */
  function CalculateDeliveryCost(fetched: Fetched<int>): (r: int)
    ensures fetched.Ok? ==> r == fetched.body
    ensures !fetched.Ok? ==> r == DeliveryCostRoute.BasePrice
  {
    if fetched.Ok? then fetched.body else 70
  }

  /** The `searchWarehouses` test for a non-empty query. */
  predicate MatchesQuery(w: Warehouse, query: string) {
    Contains(Lower(w.description), Lower(query)) || Contains(w.number, query)
  }

  /** `searchWarehouses(cityRef, query)`. */
  function SearchWarehouses(cityRef: string, query: string, fetched: Fetched<seq<Warehouse>>): (r: seq<Warehouse>)
    ensures query == "" ==> r == GetWarehouses(cityRef, fetched).0
    ensures query != "" ==> forall w :: w in r <==> w in GetWarehouses(cityRef, fetched).0 && MatchesQuery(w, query)
  {
    var all := GetWarehouses(cityRef, fetched).0;
    if query == "" then all else Filter(all, w => MatchesQuery(w, query))
  }

  /** The result keeps the loaded order: it is the loaded list with the non-matching ones taken out. */
  lemma SearchKeepsOrder(cityRef: string, query: string, fetched: Fetched<seq<Warehouse>>)
    requires query != ""
    ensures SearchWarehouses(cityRef, query, fetched) == Filter(GetWarehouses(cityRef, fetched).0, w => MatchesQuery(w, query))
    ensures |SearchWarehouses(cityRef, query, fetched)| <= |GetWarehouses(cityRef, fetched).0|
  {
  }

  lemma LowerAppend(a: string, b: string)
    ensures Lower(a + b) == Lower(a) + Lower(b)
  {
    assert forall i :: 0 <= i < |a + b| ==> Lower(a + b)[i] == (Lower(a) + Lower(b))[i];
  }

  /** A haystack holding `n + t` holds `n`. */
  lemma ContainsPrefixOfNeedle(hay: string, n: string, t: string)
    requires Contains(hay, n + t)
    ensures Contains(hay, n)
  {
    ContainsIff(hay, n + t);
    var i :| OccursAt(hay, n + t, i);
    assert hay[i..i + |n|] == (n + t)[..|n|] == n;
    assert OccursAt(hay, n, i);
    ContainsIff(hay, n);
  }

  /**
   * Typing more narrows the search: extending a non-empty query keeps only
   * warehouses the shorter query already showed, in the same order.
   */
  lemma NarrowingQuery(cityRef: string, query: string, more: string, fetched: Fetched<seq<Warehouse>>)
    requires query != ""
    ensures SearchWarehouses(cityRef, query + more, fetched)
            == Filter(SearchWarehouses(cityRef, query, fetched), w => MatchesQuery(w, query + more))
  {
    LowerAppend(query, more);
    var all := GetWarehouses(cityRef, fetched).0;
    var p := (w: Warehouse) => MatchesQuery(w, query);
    var q := (w: Warehouse) => MatchesQuery(w, query + more);
    forall w | w in all ensures q(w) == (p(w) && q(w)) {
      if Contains(Lower(w.description), Lower(query + more)) {
        ContainsPrefixOfNeedle(Lower(w.description), Lower(query), Lower(more));
      }
      if Contains(w.number, query + more) {
        ContainsPrefixOfNeedle(w.number, query, more);
      }
    }
    FilterFilter(all, p, q, q);
  }

  /** A warehouse whose number is exactly the query is always found. */
  lemma NumberFound(cityRef: string, w: Warehouse, fetched: Fetched<seq<Warehouse>>)
    requires w.number != ""
    requires w in GetWarehouses(cityRef, fetched).0
    ensures w in SearchWarehouses(cityRef, w.number, fetched)
  {
    assert StartsWith(w.number, w.number);
  }

  /**
   * End to end: an order of at least 1500 costs nothing when the route
   * answers, since the service sends the cost as `String(cost)` and the
   * route reads the same number back.
   */
  lemma FreeDeliveryEndToEnd(cityRef: string, cost: int, apiKey: Option<string>, reply: DeliveryCostRoute.PriceReply)
    requires cost >= DeliveryCostRoute.FreeDeliveryFrom
    ensures CalculateDeliveryCost(Ok(DeliveryCostRoute.DeliveryCost(Some(cityRef), Some(IntToString(cost)), apiKey, reply))) == 0
  {
    ParseIntToString(cost);
  }
}
