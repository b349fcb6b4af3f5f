/**
 * `GET` and `POST /api/admin/orders` (`src/app/api/admin/orders/route.ts`):
 * the admin order list behind the `admin_session` cookie, filtered by status
 * and by a search over number, name and phone, newest first and paged.
 *
 * The orders collection is a sequence of documents; the `$regex` test with
 * option `i` (whose pattern is the raw query) is the parameter `rx`
 * (pattern, text).
 */
module AdminOrdersRoute {
  import opened Common
  import opened Sorting
  import opened ProductsRoute

  /** The fields the route reads; `createdAt` is the timestamp in milliseconds. */
  datatype OrderDoc = OrderDoc(id: string, number: string, fullName: string, phone: string,
                               status: string, createdAt: int)

  datatype Reply =
    | Unauthorized
    | OrdersPage(items: seq<OrderDoc>, page: int, perPage: int, total: int)
    | NotAllowed

  function StatusCode(r: Reply): int {
    match r
    case Unauthorized => 401
    case OrdersPage(_, _, _, _) => 200
    case NotAllowed => 405
  }

  /** `get(k) || ""`. */
  function TextParam(params: Params, key: string): string {
    if key in params then params[key] else ""
  }

  /** `Number(get(k) || default)` for a whole number; a value that is not one, NaN in the source, is read as the default here. */
  function NumberOr(params: Params, key: string, default: int): int {
    if key in params && params[key] != "" && ParseInt(params[key]).Some? then ParseInt(params[key]).value else default
  }

  /** `Math.max(1, Number(page || "1"))`. */
  function PageOf(params: Params): int {
    Max(1, NumberOr(params, "page", 1))
  }

  /** `Math.min(100, Math.max(1, Number(perPage || "20")))`. */
  function PerPageOf(params: Params): int {
    Min(100, Max(1, NumberOr(params, "perPage", 20)))
  }

  lemma Clamps(params: Params)
    ensures PageOf(params) >= 1 && 1 <= PerPageOf(params) <= 100
    ensures TextParam(params, "page") == "" ==> PageOf(params) == 1
    ensures TextParam(params, "perPage") == "" ==> PerPageOf(params) == 20
  {
  }

  /** The `filter` object: a status, and an `$or` of three regular expressions. */
  datatype OrderFilter = OrderFilter(status: Option<string>, anyOf: Option<string>)

  predicate FilterHolds(f: OrderFilter, rx: (string, string) -> bool, o: OrderDoc) {
    (f.status.Some? ==> o.status == f.status.value)
    && (f.anyOf.Some? ==> rx(f.anyOf.value, o.number) || rx(f.anyOf.value, o.fullName) || rx(f.anyOf.value, o.phone))
  }

  /** The orders asked for: of the status when one is given, and matching the search on number, name or phone when one is given. */
  predicate Wanted(status: string, q: string, rx: (string, string) -> bool, o: OrderDoc) {
    (status != "" ==> o.status == status) && (q != "" ==> rx(q, o.number) || rx(q, o.fullName) || rx(q, o.phone))
  }

  method BuildFilter(status: string, q: string) returns (f: OrderFilter)
    ensures forall rx, o :: FilterHolds(f, rx, o) <==> Wanted(status, q, rx, o)
  {
    f := OrderFilter(None, None);
    if status != "" {
      f := f.(status := Some(status));
    }
    if q != "" {
      f := f.(anyOf := Some(q));
    }
  }

  /** `sort({ createdAt: -1 })`. */
  function NewestFirst(): (OrderDoc, OrderDoc) -> bool {
    (a: OrderDoc, b: OrderDoc) => a.createdAt >= b.createdAt
  }

  function Listed(docs: seq<OrderDoc>, status: string, q: string, rx: (string, string) -> bool): seq<OrderDoc> {
    SortBy(Filter(docs, (o: OrderDoc) => Wanted(status, q, rx, o)), NewestFirst())
  }

  /**
   * Without the session cookie set to `"1"` the answer is 401, before any
   * database work; otherwise the clamped page of the wanted orders, newest
   * first, and the count of the same filter.
   */
  method Get(session: Option<string>, params: Params, rx: (string, string) -> bool, docs: seq<OrderDoc>)
    returns (r: Reply)
    ensures session != Some("1") ==> r == Unauthorized
    ensures session == Some("1") ==>
      var status, q := TextParam(params, "status"), TextParam(params, "q");
      r == OrdersPage(PageItems(Listed(docs, status, q, rx), PageOf(params), PerPageOf(params)),
                      PageOf(params), PerPageOf(params),
                      |Filter(docs, (o: OrderDoc) => Wanted(status, q, rx, o))|)
  {
    if session != Some("1") {
      return Unauthorized;
    }
    var q := TextParam(params, "q");
    var status := TextParam(params, "status");
    var page := PageOf(params);
    var perPage := PerPageOf(params);
    var filter := BuildFilter(status, q);
    FilterCongruent(docs, (o: OrderDoc) => FilterHolds(filter, rx, o), (o: OrderDoc) => Wanted(status, q, rx, o));
    var matched := Filter(docs, (o: OrderDoc) => FilterHolds(filter, rx, o));
    var total := |matched|;
    var items := PageItems(SortBy(matched, NewestFirst()), page, perPage);
    return OrdersPage(items, page, perPage, total);
  }

  /** `POST` is refused. */
  function Post(): (r: Reply)
    ensures StatusCode(r) == 405
  {
    NotAllowed
  }

  /** The page lists the wanted orders newest first, at most `perPage` of them. */
  lemma ListedNewestFirst(docs: seq<OrderDoc>, status: string, q: string, rx: (string, string) -> bool)
    ensures SortedBy(Listed(docs, status, q, rx), NewestFirst())
    ensures forall o :: o in Listed(docs, status, q, rx) <==> o in docs && Wanted(status, q, rx, o)
  {
    var le := NewestFirst();
    assert Total(le) && Transitive(le);
    SortBySorted(Filter(docs, (o: OrderDoc) => Wanted(status, q, rx, o)), le);
    SortByMembers(Filter(docs, (o: OrderDoc) => Wanted(status, q, rx, o)), le);
  }

  /** Without status and search every order is listed. */
  lemma NoFilterListsAll(docs: seq<OrderDoc>, rx: (string, string) -> bool)
    ensures |Filter(docs, (o: OrderDoc) => Wanted("", "", rx, o))| == |docs|
  {
    FilterAll(docs, (o: OrderDoc) => Wanted("", "", rx, o));
  }
}
