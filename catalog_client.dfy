/**
 * The catalog page (`src/app/catalog/CatalogClient.tsx`): its filter state,
 * the handlers that change it, hydration from the address bar, the
 * address written back, the page count, and the parameters handed to the
 * catalog service.
 *
 * React state is the fields of `CatalogPage`; each handler is a method.
 * The address bar is read as its list of pairs (`URLSearchParams.get`
 * returns the first value of a key) and written as the path
 * `router.replace` receives. Fetching, the debounce timer and rendering
 * are not part of this model: the debounce firing is the method `Debounced`.
 */
module CatalogClient {
  import opened Common
  import opened UrlParams
  import opened CatalogService

  /** The page state; a price bound `None` is the empty string `''` of the page. */
  datatype View = View(q: string, debouncedQ: string, categoryId: Option<string>, page: int, perPage: int,
                       total: int, priceMin: Option<int>, priceMax: Option<int>,
                       inStockOnly: bool, onSaleOnly: bool, sort: string)

  const CatalogBase := "/catalog"

  /** The `useState` defaults. */
  function Initial(): View {
    View("", "", None, 1, 12, 0, None, None, false, false, "newest")
  }

  // ------------------------------------------------------------ hydration

  /** `getBool`: only the texts `true` and `false` are read, anything else is no value. */
  function GetBool(es: seq<Entry>, k: string): Option<bool> {
    var v := Get(es, k);
    if v == Some("true") then Some(true) else if v == Some("false") then Some(false) else None
  }

  /**
   * `getNum`: a missing or empty value is no value, anything else is
   * `Number` of it (a numeral that is not an integer counts as no value).
   */
  function GetNum(es: seq<Entry>, k: string): Option<int> {
    var v := Get(es, k);
    if Present(v) then ParseInt(v.value) else None
  }

  /** `x ?? d` on an optional value. */
  function OrElse<T>(o: Option<T>, d: Option<T>): Option<T> {
    if o.Some? then o else d
  }

  /** A truthy text, or the default. */
  function TextOr(o: Option<string>, d: string): string {
    if Present(o) then o.value else d
  }

  /** The state after the first-mount effect, from the values it read. */
  function HydratedWith(v: View, q0: Option<string>, cat0: Option<string>, page0: Option<int>,
                        pmin0: Option<int>, pmax0: Option<int>, in0: Option<bool>, sale0: Option<bool>,
                        s0: Option<string>): View {
    v.(q := ValueOr(q0, ""), debouncedQ := ValueOr(q0, ""), categoryId := cat0, page := ValueOr(page0, 1),
       priceMin := OrElse(pmin0, v.priceMin), priceMax := OrElse(pmax0, v.priceMax),
       inStockOnly := ValueOr(in0, v.inStockOnly), onSaleOnly := ValueOr(sale0, v.onSaleOnly),
       sort := TextOr(s0, v.sort))
  }

  /** The state after the first-mount effect has read the address `es`. */
  function Hydrated(v: View, es: seq<Entry>): View {
    HydratedWith(v, Get(es, "q"), Get(es, "categoryId"), GetNum(es, "page"),
                 GetNum(es, "priceMin"), GetNum(es, "priceMax"), GetBool(es, "inStock"), GetBool(es, "onSale"),
                 Get(es, "sort"))
  }

  /** Hydration takes the first value of each key; a boolean text other than `true`/`false` leaves the toggle as it was. */
  lemma HydrateReads(v: View, es: seq<Entry>)
    ensures var h := Hydrated(v, es);
      h.q == h.debouncedQ && (Get(es, "q").None? ==> h.q == "")
      && (GetNum(es, "page").None? ==> h.page == 1)
      && (Get(es, "inStock") == Some("true") ==> h.inStockOnly)
      && (Get(es, "inStock") == Some("false") ==> !h.inStockOnly)
      && (Get(es, "inStock") != Some("true") && Get(es, "inStock") != Some("false") ==> h.inStockOnly == v.inStockOnly)
      && (Get(es, "onSale") != Some("true") && Get(es, "onSale") != Some("false") ==> h.onSaleOnly == v.onSaleOnly)
      && h.perPage == v.perPage && h.total == v.total
  {
  }

  // ---------------------------------------------------------- the address

  /** `if (q)` and `if (categoryId)`: the same two steps the catalog service takes. */
  function UrlSearch(v: View): seq<Entry> {
    SearchEntries(Some(v.q), v.categoryId)
  }

  /** The page and page size, each only when it differs from its default. */
  function UrlPaging(page: int, perPage: int): seq<Entry> {
    Opt(page != 1, "page", IntToString(page)) + Opt(perPage != 12, "perPage", IntToString(perPage))
  }

  /** The price bounds, each only when it is not `''`. */
  function UrlPrice(priceMin: Option<int>, priceMax: Option<int>): seq<Entry> {
    Opt(priceMin.Some?, "priceMin", IntToString(ValueOr(priceMin, 0)))
    + Opt(priceMax.Some?, "priceMax", IntToString(ValueOr(priceMax, 0)))
  }

  /** The toggles only when on, and the sort only when it is not `newest`. */
  function UrlToggles(inStockOnly: bool, onSaleOnly: bool, sort: string): seq<Entry> {
    Opt(inStockOnly, "inStock", BoolText(inStockOnly)) + Opt(onSaleOnly, "onSale", BoolText(onSaleOnly))
    + Opt(sort != "newest", "sort", sort)
  }

  /** The pairs the URL-sync effect sets, in the order it sets them. */
  function UrlEntries(v: View): seq<Entry> {
    UrlSearch(v) + UrlPaging(v.page, v.perPage) + UrlPrice(v.priceMin, v.priceMax)
    + UrlToggles(v.inStockOnly, v.onSaleOnly, v.sort)
  }

  method SetUrlPaging(usp: SearchParams, page: int, perPage: int)
    requires KeysOf(usp.entries) <= {"q", "categoryId"}
    modifies usp
    ensures usp.entries == old(usp.entries) + UrlPaging(page, perPage)
    ensures KeysOf(usp.entries) <= {"q", "categoryId", "page", "perPage"}
  {
    SetIf(usp, page != 1, "page", IntToString(page));
    assert KeysOf(usp.entries) <= {"q", "categoryId", "page"};
    SetIf(usp, perPage != 12, "perPage", IntToString(perPage));
  }

  method SetUrlPrice(usp: SearchParams, priceMin: Option<int>, priceMax: Option<int>)
    requires KeysOf(usp.entries) <= {"q", "categoryId", "page", "perPage"}
    modifies usp
    ensures usp.entries == old(usp.entries) + UrlPrice(priceMin, priceMax)
    ensures KeysOf(usp.entries) <= {"q", "categoryId", "page", "perPage", "priceMin", "priceMax"}
  {
    SetIf(usp, priceMin.Some?, "priceMin", IntToString(ValueOr(priceMin, 0)));
    assert KeysOf(usp.entries) <= {"q", "categoryId", "page", "perPage", "priceMin"};
    SetIf(usp, priceMax.Some?, "priceMax", IntToString(ValueOr(priceMax, 0)));
  }

  method SetUrlToggles(usp: SearchParams, inStockOnly: bool, onSaleOnly: bool, sort: string)
    requires KeysOf(usp.entries) <= {"q", "categoryId", "page", "perPage", "priceMin", "priceMax"}
    modifies usp
    ensures usp.entries == old(usp.entries) + UrlToggles(inStockOnly, onSaleOnly, sort)
  {
    SetIf(usp, inStockOnly, "inStock", BoolText(inStockOnly));
    assert KeysOf(usp.entries) <= {"q", "categoryId", "page", "perPage", "priceMin", "priceMax", "inStock"};
    SetIf(usp, onSaleOnly, "onSale", BoolText(onSaleOnly));
    assert KeysOf(usp.entries) <= {"q", "categoryId", "page", "perPage", "priceMin", "priceMax", "inStock", "onSale"};
    SetIf(usp, sort != "newest", "sort", sort);
  }

  /** What the address holds for key `k`: the value when it differs from its default, otherwise nothing. */
  function UrlExpected(v: View, k: string): Option<string> {
    if k == "q" then (if v.q != "" then Some(v.q) else None)
    else if k == "categoryId" then (if Present(v.categoryId) then v.categoryId else None)
    else if k == "page" then (if v.page != 1 then Some(IntToString(v.page)) else None)
    else if k == "perPage" then (if v.perPage != 12 then Some(IntToString(v.perPage)) else None)
    else if k == "priceMin" then (if v.priceMin.Some? then Some(IntToString(v.priceMin.value)) else None)
    else if k == "priceMax" then (if v.priceMax.Some? then Some(IntToString(v.priceMax.value)) else None)
    else if k == "inStock" then (if v.inStockOnly then Some("true") else None)
    else if k == "onSale" then (if v.onSaleOnly then Some("true") else None)
    else if k == "sort" then (if v.sort != "newest" then Some(v.sort) else None)
    else None
  }

  lemma SearchGet(v: View, k: string)
    ensures Get(UrlSearch(v), k) ==
      if k == "q" then (if v.q != "" then Some(v.q) else None)
      else if k == "categoryId" then (if Present(v.categoryId) then v.categoryId else None)
      else None
  {
    GetAppend(Opt(v.q != "", "q", v.q), Opt(Present(v.categoryId), "categoryId", ValueOr(v.categoryId, "")), k);
  }

  lemma PagingGet(page: int, perPage: int, k: string)
    ensures Get(UrlPaging(page, perPage), k) ==
      if k == "page" then (if page != 1 then Some(IntToString(page)) else None)
      else if k == "perPage" then (if perPage != 12 then Some(IntToString(perPage)) else None)
      else None
  {
    GetAppend(Opt(page != 1, "page", IntToString(page)), Opt(perPage != 12, "perPage", IntToString(perPage)), k);
  }

  lemma PriceGet(priceMin: Option<int>, priceMax: Option<int>, k: string)
    ensures Get(UrlPrice(priceMin, priceMax), k) ==
      if k == "priceMin" then (if priceMin.Some? then Some(IntToString(priceMin.value)) else None)
      else if k == "priceMax" then (if priceMax.Some? then Some(IntToString(priceMax.value)) else None)
      else None
  {
    GetAppend(Opt(priceMin.Some?, "priceMin", IntToString(ValueOr(priceMin, 0))),
              Opt(priceMax.Some?, "priceMax", IntToString(ValueOr(priceMax, 0))), k);
  }

  lemma TogglesGet(inStockOnly: bool, onSaleOnly: bool, sort: string, k: string)
    ensures Get(UrlToggles(inStockOnly, onSaleOnly, sort), k) ==
      if k == "inStock" then (if inStockOnly then Some("true") else None)
      else if k == "onSale" then (if onSaleOnly then Some("true") else None)
      else if k == "sort" then (if sort != "newest" then Some(sort) else None)
      else None
  {
    var a := Opt(inStockOnly, "inStock", BoolText(inStockOnly)) + Opt(onSaleOnly, "onSale", BoolText(onSaleOnly));
    GetAppend(Opt(inStockOnly, "inStock", BoolText(inStockOnly)), Opt(onSaleOnly, "onSale", BoolText(onSaleOnly)), k);
    GetAppend(a, Opt(sort != "newest", "sort", sort), k);
  }

  /** Each key of the address holds exactly its non-default value. */
  lemma UrlGet(v: View, k: string)
    ensures Get(UrlEntries(v), k) == UrlExpected(v, k)
  {
    var s, g, p, t := UrlSearch(v), UrlPaging(v.page, v.perPage), UrlPrice(v.priceMin, v.priceMax),
                      UrlToggles(v.inStockOnly, v.onSaleOnly, v.sort);
    Ranks();
    SearchGet(v, k);
    PagingGet(v.page, v.perPage, k);
    PriceGet(v.priceMin, v.priceMax, k);
    TogglesGet(v.inStockOnly, v.onSaleOnly, v.sort, k);
    GetAppend(s, g, k);
    GetAppend(s + g, p, k);
    GetAppend(s + g + p, t, k);
  }

  /** Every value is at its default: nothing to write. */
  predicate AtDefaults(v: View) {
    v.q == "" && !Present(v.categoryId) && v.page == 1 && v.perPage == 12 && v.priceMin.None? && v.priceMax.None?
    && !v.inStockOnly && !v.onSaleOnly && v.sort == "newest"
  }

  lemma {:induction false} EmptyAppend(a: seq<Entry>, b: seq<Entry>)
    ensures a + b == [] <==> a == [] && b == []
  {
    assert |a + b| == |a| + |b|;
  }

  /** The address is `/catalog` alone exactly when every value is at its default. */
  lemma BareUrl(v: View, enc: string -> string)
    ensures PathWith(CatalogBase, Serialize(UrlEntries(v), enc)) == CatalogBase <==> AtDefaults(v)
  {
    var s, g, p, t := UrlSearch(v), UrlPaging(v.page, v.perPage), UrlPrice(v.priceMin, v.priceMax),
                      UrlToggles(v.inStockOnly, v.onSaleOnly, v.sort);
    PathWithoutEntries(CatalogBase, UrlEntries(v), enc);
    EmptyAppend(s + g + p, t);
    EmptyAppend(s + g, p);
    EmptyAppend(s, g);
    EmptyAppend(Opt(v.q != "", "q", v.q), Opt(Present(v.categoryId), "categoryId", ValueOr(v.categoryId, "")));
    EmptyAppend(Opt(v.page != 1, "page", IntToString(v.page)), Opt(v.perPage != 12, "perPage", IntToString(v.perPage)));
    EmptyAppend(Opt(v.priceMin.Some?, "priceMin", IntToString(ValueOr(v.priceMin, 0))),
                Opt(v.priceMax.Some?, "priceMax", IntToString(ValueOr(v.priceMax, 0))));
    var t1 := Opt(v.inStockOnly, "inStock", BoolText(v.inStockOnly)) + Opt(v.onSaleOnly, "onSale", BoolText(v.onSaleOnly));
    EmptyAppend(t1, Opt(v.sort != "newest", "sort", v.sort));
    EmptyAppend(Opt(v.inStockOnly, "inStock", BoolText(v.inStockOnly)), Opt(v.onSaleOnly, "onSale", BoolText(v.onSaleOnly)));
  }

  lemma IntTextPresent(n: int)
    ensures Present(Some(IntToString(n))) && ParseInt(IntToString(n)) == Some(n)
  {
    var m: nat := if n < 0 then -n else n;
    NatToStringValue(m);
    ParseIntToString(n);
  }

  /**
   * Reading back the address the page wrote restores its filters: the
   * page, bounds, toggles and text come back as they were; an empty
   * category reads back as none and an empty sort as `newest`.
   */
  lemma HydrateRoundTrip(v: View)
    ensures Hydrated(Initial(), UrlEntries(v)) ==
      v.(debouncedQ := v.q, perPage := 12, total := 0,
         categoryId := if Present(v.categoryId) then v.categoryId else None,
         sort := if v.sort == "" then "newest" else v.sort)
  {
    var es := UrlEntries(v);
    UrlGet(v, "q");
    UrlGet(v, "categoryId");
    UrlGet(v, "page");
    UrlGet(v, "priceMin");
    UrlGet(v, "priceMax");
    UrlGet(v, "inStock");
    UrlGet(v, "onSale");
    UrlGet(v, "sort");
    Ranks();
    HydrateFrom(v, es);
  }

  /** The round trip, from what each key of the address holds. */
  lemma HydrateFrom(v: View, es: seq<Entry>)
    requires Get(es, "q") == (if v.q != "" then Some(v.q) else None)
    requires Get(es, "categoryId") == (if Present(v.categoryId) then v.categoryId else None)
    requires Get(es, "page") == (if v.page != 1 then Some(IntToString(v.page)) else None)
    requires Get(es, "priceMin") == (if v.priceMin.Some? then Some(IntToString(v.priceMin.value)) else None)
    requires Get(es, "priceMax") == (if v.priceMax.Some? then Some(IntToString(v.priceMax.value)) else None)
    requires Get(es, "inStock") == (if v.inStockOnly then Some("true") else None)
    requires Get(es, "onSale") == (if v.onSaleOnly then Some("true") else None)
    requires Get(es, "sort") == (if v.sort != "newest" then Some(v.sort) else None)
    ensures Hydrated(Initial(), es) ==
      v.(debouncedQ := v.q, perPage := 12, total := 0,
         categoryId := if Present(v.categoryId) then v.categoryId else None,
         sort := if v.sort == "" then "newest" else v.sort)
  {
    IntTextPresent(v.page);
    IntTextPresent(ValueOr(v.priceMin, 0));
    IntTextPresent(ValueOr(v.priceMax, 0));
  }

  // --------------------------------------------------------------- paging

  /** `Math.ceil(a / b)` for a positive divisor. */
  function CeilDiv(a: int, b: int): int
    requires b > 0
  {
    -((-a) / b)
  }

  /** `Math.max(1, Math.ceil(total / perPage))`. */
  function PageCount(total: int, perPage: int): (n: int)
    requires perPage > 0
  {
    Max(1, CeilDiv(total, perPage))
  }

  /** At least one page; enough pages for every item, and no empty page beyond the first. */
  lemma PageCountBounds(total: int, perPage: int)
    requires perPage > 0
    ensures PageCount(total, perPage) >= 1
    ensures total <= PageCount(total, perPage) * perPage
    ensures total > 0 ==> (PageCount(total, perPage) - 1) * perPage < total
    ensures total <= perPage ==> PageCount(total, perPage) == 1
  {
    var c := CeilDiv(total, perPage);
    var r := (-total) % perPage;
    assert total == perPage * c - r && 0 <= r < perPage;
    if total > 0 {
      FactorBelow(perPage, 0, c);
    } else {
      FactorBelow(perPage, c, 1);
    }
    if total <= perPage {
      FactorBelow(perPage, c, 2);
    }
  }

  /** Cancelling a positive factor in a strict comparison. */
  lemma FactorBelow(a: int, b: int, k: int)
    requires a > 0
    ensures a * b < a * k <==> b < k
  {
    if b < k {
      assert a * k - a * b == a * (k - b);
    } else {
      assert a * b - a * k == a * (b - k);
    }
  }

  /** `Math.max(1, p - 1)`. */
  function PrevPage(p: int): int {
    Max(1, p - 1)
  }

  /** `Math.min(pages, p + 1)`. */
  function NextPage(p: int, pages: int): int {
    Min(pages, p + 1)
  }

  /** A click on Back: the button is disabled at `page <= 1`, where the click does nothing. */
  function BackClick(p: int): int {
    if p <= 1 then p else PrevPage(p)
  }

  /** A click on Next: the button is disabled at `page >= pages`, where the click does nothing. */
  function NextClick(p: int, pages: int): int {
    if p >= pages then p else NextPage(p, pages)
  }

  /**
   * A click on an enabled button moves exactly one page, a click on a
   * disabled one changes nothing, and from a page in range both clicks stay
   * in range.
   */
  lemma StepsStayInRange(p: int, pages: int)
    requires pages >= 1
    ensures p > 1 ==> BackClick(p) == p - 1
    ensures p <= 1 ==> BackClick(p) == p
    ensures p < pages ==> NextClick(p, pages) == p + 1
    ensures p >= pages ==> NextClick(p, pages) == p
    ensures 1 <= p <= pages ==> 1 <= BackClick(p) <= pages && 1 <= NextClick(p, pages) <= pages
  {
  }

  // --------------------------------------------------- service parameters

  /** `productParams`: empty bounds and unset toggles are left undefined. */
  function ProductParams(v: View): ProductsQuery {
    ProductsQuery(Some(v.debouncedQ), v.categoryId, Some(v.page), Some(v.perPage), Some(v.sort),
                  v.priceMin, v.priceMax,
                  if v.inStockOnly then Some(true) else None,
                  if v.onSaleOnly then Some(true) else None)
  }

  /** `facetParams`: no page, no page size, no price bounds. */
  function FacetParams(v: View): FacetsQuery {
    FacetsQuery(Some(v.debouncedQ), v.categoryId, Some(v.sort), None, None,
                if v.inStockOnly then Some(true) else None,
                if v.onSaleOnly then Some(true) else None)
  }

  /** The products request never carries a toggle as `false`: a toggle is sent, as `true`, exactly when it is on; a bound exactly when it is set. */
  lemma ProductRequest(v: View, x: string)
    ensures Sent(ProductsEntries(ProductParams(v)), "inStock", x) <==> v.inStockOnly && x == "true"
    ensures Sent(ProductsEntries(ProductParams(v)), "onSale", x) <==> v.onSaleOnly && x == "true"
    ensures Sent(ProductsEntries(ProductParams(v)), "priceMin", x) <==> v.priceMin.Some? && x == IntToString(v.priceMin.value)
    ensures Sent(ProductsEntries(ProductParams(v)), "priceMax", x) <==> v.priceMax.Some? && x == IntToString(v.priceMax.value)
    ensures Sent(ProductsEntries(ProductParams(v)), "q", x) <==> v.debouncedQ != "" && x == v.debouncedQ
  {
    var p := ProductParams(v);
    Ranks();
    ProductsSent(p, "inStock", x);
    ProductsSent(p, "onSale", x);
    ProductsSent(p, "priceMin", x);
    ProductsSent(p, "priceMax", x);
    ProductsSent(p, "q", x);
  }

  /** The facets request carries neither paging nor price bounds. */
  lemma FacetRequest(v: View, x: string)
    ensures !Sent(FacetsEntries(FacetParams(v)), "page", x) && !Sent(FacetsEntries(FacetParams(v)), "perPage", x)
    ensures !Sent(FacetsEntries(FacetParams(v)), "priceMin", x) && !Sent(FacetsEntries(FacetParams(v)), "priceMax", x)
  {
    var f := FacetParams(v);
    FacetsLikeProducts(f);
    Ranks();
    ProductsSent(WithoutPaging(f), "priceMin", x);
    ProductsSent(WithoutPaging(f), "priceMax", x);
  }

  // ----------------------------------------------------------- the page

  /** The filter chips, each clearing one value. */
  datatype Chip = SearchChip | CategoryChip | MinChip | MaxChip | InStockChip | OnSaleChip | SortChip

  /** The values Reset restores. */
  function Cleared(v: View): View {
    v.(q := "", debouncedQ := "", categoryId := None, priceMin := None, priceMax := None,
       inStockOnly := false, onSaleOnly := false, sort := "newest", page := 1)
  }

  /** After Reset the address is `/catalog` alone (the page size never changes from 12). */
  lemma ClearedIsBare(v: View, enc: string -> string)
    requires v.perPage == 12
    ensures PathWith(CatalogBase, Serialize(UrlEntries(Cleared(v)), enc)) == CatalogBase
  {
    BareUrl(Cleared(v), enc);
  }

  /** The state a chip's click leaves; the page is kept. */
  function WithoutChip(v: View, c: Chip): View {
    match c
    case SearchChip => v.(q := "")
    case CategoryChip => v.(categoryId := None)
    case MinChip => v.(priceMin := None)
    case MaxChip => v.(priceMax := None)
    case InStockChip => v.(inStockOnly := false)
    case OnSaleChip => v.(onSaleOnly := false)
    case SortChip => v.(sort := "newest")
  }

  class CatalogPage {
    var q: string
    var debouncedQ: string
    var categoryId: Option<string>
    var page: int
    const perPage: int
    var total: int
    var priceMin: Option<int>
    var priceMax: Option<int>
    var inStockOnly: bool
    var onSaleOnly: bool
    var sort: string

    function State(): View
      reads this
    {
      View(q, debouncedQ, categoryId, page, perPage, total, priceMin, priceMax,
           inStockOnly, onSaleOnly, sort)
    }

    constructor ()
      ensures State() == Initial()
    {
      q, debouncedQ, categoryId, page, perPage, total := "", "", None, 1, 12, 0;
      priceMin, priceMax, inStockOnly, onSaleOnly, sort := None, None, false, false, "newest";
    }

    /** The first-mount effect: read the address `qp` into the state. */
    method Hydrate(qp: seq<Entry>)
      modifies this
      ensures State() == Hydrated(old(State()), qp)
    {
      var q0, cat0, page0 := Get(qp, "q"), Get(qp, "categoryId"), GetNum(qp, "page");
      var s0 := Get(qp, "sort");
      var pmin0, pmax0 := GetNum(qp, "priceMin"), GetNum(qp, "priceMax");
      var in0, sale0 := GetBool(qp, "inStock"), GetBool(qp, "onSale");
      SetSearchRead(q0, cat0, page0);
      SetFilterRead(pmin0, pmax0, in0, sale0, s0);
    }

    /** The setters the first-mount effect calls with the values it read. */
    method SetSearchRead(q0: Option<string>, cat0: Option<string>, page0: Option<int>)
      modifies this
      ensures State() == old(State()).(q := ValueOr(q0, ""), debouncedQ := ValueOr(q0, ""), categoryId := cat0,
                                       page := ValueOr(page0, 1))
    {
      q, debouncedQ, categoryId, page := ValueOr(q0, ""), ValueOr(q0, ""), cat0, ValueOr(page0, 1);
    }

    /** Each `if (x != null) setX(x)` keeps the old value otherwise. */
    method SetFilterRead(pmin0: Option<int>, pmax0: Option<int>, in0: Option<bool>, sale0: Option<bool>,
                         s0: Option<string>)
      modifies this
      ensures State() == old(State()).(priceMin := OrElse(pmin0, old(priceMin)), priceMax := OrElse(pmax0, old(priceMax)),
                                       inStockOnly := ValueOr(in0, old(inStockOnly)), onSaleOnly := ValueOr(sale0, old(onSaleOnly)),
                                       sort := TextOr(s0, old(sort)))
    {
      priceMin, priceMax := OrElse(pmin0, priceMin), OrElse(pmax0, priceMax);
      inStockOnly, onSaleOnly := ValueOr(in0, inStockOnly), ValueOr(sale0, onSaleOnly);
      sort := TextOr(s0, sort);
    }

    /** The URL-sync effect: the path handed to `router.replace`. */
    method SyncUrl(enc: string -> string) returns (path: string)
      ensures path == PathWith(CatalogBase, Serialize(UrlEntries(State()), enc))
    {
      var usp := new SearchParams();
      SetSearch(usp, Some(q), categoryId);
      SetUrlPaging(usp, page, perPage);
      SetUrlPrice(usp, priceMin, priceMax);
      SetUrlToggles(usp, inStockOnly, onSaleOnly, sort);
      var qs := usp.ToString(enc);
      path := PathWith(CatalogBase, qs);
    }

    /** The 300 ms debounce firing. */
    method Debounced()
      modifies this
      ensures State() == old(State()).(debouncedQ := old(q))
    {
      debouncedQ := q;
    }

    /** The products answer arrived; a missing total leaves the old one. */
    method Loaded(answerTotal: Option<int>)
      modifies this
      ensures State() == old(State()).(total := if answerTotal.Some? then answerTotal.value else old(total))
    {
      if answerTotal.Some? {
        total := answerTotal.value;
      }
    }

    /** Typing in the search box. */
    method Search(text: string)
      modifies this
      ensures State() == old(State()).(page := 1, q := text)
    {
      page := 1;
      q := text;
    }

    /** Choosing a category; `all` means none. */
    method ChooseCategory(choice: string)
      modifies this
      ensures State() == old(State()).(page := 1, categoryId := if choice == "all" then None else Some(choice))
    {
      page := 1;
      categoryId := if choice == "all" then None else Some(choice);
    }

    /** Moving the price slider; a thumb that is not a number clears its bound. */
    method Slide(lo: Option<int>, hi: Option<int>)
      modifies this
      ensures State() == old(State()).(page := 1, priceMin := lo, priceMax := hi)
    {
      page := 1;
      priceMin := lo;
      priceMax := hi;
    }

    method ToggleInStock(checked: bool)
      modifies this
      ensures State() == old(State()).(page := 1, inStockOnly := checked)
    {
      page := 1;
      inStockOnly := checked;
    }

    method ToggleOnSale(checked: bool)
      modifies this
      ensures State() == old(State()).(page := 1, onSaleOnly := checked)
    {
      page := 1;
      onSaleOnly := checked;
    }

    method ChooseSort(choice: string)
      modifies this
      ensures State() == old(State()).(page := 1, sort := choice)
    {
      page := 1;
      sort := choice;
    }

    /** The reset button (both of them). */
    method Reset()
      modifies this
      ensures State() == Cleared(old(State()))
    {
      q := "";
      debouncedQ := "";
      categoryId := None;
      priceMin := None;
      priceMax := None;
      inStockOnly := false;
      onSaleOnly := false;
      sort := "newest";
      page := 1;
    }

    /** A chip's click. */
    method RemoveChip(c: Chip)
      modifies this
      ensures State() == WithoutChip(old(State()), c)
    {
      match c
      case SearchChip => q := "";
      case CategoryChip => categoryId := None;
      case MinChip => priceMin := None;
      case MaxChip => priceMax := None;
      case InStockChip => inStockOnly := false;
      case OnSaleChip => onSaleOnly := false;
      case SortChip => sort := "newest";
    }

    /** The number of pages shown. */
    function Pages(): (n: int)
      reads this
      requires perPage > 0
      ensures n >= 1 && total <= n * perPage
    {
      PageCountBounds(total, perPage);
      PageCount(total, perPage)
    }

    /** Back, which does nothing while disabled. */
    method Prev()
      modifies this
      ensures State() == old(State()).(page := BackClick(old(page)))
    {
      if page > 1 {
        page := PrevPage(page);
      }
    }

    /** Next, which does nothing while disabled. */
    method Next()
      requires perPage > 0
      modifies this
      ensures State() == old(State()).(page := NextClick(old(page), old(Pages())))
    {
      var pages := Pages();
      if page < pages {
        page := NextPage(page, pages);
      }
    }
  }
}
