/**
 * The storefront's catalog client (`src/services/catalog.ts`): the request
 * paths of `getProducts` and `getCategoryFacets`, built by setting query
 * keys one after another on a `URLSearchParams`. The fetch itself is not
 * modelled; percent-encoding is the parameter `enc`.
 */
module CatalogService {
  import opened Common
  import opened UrlParams

  /** `ProductsQuery`; every field may be left out. */
  datatype ProductsQuery = ProductsQuery(
    q: Option<string>, categoryId: Option<string>,
    page: Option<int>, perPage: Option<int>, sort: Option<string>,
    priceMin: Option<int>, priceMax: Option<int>,
    inStock: Option<bool>, onSale: Option<bool>)

  /** `Omit<ProductsQuery, 'page' | 'perPage'>`. */
  datatype FacetsQuery = FacetsQuery(
    q: Option<string>, categoryId: Option<string>, sort: Option<string>,
    priceMin: Option<int>, priceMax: Option<int>,
    inStock: Option<bool>, onSale: Option<bool>)

  /** A number is truthy unless it is 0. */
  predicate TruthyNum(n: Option<int>) {
    n.Some? && n.value != 0
  }

  /** `String(b)`. */
  function BoolText(b: bool): string {
    if b then "true" else "false"
  }

  function ValueOr<T>(o: Option<T>, default: T): T {
    if o.Some? then o.value else default
  }

  /** The pairs for the search text and the category, set first. */
  function SearchEntries(q: Option<string>, categoryId: Option<string>): seq<Entry> {
    Opt(Present(q), "q", ValueOr(q, "")) + Opt(Present(categoryId), "categoryId", ValueOr(categoryId, ""))
  }

  /** The pairs for the page and its size. */
  function PagingEntries(page: Option<int>, perPage: Option<int>): seq<Entry> {
    Opt(TruthyNum(page), "page", IntToString(ValueOr(page, 0)))
    + Opt(TruthyNum(perPage), "perPage", IntToString(ValueOr(perPage, 0)))
  }

  /** The pairs for the sort and the price bounds. */
  function SortPriceEntries(sort: Option<string>, priceMin: Option<int>, priceMax: Option<int>): seq<Entry> {
    Opt(Present(sort), "sort", ValueOr(sort, ""))
    + Opt(priceMin.Some?, "priceMin", IntToString(ValueOr(priceMin, 0)))
    + Opt(priceMax.Some?, "priceMax", IntToString(ValueOr(priceMax, 0)))
  }

  /** The pairs for the two toggles, set last. */
  function ToggleEntries(inStock: Option<bool>, onSale: Option<bool>): seq<Entry> {
    Opt(inStock.Some?, "inStock", BoolText(ValueOr(inStock, false)))
    + Opt(onSale.Some?, "onSale", BoolText(ValueOr(onSale, false)))
  }

  /** The pairs for the sort, the price bounds and the two toggles. */
  function FilterEntries(sort: Option<string>, priceMin: Option<int>, priceMax: Option<int>,
                         inStock: Option<bool>, onSale: Option<bool>): seq<Entry> {
    SortPriceEntries(sort, priceMin, priceMax) + ToggleEntries(inStock, onSale)
  }

  /** The pairs `getProducts` sets, in the order it sets them. */
  function ProductsEntries(p: ProductsQuery): seq<Entry> {
    SearchEntries(p.q, p.categoryId) + PagingEntries(p.page, p.perPage)
    + FilterEntries(p.sort, p.priceMin, p.priceMax, p.inStock, p.onSale)
  }

  /** The pairs `getCategoryFacets` sets, in the order it sets them. */
  function FacetsEntries(f: FacetsQuery): seq<Entry> {
    SearchEntries(f.q, f.categoryId) + FilterEntries(f.sort, f.priceMin, f.priceMax, f.inStock, f.onSale)
  }


  /** `q` and `categoryId`, on a fresh builder. */
  method SetSearch(usp: SearchParams, q: Option<string>, categoryId: Option<string>)
    requires usp.entries == []
    modifies usp
    ensures usp.entries == SearchEntries(q, categoryId)
    ensures KeysOf(usp.entries) <= {"q", "categoryId"}
  {
    SetIf(usp, Present(q), "q", ValueOr(q, ""));
    assert usp.entries == Opt(Present(q), "q", ValueOr(q, ""));
    SetIf(usp, Present(categoryId), "categoryId", ValueOr(categoryId, ""));
  }

  /** `page` and `perPage`, after the search keys. */
  method SetPaging(usp: SearchParams, page: Option<int>, perPage: Option<int>)
    requires KeysOf(usp.entries) <= {"q", "categoryId"}
    modifies usp
    ensures usp.entries == old(usp.entries) + PagingEntries(page, perPage)
    ensures KeysOf(usp.entries) <= {"q", "categoryId", "page", "perPage"}
  {
    SetIf(usp, TruthyNum(page), "page", IntToString(ValueOr(page, 0)));
    assert KeysOf(usp.entries) <= {"q", "categoryId", "page"};
    SetIf(usp, TruthyNum(perPage), "perPage", IntToString(ValueOr(perPage, 0)));
  }

  /** `sort` and the price bounds, after the search and paging keys. */
  method SetSortPrice(usp: SearchParams, sort: Option<string>, priceMin: Option<int>, priceMax: Option<int>)
    requires KeysOf(usp.entries) <= {"q", "categoryId", "page", "perPage"}
    modifies usp
    ensures usp.entries == old(usp.entries) + SortPriceEntries(sort, priceMin, priceMax)
    ensures KeysOf(usp.entries) <= {"q", "categoryId", "page", "perPage", "sort", "priceMin", "priceMax"}
  {
    SetIf(usp, Present(sort), "sort", ValueOr(sort, ""));
    assert KeysOf(usp.entries) <= {"q", "categoryId", "page", "perPage", "sort"};
    SetIf(usp, priceMin.Some?, "priceMin", IntToString(ValueOr(priceMin, 0)));
    assert KeysOf(usp.entries) <= {"q", "categoryId", "page", "perPage", "sort", "priceMin"};
    SetIf(usp, priceMax.Some?, "priceMax", IntToString(ValueOr(priceMax, 0)));
  }

  /** `inStock` and `onSale`, set last. */
  method SetToggles(usp: SearchParams, inStock: Option<bool>, onSale: Option<bool>)
    requires KeysOf(usp.entries) <= {"q", "categoryId", "page", "perPage", "sort", "priceMin", "priceMax"}
    modifies usp
    ensures usp.entries == old(usp.entries) + ToggleEntries(inStock, onSale)
  {
    SetIf(usp, inStock.Some?, "inStock", BoolText(ValueOr(inStock, false)));
    SetIf(usp, onSale.Some?, "onSale", BoolText(ValueOr(onSale, false)));
  }

  /** `sort`, the price bounds and the toggles, after the search and paging keys. */
  method SetFilters(usp: SearchParams, sort: Option<string>, priceMin: Option<int>, priceMax: Option<int>,
                    inStock: Option<bool>, onSale: Option<bool>)
    requires KeysOf(usp.entries) <= {"q", "categoryId", "page", "perPage"}
    modifies usp
    ensures usp.entries == old(usp.entries) + FilterEntries(sort, priceMin, priceMax, inStock, onSale)
  {
    ghost var before := usp.entries;
    SetSortPrice(usp, sort, priceMin, priceMax);
    SetToggles(usp, inStock, onSale);
    AppendAssoc(before, SortPriceEntries(sort, priceMin, priceMax), ToggleEntries(inStock, onSale));
  }

  const ProductsBase := "/api/catalog/products"
  const FacetsBase := "/api/catalog/facets"

  /** `getProducts`: the request path. */
  method ProductsPath(p: ProductsQuery, enc: string -> string) returns (path: string)
    ensures path == PathWith(ProductsBase, Serialize(ProductsEntries(p), enc))
  {
    var usp := new SearchParams();
    SetSearch(usp, p.q, p.categoryId);
    SetPaging(usp, p.page, p.perPage);
    SetFilters(usp, p.sort, p.priceMin, p.priceMax, p.inStock, p.onSale);
    var qs := usp.ToString(enc);
    path := PathWith(ProductsBase, qs);
  }

  /** `getCategoryFacets`: the request path. */
  method FacetsPath(f: FacetsQuery, enc: string -> string) returns (path: string)
    ensures path == PathWith(FacetsBase, Serialize(FacetsEntries(f), enc))
  {
    var usp := new SearchParams();
    SetSearch(usp, f.q, f.categoryId);
    SetFilters(usp, f.sort, f.priceMin, f.priceMax, f.inStock, f.onSale);
    var qs := usp.ToString(enc);
    path := PathWith(FacetsBase, qs);
  }

  /** `getCategories`: a fixed path with no query string. */
  const CategoriesPath := "/api/catalog/categories"

  /** `getProductBySlug`: the encoded slug as the last path segment. */
  function ProductBySlugPath(slug: string, enc: string -> string): (path: string)
    ensures StartsWith(path, ProductsBase + "/") && path[|ProductsBase| + 1..] == enc(slug)
  {
    ProductsBase + "/" + enc(slug)
  }

  /** With an injective encoding, different slugs ask for different paths. */
  lemma SlugPathsDistinct(a: string, b: string, enc: string -> string)
    requires forall x, y :: enc(x) == enc(y) ==> x == y
    requires a != b
    ensures ProductBySlugPath(a, enc) != ProductBySlugPath(b, enc)
  {
    var pa, pb := ProductBySlugPath(a, enc), ProductBySlugPath(b, enc);
    assert pa[|ProductsBase| + 1..] == enc(a) && pb[|ProductsBase| + 1..] == enc(b);
  }

  // ------------------------------------------------------------ properties

  /** The pair `(k, v)` is in the query string. */
  predicate Sent(es: seq<Entry>, k: string, v: string) {
    (k, v) in es
  }

  /** What `getProducts` sends for each key, read off the query field by field. */
  function Expected(p: ProductsQuery, k: string): Option<string> {
    if k == "q" then (if Present(p.q) then Some(p.q.value) else None)
    else if k == "categoryId" then (if Present(p.categoryId) then Some(p.categoryId.value) else None)
    else if k == "page" then (if TruthyNum(p.page) then Some(IntToString(p.page.value)) else None)
    else if k == "perPage" then (if TruthyNum(p.perPage) then Some(IntToString(p.perPage.value)) else None)
    else if k == "sort" then (if Present(p.sort) then Some(p.sort.value) else None)
    else if k == "priceMin" then (if p.priceMin.Some? then Some(IntToString(p.priceMin.value)) else None)
    else if k == "priceMax" then (if p.priceMax.Some? then Some(IntToString(p.priceMax.value)) else None)
    else if k == "inStock" then (if p.inStock.Some? then Some(BoolText(p.inStock.value)) else None)
    else if k == "onSale" then (if p.onSale.Some? then Some(BoolText(p.onSale.value)) else None)
    else None
  }

  /** The pairs of one conditional `set`. */
  lemma SentOpt(c: bool, k: string, v: string, k': string, v': string)
    ensures Sent(Opt(c, k, v), k', v') <==> c && k' == k && v' == v
  {
  }

  lemma SentAppend(a: seq<Entry>, b: seq<Entry>, k: string, v: string)
    ensures Sent(a + b, k, v) <==> Sent(a, k, v) || Sent(b, k, v)
  {
  }

  /** The pairs of the search group. */
  lemma SearchSent(q: Option<string>, categoryId: Option<string>, k: string, v: string)
    ensures Sent(SearchEntries(q, categoryId), k, v) <==>
      (k == "q" && Present(q) && v == q.value) || (k == "categoryId" && Present(categoryId) && v == categoryId.value)
  {
    SentAppend(Opt(Present(q), "q", ValueOr(q, "")), Opt(Present(categoryId), "categoryId", ValueOr(categoryId, "")), k, v);
  }

  /** The pairs of the paging group. */
  lemma PagingSent(page: Option<int>, perPage: Option<int>, k: string, v: string)
    ensures Sent(PagingEntries(page, perPage), k, v) <==>
      (k == "page" && TruthyNum(page) && v == IntToString(page.value))
      || (k == "perPage" && TruthyNum(perPage) && v == IntToString(perPage.value))
  {
    SentAppend(Opt(TruthyNum(page), "page", IntToString(ValueOr(page, 0))),
               Opt(TruthyNum(perPage), "perPage", IntToString(ValueOr(perPage, 0))), k, v);
  }

  /** The pairs of the sort and price group. */
  lemma SortPriceSent(sort: Option<string>, priceMin: Option<int>, priceMax: Option<int>, k: string, v: string)
    ensures Sent(SortPriceEntries(sort, priceMin, priceMax), k, v) <==>
      (k == "sort" && Present(sort) && v == sort.value)
      || (k == "priceMin" && priceMin.Some? && v == IntToString(priceMin.value))
      || (k == "priceMax" && priceMax.Some? && v == IntToString(priceMax.value))
  {
    var s1 := Opt(Present(sort), "sort", ValueOr(sort, "")) + Opt(priceMin.Some?, "priceMin", IntToString(ValueOr(priceMin, 0)));
    SentAppend(Opt(Present(sort), "sort", ValueOr(sort, "")), Opt(priceMin.Some?, "priceMin", IntToString(ValueOr(priceMin, 0))), k, v);
    SentAppend(s1, Opt(priceMax.Some?, "priceMax", IntToString(ValueOr(priceMax, 0))), k, v);
  }

  /** The pairs of the toggle group. */
  lemma ToggleSent(inStock: Option<bool>, onSale: Option<bool>, k: string, v: string)
    ensures Sent(ToggleEntries(inStock, onSale), k, v) <==>
      (k == "inStock" && inStock.Some? && v == BoolText(inStock.value))
      || (k == "onSale" && onSale.Some? && v == BoolText(onSale.value))
  {
    SentAppend(Opt(inStock.Some?, "inStock", BoolText(ValueOr(inStock, false))),
               Opt(onSale.Some?, "onSale", BoolText(ValueOr(onSale, false))), k, v);
  }

  /** Every key is sent exactly when its field is set (truthy for q, categoryId, page, perPage and sort; present for the rest), with that field's value. */
  lemma ProductsSent(p: ProductsQuery, k: string, v: string)
    ensures Sent(ProductsEntries(p), k, v) <==> Expected(p, k) == Some(v)
  {
    var s := SearchEntries(p.q, p.categoryId);
    var g := PagingEntries(p.page, p.perPage);
    var sp := SortPriceEntries(p.sort, p.priceMin, p.priceMax);
    var t := ToggleEntries(p.inStock, p.onSale);
    Ranks();
    SearchSent(p.q, p.categoryId, k, v);
    PagingSent(p.page, p.perPage, k, v);
    SortPriceSent(p.sort, p.priceMin, p.priceMax, k, v);
    ToggleSent(p.inStock, p.onSale, k, v);
    SentAppend(s, g, k, v);
    SentAppend(sp, t, k, v);
    SentAppend(s + g, sp + t, k, v);
    assert ProductsEntries(p) == s + g + (sp + t);
  }

  /** Page 0 is falsy and dropped; a price bound of 0 and a `false` toggle are kept. */
  lemma ZeroAndFalse(p: ProductsQuery)
    requires p.page == Some(0) && p.priceMin == Some(0) && p.inStock == Some(false)
    ensures forall v :: !Sent(ProductsEntries(p), "page", v)
    ensures Sent(ProductsEntries(p), "priceMin", "0") && Sent(ProductsEntries(p), "inStock", "false")
  {
    forall v ensures !Sent(ProductsEntries(p), "page", v) {
      ProductsSent(p, "page", v);
    }
    ProductsSent(p, "priceMin", "0");
    ProductsSent(p, "inStock", "false");
  }

  /** The position of a key in the fixed order q, categoryId, page, perPage, sort, priceMin, priceMax, inStock, onSale. */
  function Rank(k: string): int {
    if k == "q" then 0 else if k == "categoryId" then 1 else if k == "page" then 2
    else if k == "perPage" then 3 else if k == "sort" then 4 else if k == "priceMin" then 5
    else if k == "priceMax" then 6 else if k == "inStock" then 7 else if k == "onSale" then 8
    else 9
  }

  /** The keys come in strictly increasing position, so in the fixed order and each at most once. */
  predicate InOrder(es: seq<Entry>) {
    forall i, j :: 0 <= i < j < |es| ==> Rank(es[i].0) < Rank(es[j].0)
  }

  /** Every key of `es` has a position in `lo..hi`. */
  predicate RanksWithin(es: seq<Entry>, lo: int, hi: int) {
    forall i :: 0 <= i < |es| ==> lo <= Rank(es[i].0) <= hi
  }

  lemma InOrderAppend(a: seq<Entry>, b: seq<Entry>, lo: int, mid: int, hi: int)
    requires lo <= mid <= hi + 1 && InOrder(a) && RanksWithin(a, lo, mid - 1)
    requires InOrder(b) && RanksWithin(b, mid, hi)
    ensures InOrder(a + b) && RanksWithin(a + b, lo, hi)
  {
    forall i | 0 <= i < |a + b| ensures lo <= Rank((a + b)[i].0) <= hi {
      if i < |a| {
        assert (a + b)[i] == a[i];
      } else {
        assert (a + b)[i] == b[i - |a|];
      }
    }
    forall i, j | 0 <= i < j < |a + b| ensures Rank((a + b)[i].0) < Rank((a + b)[j].0) {
      if j < |a| {
        assert (a + b)[i] == a[i] && (a + b)[j] == a[j];
      } else if i < |a| {
        assert (a + b)[i] == a[i] && (a + b)[j] == b[j - |a|];
      } else {
        assert (a + b)[i] == b[i - |a|] && (a + b)[j] == b[j - |a|];
      }
    }
  }

  lemma Ranks()
    ensures Rank("q") == 0 && Rank("categoryId") == 1 && Rank("page") == 2 && Rank("perPage") == 3
    ensures Rank("sort") == 4 && Rank("priceMin") == 5 && Rank("priceMax") == 6
    ensures Rank("inStock") == 7 && Rank("onSale") == 8
  {
  }

  lemma OptInOrder(c: bool, k: string, v: string)
    ensures InOrder(Opt(c, k, v)) && RanksWithin(Opt(c, k, v), Rank(k), Rank(k))
  {
  }

  lemma PairInOrder(c1: bool, k1: string, v1: string, c2: bool, k2: string, v2: string)
    requires Rank(k1) < Rank(k2)
    ensures InOrder(Opt(c1, k1, v1) + Opt(c2, k2, v2))
    ensures RanksWithin(Opt(c1, k1, v1) + Opt(c2, k2, v2), Rank(k1), Rank(k2))
  {
    OptInOrder(c1, k1, v1);
    OptInOrder(c2, k2, v2);
    InOrderAppend(Opt(c1, k1, v1), Opt(c2, k2, v2), Rank(k1), Rank(k2), Rank(k2));
  }

  lemma SearchInOrder(q: Option<string>, categoryId: Option<string>)
    ensures InOrder(SearchEntries(q, categoryId)) && RanksWithin(SearchEntries(q, categoryId), 0, 1)
  {
    Ranks();
    PairInOrder(Present(q), "q", ValueOr(q, ""), Present(categoryId), "categoryId", ValueOr(categoryId, ""));
  }

  lemma PagingInOrder(page: Option<int>, perPage: Option<int>)
    ensures InOrder(PagingEntries(page, perPage)) && RanksWithin(PagingEntries(page, perPage), 2, 3)
  {
    Ranks();
    PairInOrder(TruthyNum(page), "page", IntToString(ValueOr(page, 0)),
                TruthyNum(perPage), "perPage", IntToString(ValueOr(perPage, 0)));
  }

  lemma SortPriceInOrder(sort: Option<string>, priceMin: Option<int>, priceMax: Option<int>)
    ensures InOrder(SortPriceEntries(sort, priceMin, priceMax)) && RanksWithin(SortPriceEntries(sort, priceMin, priceMax), 4, 6)
  {
    Ranks();
    var s1 := Opt(Present(sort), "sort", ValueOr(sort, "")) + Opt(priceMin.Some?, "priceMin", IntToString(ValueOr(priceMin, 0)));
    PairInOrder(Present(sort), "sort", ValueOr(sort, ""), priceMin.Some?, "priceMin", IntToString(ValueOr(priceMin, 0)));
    OptInOrder(priceMax.Some?, "priceMax", IntToString(ValueOr(priceMax, 0)));
    InOrderAppend(s1, Opt(priceMax.Some?, "priceMax", IntToString(ValueOr(priceMax, 0))), 4, 6, 6);
  }

  lemma ToggleInOrder(inStock: Option<bool>, onSale: Option<bool>)
    ensures InOrder(ToggleEntries(inStock, onSale)) && RanksWithin(ToggleEntries(inStock, onSale), 7, 8)
  {
    Ranks();
    PairInOrder(inStock.Some?, "inStock", BoolText(ValueOr(inStock, false)),
                onSale.Some?, "onSale", BoolText(ValueOr(onSale, false)));
  }

  /** The keys of `getProducts` appear in the fixed order. */
  lemma ProductsInOrder(p: ProductsQuery)
    ensures InOrder(ProductsEntries(p))
  {
    var s := SearchEntries(p.q, p.categoryId);
    var g := PagingEntries(p.page, p.perPage);
    var sp := SortPriceEntries(p.sort, p.priceMin, p.priceMax);
    var t := ToggleEntries(p.inStock, p.onSale);
    SearchInOrder(p.q, p.categoryId);
    PagingInOrder(p.page, p.perPage);
    SortPriceInOrder(p.sort, p.priceMin, p.priceMax);
    ToggleInOrder(p.inStock, p.onSale);
    InOrderAppend(s, g, 0, 2, 3);
    InOrderAppend(sp, t, 4, 7, 8);
    InOrderAppend(s + g, sp + t, 0, 4, 8);
    assert ProductsEntries(p) == s + g + (sp + t);
  }

  /** The products query with page and per-page left out. */
  function WithoutPaging(f: FacetsQuery): ProductsQuery {
    ProductsQuery(f.q, f.categoryId, None, None, f.sort, f.priceMin, f.priceMax, f.inStock, f.onSale)
  }

  /** The facets query string is the products one without paging: the same keys in the same order with the same values, and never page or perPage. */
  lemma FacetsLikeProducts(f: FacetsQuery)
    ensures FacetsEntries(f) == ProductsEntries(WithoutPaging(f))
    ensures forall v :: !Sent(FacetsEntries(f), "page", v) && !Sent(FacetsEntries(f), "perPage", v)
  {
    var s := SearchEntries(f.q, f.categoryId);
    assert PagingEntries(None, None) == [];
    assert s + [] == s;
    forall v ensures !Sent(FacetsEntries(f), "page", v) && !Sent(FacetsEntries(f), "perPage", v) {
      ProductsSent(WithoutPaging(f), "page", v);
      ProductsSent(WithoutPaging(f), "perPage", v);
    }
  }

  /** The path has a `?` exactly when some key is set. */
  lemma ProductsBarePath(p: ProductsQuery, enc: string -> string)
    ensures PathWith(ProductsBase, Serialize(ProductsEntries(p), enc)) == ProductsBase
      <==> !Present(p.q) && !Present(p.categoryId) && !TruthyNum(p.page) && !TruthyNum(p.perPage)
           && !Present(p.sort) && p.priceMin.None? && p.priceMax.None? && p.inStock.None? && p.onSale.None?
  {
    PathWithoutEntries(ProductsBase, ProductsEntries(p), enc);
  }
}
