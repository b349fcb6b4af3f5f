/**
 * `GET` and `POST /api/admin/products` (`src/app/api/admin/products/route.ts`):
 * the admin listing with its filters, sort and paging, and the creation of
 * a product with its field defaults.
 *
 * The listing runs over a sequence of product documents. The case-insensitive
 * `new RegExp(q, "i")` test is the parameter `rx` (pattern, text); ObjectId
 * parsing is `oid`; saving the new document is `save`.
 */
module AdminProductsRoute {
  import opened Common
  import opened Sorting
  import opened ProductsRoute

  // ------------------------------------------------------------ parameters

  /** `parseBool`: exactly `"true"` and `"false"`, anything else undefined. */
  function ParseBool(val: Option<string>): (r: Option<bool>) {
    if val.None? then None
    else if val.value == "true" then Some(true)
    else if val.value == "false" then Some(false)
    else None
  }

  lemma ParseBoolIff(val: Option<string>)
    ensures ParseBool(val) == Some(true) <==> val == Some("true")
    ensures ParseBool(val) == Some(false) <==> val == Some("false")
    ensures ParseBool(val).None? <==> val != Some("true") && val != Some("false")
  {
  }

  /** `Number(s)` for a parameter: absent, a whole number, or NaN. */
  datatype NumArg = Absent | Num(n: int) | NotANumber

  function NumArgOf(s: Option<string>): NumArg {
    if s.None? then Absent
    else if ParseInt(s.value).Some? then Num(ParseInt(s.value).value)
    else NotANumber
  }

  /** `Math.max(1, Number(get(k) || default))` for a whole number; a value that is not one, NaN in the source, is read as the default here. */
  function AtLeastOne(s: Option<string>, default: int): int {
    if Present(s) && ParseInt(s.value).Some? then Max(1, ParseInt(s.value).value) else Max(1, default)
  }

  datatype AdminQuery = AdminQuery(q: Option<string>, categoryId: Option<string>, page: int, perPage: int,
                                   priceMin: NumArg, priceMax: NumArg, inStock: Option<bool>,
                                   onSale: Option<bool>, sort: string)

  function ParseAdminQuery(params: Params): AdminQuery {
    var q := Raw(params, "q");
    var c := Raw(params, "categoryId");
    var s := Raw(params, "sort");
    AdminQuery(if Present(q) then q else None, if Present(c) then c else None,
               AtLeastOne(Raw(params, "page"), 1), AtLeastOne(Raw(params, "perPage"), 20),
               NumArgOf(Raw(params, "priceMin")), NumArgOf(Raw(params, "priceMax")),
               ParseBool(Raw(params, "inStock")), ParseBool(Raw(params, "onSale")),
               if Present(s) then s.value else "newest")
  }

  /** Pages from 1 and sizes from 1, with no upper cap on the size; the defaults are page 1 of 20. */
  lemma AdminPaging(params: Params)
    ensures var query := ParseAdminQuery(params);
      query.page >= 1 && query.perPage >= 1
      && (!Present(Raw(params, "page")) ==> query.page == 1)
      && (!Present(Raw(params, "perPage")) ==> query.perPage == 20)
  {
  }

  /** Every page size of at least 1 is kept as it is: there is no upper cap. */
  lemma AdminPerPageUncapped(n: int)
    requires n >= 1
    ensures ParseAdminQuery(map["perPage" := IntToString(n)]).perPage == n
  {
    ParseIntToString(n);
  }

  // ---------------------------------------------------------------- match

  /** The `$match` object: an `$or` over title, author and publisher, a category, and the two flags. */
  datatype AdminMatch = AdminMatch(anyOf: Option<string>, category: Option<string>,
                                   stockPositive: bool, saleBelow: bool)

  /** `{ field: rx }` on a field that may be missing. */
  predicate RxField(rx: (string, string) -> bool, pattern: string, field: Option<string>) {
    field.Some? && rx(pattern, field.value)
  }

  predicate MatchHolds(m: AdminMatch, rx: (string, string) -> bool, d: Doc) {
    (m.anyOf.Some? ==>
      rx(m.anyOf.value, d.title) || RxField(rx, m.anyOf.value, AttrOf(d).author)
      || RxField(rx, m.anyOf.value, AttrOf(d).publisher))
    && (m.category.Some? ==> d.categoryIds.Some? && m.category.value in d.categoryIds.value)
    && (m.stockPositive ==> d.stock > 0)
    && (m.saleBelow ==> d.salePrice.Some? && d.salePrice.value < d.price)
  }

  /** The listing's filters on a document, stated on its fields. */
  predicate MatchWanted(query: AdminQuery, oid: string -> Option<string>, rx: (string, string) -> bool, d: Doc) {
    (query.q.Some? ==>
      rx(query.q.value, d.title) || RxField(rx, query.q.value, AttrOf(d).author)
      || RxField(rx, query.q.value, AttrOf(d).publisher))
    && (query.categoryId.Some? && oid(query.categoryId.value).Some? ==>
          d.categoryIds.Some? && oid(query.categoryId.value).value in d.categoryIds.value)
    && (query.inStock == Some(true) ==> d.stock > 0)
    && (query.onSale == Some(true) ==> d.salePrice.Some? && d.salePrice.value < d.price)
  }

  /** Assigns the fields of `match` one condition at a time; an invalid category id and false flags add nothing. */
  method BuildMatch(query: AdminQuery, oid: string -> Option<string>) returns (m: AdminMatch)
    ensures forall rx, d :: MatchHolds(m, rx, d) <==> MatchWanted(query, oid, rx, d)
  {
    m := AdminMatch(None, None, false, false);
    if query.q.Some? {
      m := m.(anyOf := query.q);
    }
    if query.categoryId.Some? && oid(query.categoryId.value).Some? {
      m := m.(category := oid(query.categoryId.value));
    }
    if query.inStock == Some(true) {
      m := m.(stockPositive := true);
    }
    if query.onSale == Some(true) {
      m := m.(saleBelow := true);
    }
  }

  /** A `$match` on `effectivePrice` pushed onto the pipeline; `None` is a NaN bound, which nothing meets. */
  datatype PriceStage = AtLeast(min: Option<int>) | AtMost(max: Option<int>)

  predicate StageHolds(s: PriceStage, d: Doc) {
    match s
    case AtLeast(b) => b.Some? && DocPrice(d) >= b.value
    case AtMost(b) => b.Some? && DocPrice(d) <= b.value
  }

  predicate StagesHold(stages: seq<PriceStage>, d: Doc) {
    forall i :: 0 <= i < |stages| ==> StageHolds(stages[i], d)
  }

  /** A bound that is given, even as `""` (which is 0), limits the price charged; a NaN bound excludes everything. */
  predicate BoundOk(b: NumArg, lower: bool, d: Doc) {
    match b
    case Absent => true
    case Num(n) => if lower then DocPrice(d) >= n else DocPrice(d) <= n
    case NotANumber => false
  }

  function BoundOf(b: NumArg): Option<int> {
    if b.Num? then Some(b.n) else None
  }

  /** Pushes the price stages: one per bound the query string holds. */
  method PushPriceStages(query: AdminQuery) returns (stages: seq<PriceStage>)
    ensures forall d :: StagesHold(stages, d) <==> BoundOk(query.priceMin, true, d) && BoundOk(query.priceMax, false, d)
    ensures |stages| <= 2
  {
    stages := [];
    if !query.priceMin.Absent? {
      stages := stages + [AtLeast(BoundOf(query.priceMin))];
      assert forall d :: StagesHold(stages, d) <==> StageHolds(stages[0], d);
    }
    assert forall d :: StagesHold(stages, d) <==> BoundOk(query.priceMin, true, d);
    if !query.priceMax.Absent? {
      var s := AtMost(BoundOf(query.priceMax));
      forall d ensures StagesHold(stages + [s], d) <==> StagesHold(stages, d) && StageHolds(s, d) {
        assert (stages + [s])[|stages|] == s;
        assert forall i :: 0 <= i < |stages| ==> (stages + [s])[i] == stages[i];
      }
      stages := stages + [s];
    }
  }

  /** Every filter of the admin listing. */
  predicate AdminWanted(query: AdminQuery, oid: string -> Option<string>, rx: (string, string) -> bool, d: Doc) {
    MatchWanted(query, oid, rx, d) && BoundOk(query.priceMin, true, d) && BoundOk(query.priceMax, false, d)
  }

  datatype AdminListing = AdminListing(items: seq<Item>, page: int, perPage: int, total: int)

  /** The filtered documents in the requested order. */
  function AdminOrdered(docs: seq<Doc>, query: AdminQuery, oid: string -> Option<string>,
                        rx: (string, string) -> bool): seq<Doc>
  {
    SortBy(Filter(docs, (d: Doc) => AdminWanted(query, oid, rx, d)), FieldLe(RequestedField(Some(query.sort))))
  }

  /** The listing: page `page` of `perPage` of the filtered documents in sort order, and their number. */
  method Get(params: Params, oid: string -> Option<string>, rx: (string, string) -> bool, docs: seq<Doc>)
    returns (r: AdminListing)
    ensures var query := ParseAdminQuery(params);
      r.page == query.page && r.perPage == query.perPage
      && r.total == |Filter(docs, (d: Doc) => AdminWanted(query, oid, rx, d))|
      && r.items == MapSeq(PageItems(AdminOrdered(docs, query, oid, rx), r.page, r.perPage), ItemOf)
  {
    var query := ParseAdminQuery(params);
    var m := BuildMatch(query, oid);
    var stages := PushPriceStages(query);
    var stage := BuildSortStage(false, Some(query.sort));
    assert stage.field == RequestedField(Some(query.sort));
    var keep := (d: Doc) => MatchHolds(m, rx, d) && StagesHold(stages, d);
    FilterCongruent(docs, keep, (d: Doc) => AdminWanted(query, oid, rx, d));
    var matched := Filter(docs, keep);
    var sorted := SortBy(matched, FieldLe(stage.field));
    var items := MapSeq(PageItems(sorted, query.page, query.perPage), ItemOf);
    return AdminListing(items, query.page, query.perPage, |matched|);
  }

  /** A flag set to anything but `true`, and a category id `ObjectId` rejects, filter nothing. */
  lemma FalseFlagsIgnored(query: AdminQuery, oid: string -> Option<string>, rx: (string, string) -> bool, d: Doc)
    requires query.q.None? && query.priceMin.Absent? && query.priceMax.Absent?
    requires query.inStock != Some(true) && query.onSale != Some(true)
    requires query.categoryId.None? || oid(query.categoryId.value).None?
    ensures AdminWanted(query, oid, rx, d)
  {
  }

  /** An empty `priceMin` is the bound 0. */
  lemma EmptyPriceMinIsZero()
    ensures NumArgOf(Some("")) == Num(0)
  {
  }

  /** The admin listing is in the requested order and holds exactly the filtered documents. */
  lemma AdminOrderedSorted(docs: seq<Doc>, query: AdminQuery, oid: string -> Option<string>, rx: (string, string) -> bool)
    ensures SortedBy(AdminOrdered(docs, query, oid, rx), FieldLe(RequestedField(Some(query.sort))))
    ensures forall d :: d in AdminOrdered(docs, query, oid, rx) <==> d in docs && AdminWanted(query, oid, rx, d)
  {
    var le := FieldLe(RequestedField(Some(query.sort)));
    FieldPreorder(RequestedField(Some(query.sort)));
    SortBySorted(Filter(docs, (d: Doc) => AdminWanted(query, oid, rx, d)), le);
    SortByMembers(Filter(docs, (d: Doc) => AdminWanted(query, oid, rx, d)), le);
  }

  // ------------------------------------------------------------------ POST

  /** The document the route saves, and returns once saved. */
  datatype NewProduct = NewProduct(id: string, title: string, slug: string, sku: string, price: Option<int>,
                                   salePrice: Option<int>, stock: Option<int>, images: seq<Json>,
                                   attributes: Json, categoryIds: seq<string>)

  datatype SaveResult = Saved | DuplicateKey | SaveFailed

  datatype PostResult = Created(product: NewProduct) | MissingFields | SlugTaken | Invalid

  /** The reply's status and error text; an `Invalid` reply carries the thrown error's message. */
  function Status(r: PostResult): int {
    if r.Created? then 201 else 400
  }

  function ErrorText(r: PostResult): Option<string> {
    match r
    case MissingFields => Some("title and price are required")
    case SlugTaken => Some("slug must be unique")
    case _ => None
  }

  /** `salePrice`: nothing for `""`, `null` and an absent field, otherwise `Number(v)` with NaN as nothing. */
  function SalePriceOf(raw: Option<Json>): Option<int> {
    if Nullish(raw) || raw.value == JStr("") then None else JsNumber(raw.value)
  }

  /** `ObjectId` of a truthy category id, or nothing; values other than strings are taken as invalid. */
  function CategoryOid(e: Json, oid: string -> Option<string>): Option<string> {
    if e.JStr? && e.s != "" then oid(e.s) else None
  }

  /** `ids.filter(Boolean).map(valid ? ObjectId : null).filter(Boolean)`: the accepted ids, in order. */
  function KeptIds(elems: seq<Json>, oid: string -> Option<string>): seq<string> {
    if elems == [] then []
    else
      var o := CategoryOid(elems[|elems| - 1], oid);
      KeptIds(elems[..|elems| - 1], oid) + (if o.Some? then [o.value] else [])
  }

  /** The category ids of the body, `[]` when it holds no array. */
  function KeptCategoryIds(raw: Option<Json>, oid: string -> Option<string>): seq<string> {
    if raw.Some? && raw.value.JArr? then KeptIds(raw.value.elems, oid) else []
  }

  /** The document built from the body with the defaults filled in. */
  function Normalize(body: JsonBody, newId: string, oid: string -> Option<string>): NewProduct
    requires "title" in body && "price" in body
  {
    var sku := JsonField(body, "sku");
    var stock := JsonField(body, "stock");
    var images := JsonField(body, "images");
    var attributes := JsonField(body, "attributes");
    NewProduct(newId, JsString(body["title"]), newId,
               if TruthyField(sku) then JsString(sku.value) else newId,
               JsNumber(body["price"]), SalePriceOf(JsonField(body, "salePrice")),
               if Nullish(stock) then Some(0) else JsNumber(stock.value),
               if images.Some? && images.value.JArr? then images.value.elems else [],
               if TruthyField(attributes) then attributes.value else JObj([]),
               KeptCategoryIds(JsonField(body, "categoryIds"), oid))
  }

  /**
   * The creation: 400 without a truthy title or with a null price; a price
   * or stock that is not a number fails the save; a duplicate key is the
   * slug error; otherwise the saved document.
   */
  function Post(body: Option<JsonBody>, newId: string, oid: string -> Option<string>,
                save: NewProduct -> SaveResult): PostResult
  {
    if body.None? then Invalid
    else if !TruthyField(JsonField(body.value, "title")) || Nullish(JsonField(body.value, "price")) then MissingFields
    else
      var p := Normalize(body.value, newId, oid);
      if p.price.None? || p.stock.None? then Invalid
      else
        match save(p)
        case Saved => Created(p)
        case DuplicateKey => SlugTaken
        case SaveFailed => Invalid
  }

  /** A body without a truthy title, or with a null or missing price, is refused before anything else. */
  lemma MissingFieldsIff(body: JsonBody, newId: string, oid: string -> Option<string>, save: NewProduct -> SaveResult)
    ensures Post(Some(body), newId, oid, save) == MissingFields
        <==> !TruthyField(JsonField(body, "title")) || Nullish(JsonField(body, "price"))
    ensures Post(Some(body), newId, oid, save) == MissingFields ==>
              Status(MissingFields) == 400 && ErrorText(MissingFields) == Some("title and price are required")
  {
  }

  /** A created product has the new id as its slug, the slug as its default sku, stock 0 and no images by default. */
  lemma CreatedDefaults(body: Option<JsonBody>, newId: string, oid: string -> Option<string>, save: NewProduct -> SaveResult)
    requires Post(body, newId, oid, save).Created?
    ensures var p := Post(body, newId, oid, save).product;
      p.id == newId && p.slug == newId && p.price.Some? && p.stock.Some?
      && (!TruthyField(JsonField(body.value, "sku")) ==> p.sku == newId)
      && (Nullish(JsonField(body.value, "stock")) ==> p.stock == Some(0))
      && (JsonField(body.value, "images").None? ==> p.images == [])
      && (JsonField(body.value, "attributes").None? ==> p.attributes == JObj([]))
      && Status(Post(body, newId, oid, save)) == 201
  {
  }

  /** A sale price is stored exactly when it is given, non-empty and a number. */
  lemma SalePriceIff(raw: Option<Json>)
    ensures SalePriceOf(raw).None? <==> raw.None? || raw.value == JNull || raw.value == JStr("") || JsNumber(raw.value).None?
    ensures raw.Some? && raw.value.JNum? ==> SalePriceOf(raw) == Some(raw.value.n)
  {
  }

  /** The kept category ids are the truthy ids `ObjectId` accepts, and nothing else. */
  lemma {:induction false} KeptIdsExact(elems: seq<Json>, oid: string -> Option<string>)
    ensures |KeptIds(elems, oid)| <= |elems|
    ensures forall x :: x in KeptIds(elems, oid) <==> exists e :: e in elems && CategoryOid(e, oid) == Some(x)
  {
    if elems != [] {
      var init, last := elems[..|elems| - 1], elems[|elems| - 1];
      KeptIdsExact(init, oid);
      assert elems == init + [last];
      forall x ensures x in KeptIds(elems, oid) <==> exists e :: e in elems && CategoryOid(e, oid) == Some(x) {
        if exists e :: e in elems && CategoryOid(e, oid) == Some(x) {
          var e :| e in elems && CategoryOid(e, oid) == Some(x);
          if e != last {
            assert e in init;
          }
        }
      }
    }
  }

  /** A list of accepted ids comes back one for one, in the body's order. */
  lemma {:induction false} KeptIdsInOrder(elems: seq<Json>, oid: string -> Option<string>)
    requires forall i :: 0 <= i < |elems| ==> CategoryOid(elems[i], oid).Some?
    ensures KeptIds(elems, oid) == MapSeq(elems, (e: Json) => if CategoryOid(e, oid).Some? then CategoryOid(e, oid).value else "")
  {
    if elems != [] {
      KeptIdsInOrder(elems[..|elems| - 1], oid);
    }
  }

  /** A duplicate key is the slug error, with status 400. */
  lemma DuplicateSlug(body: JsonBody, newId: string, oid: string -> Option<string>, save: NewProduct -> SaveResult)
    requires TruthyField(JsonField(body, "title")) && !Nullish(JsonField(body, "price"))
    requires JsNumber(body["price"]).Some?
    requires Normalize(body, newId, oid).stock.Some?
    requires save(Normalize(body, newId, oid)) == DuplicateKey
    ensures Post(Some(body), newId, oid, save) == SlugTaken
    ensures Status(SlugTaken) == 400 && ErrorText(SlugTaken) == Some("slug must be unique")
  {
  }
}
