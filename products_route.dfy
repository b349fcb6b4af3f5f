/**
 * `GET /api/catalog/products` (`src/app/api/catalog/products/route.ts`):
 * reads the query string, builds the list of match conditions (`andExpr`)
 * and the sort stage, and answers one page of the products that pass them
 * together with their count.
 *
 * The database is a sequence of product documents. Three things the model
 * cannot compute are parameters: `ObjectId(s)` (`oid`, `None` when the
 * constructor throws), the `$text` index (`textMatch`) and its relevance
 * score (`score`).
 */
module ProductsRoute {
  import opened Common
  import opened Sorting

  // ------------------------------------------------------------ documents

  /** The attribute fields a query can filter on; `grade` is `attributes.class`, `vendor` is `attributes.source.vendor`. */
  datatype DocAttributes = DocAttributes(year: Option<int>, author: Option<string>, publisher: Option<string>,
                                         language: Option<string>, coverType: Option<string>,
                                         vendor: Option<string>, grade: Option<string>)

  /** A product document as stored: `images`, `attributes` and `categoryIds` may be missing. */
  datatype Doc = Doc(id: string, title: string, slug: string, sku: string, price: int,
                     salePrice: Option<int>, stock: int, images: Option<seq<string>>,
                     attributes: Option<DocAttributes>, categoryIds: Option<seq<string>>)

  const NoAttributes := DocAttributes(None, None, None, None, None, None, None)

  /** The attributes a dotted path like `attributes.year` reads: none when the object is missing. */
  function AttrOf(d: Doc): DocAttributes {
    if d.attributes.Some? then d.attributes.value else NoAttributes
  }

  /** `{ $ifNull: ["$salePrice", "$price"] }`. */
  function DocPrice(d: Doc): int {
    if d.salePrice.Some? then d.salePrice.value else d.price
  }

  // ---------------------------------------------------------- query string

  /** The query string's parameters, each with its first value. */
  type Params = map<string, string>

  function Raw(params: Params, key: string): Option<string> {
    if key in params then Some(params[key]) else None
  }

  /** `get(k) ? Number(get(k)) : undefined` for a whole number; a value that is not one, NaN in the source, is read as absent here. */
  function NumberParam(params: Params, key: string): Option<int> {
    if Present(Raw(params, key)) then ParseInt(params[key]) else None
  }

  /** `get(k) ? get(k) === "true" : undefined`. */
  function FlagParam(params: Params, key: string): Option<bool> {
    if Present(Raw(params, key)) then Some(params[key] == "true") else None
  }

  datatype Query = Query(q: Option<string>, categoryId: Option<string>, page: Option<int>,
                         perPage: Option<int>, priceMin: Option<int>, priceMax: Option<int>,
                         inStock: Option<bool>, onSale: Option<bool>, sort: Option<string>,
                         year: Option<int>, author: Option<string>, publisher: Option<string>,
                         language: Option<string>, coverType: Option<string>,
                         vendor: Option<string>, grade: Option<string>)

  function ParseQuery(params: Params): Query {
    Query(Raw(params, "q"), Raw(params, "categoryId"), NumberParam(params, "page"),
          NumberParam(params, "perPage"), NumberParam(params, "priceMin"),
          NumberParam(params, "priceMax"), FlagParam(params, "inStock"),
          FlagParam(params, "onSale"), Raw(params, "sort"), NumberParam(params, "year"),
          Raw(params, "author"), Raw(params, "publisher"), Raw(params, "language"),
          Raw(params, "coverType"), Raw(params, "vendor"), Raw(params, "class"))
  }

  /** A flag filters only when given and non-empty, and then for exactly the value `true`. */
  lemma FlagParamIff(params: Params, key: string)
    ensures FlagParam(params, key) == Some(true) <==> key in params && params[key] == "true"
    ensures FlagParam(params, key) == Some(false) <==> key in params && params[key] != "" && params[key] != "true"
    ensures FlagParam(params, key).None? <==> key !in params || params[key] == ""
  {
  }

  /** `q && q.length >= 3`: the text index serves queries of three characters or more. */
  predicate UseText(query: Query) {
    Present(query.q) && |query.q.value| >= 3
  }

  // ------------------------------------------------------- regular expressions

  /** The characters `replace(/[.*+?^${}()|[\]\\]/g, "\\$&")` escapes. */
  predicate IsRegexSpecial(c: char) {
    c in ".*+?^${}()|[]\\"
  }

  function EscapeChar(c: char): string {
    if IsRegexSpecial(c) then ['\\', c] else [c]
  }

  /** A backslash before every special character, everything else as it is. */
  function Escape(s: string): string {
    if s == [] then [] else EscapeChar(s[0]) + Escape(s[1..])
  }

  /** The text a pattern of literal and backslash-escaped characters matches. */
  function Unescape(p: string): string {
    if p == [] then []
    else if p[0] == '\\' && |p| >= 2 then [p[1]] + Unescape(p[2..])
    else [p[0]] + Unescape(p[1..])
  }

  /** A pattern whose every special character is escaped, so it stands for a literal text. */
  predicate Escaped(p: string) {
    if p == [] then true
    else if p[0] == '\\' then |p| >= 2 && IsRegexSpecial(p[1]) && Escaped(p[2..])
    else !IsRegexSpecial(p[0]) && Escaped(p[1..])
  }

  /** The escaped text is a literal pattern that matches exactly the original text. */
  lemma {:induction false} EscapeRoundTrip(s: string)
    ensures Escaped(Escape(s)) && Unescape(Escape(s)) == s
  {
    if s != [] {
      EscapeRoundTrip(s[1..]);
      var p := Escape(s);
      assert p == EscapeChar(s[0]) + Escape(s[1..]);
      if IsRegexSpecial(s[0]) {
        assert p[0] == '\\' && p[1] == s[0] && p[2..] == Escape(s[1..]);
      } else {
        assert p[0] == s[0] && p[1..] == Escape(s[1..]);
      }
      assert s == [s[0]] + s[1..];
    }
  }

  /** Escaping changes a text exactly when it holds a special character. */
  lemma {:induction false} EscapeIdentityIff(s: string)
    ensures Escape(s) == s <==> forall i :: 0 <= i < |s| ==> !IsRegexSpecial(s[i])
  {
    if s != [] {
      EscapeIdentityIff(s[1..]);
      EscapeLength(s[1..]);
      if IsRegexSpecial(s[0]) {
        assert |Escape(s)| == 2 + |Escape(s[1..])|;
      } else {
        assert Escape(s) == [s[0]] + Escape(s[1..]);
        assert s == [s[0]] + s[1..];
        if Escape(s) == s {
          assert Escape(s[1..]) == Escape(s)[1..];
        }
        assert (forall i :: 0 <= i < |s| ==> !IsRegexSpecial(s[i]))
          <==> (forall i :: 0 <= i < |s[1..]| ==> !IsRegexSpecial(s[1..][i]));
      }
    }
  }

  lemma {:induction false} EscapeLength(s: string)
    ensures |Escape(s)| >= |s|
  {
    if s != [] {
      EscapeLength(s[1..]);
    }
  }

  // ---------------------------------------------------------- match terms

  /** One entry of `andExpr`; the regular expressions carry the escaped pattern and the `i` option. */
  datatype Term =
    | TitleLike(pattern: string)
    | InCategory(oid: string)
    | StockPositive
    | StockNonPositive
    | SaleBelowPrice
    | NoSaleBelowPrice
    | PriceAtLeast(min: int)
    | PriceAtMost(max: int)
    | YearIs(year: int)
    | AuthorLike(pattern: string)
    | PublisherLike(pattern: string)
    | LanguageIs(language: string)
    | CoverTypeIs(coverType: string)
    | VendorIs(vendor: string)
    | GradeIs(grade: string)

  /** What one condition demands of a document, as the database evaluates it. */
  predicate Holds(t: Term, d: Doc) {
    match t
    case TitleLike(p) => ContainsCI(d.title, Unescape(p))
    case InCategory(id) => d.categoryIds.Some? && id in d.categoryIds.value
    case StockPositive => d.stock > 0
    case StockNonPositive => d.stock <= 0
    case SaleBelowPrice => d.salePrice.Some? && d.salePrice.value < d.price
    case NoSaleBelowPrice => d.salePrice.None? || d.salePrice.value >= d.price
    case PriceAtLeast(n) => DocPrice(d) >= n
    case PriceAtMost(n) => DocPrice(d) <= n
    case YearIs(y) => AttrOf(d).year == Some(y)
    case AuthorLike(p) => AttrOf(d).author.Some? && ContainsCI(AttrOf(d).author.value, Unescape(p))
    case PublisherLike(p) => AttrOf(d).publisher.Some? && ContainsCI(AttrOf(d).publisher.value, Unescape(p))
    case LanguageIs(l) => AttrOf(d).language == Some(l)
    case CoverTypeIs(c) => AttrOf(d).coverType == Some(c)
    case VendorIs(v) => AttrOf(d).vendor == Some(v)
    case GradeIs(g) => AttrOf(d).grade == Some(g)
  }

  /** `{ $and: terms }`, and no stage at all for no terms: every term holds. */
  predicate AllHold(terms: seq<Term>, d: Doc) {
    forall i :: 0 <= i < |terms| ==> Holds(terms[i], d)
  }

  /** The category filter names a string `ObjectId` does not accept. */
  predicate InvalidCategory(query: Query, oid: string -> Option<string>) {
    Present(query.categoryId) && oid(query.categoryId.value).None?
  }

  /**
   * The `k`-th filter of the route, in the order of its checks, stated on
   * the document's fields: the title for a short `q`, the category, stock,
   * sale, the two inclusive bounds on the price charged, then the year and
   * the attribute filters.
   */
  predicate FilterOk(query: Query, oid: string -> Option<string>, k: nat, d: Doc) {
    var a := AttrOf(d);
    if k == 0 then Present(query.q) && !UseText(query) ==> ContainsCI(d.title, query.q.value)
    else if k == 1 then
      Present(query.categoryId) && oid(query.categoryId.value).Some? ==>
        d.categoryIds.Some? && oid(query.categoryId.value).value in d.categoryIds.value
    else if k == 2 then
      (query.inStock == Some(true) ==> d.stock > 0) && (query.inStock == Some(false) ==> d.stock <= 0)
    else if k == 3 then
      (query.onSale == Some(true) ==> d.salePrice.Some? && d.salePrice.value < d.price)
      && (query.onSale == Some(false) ==> !(d.salePrice.Some? && d.salePrice.value < d.price))
    else if k == 4 then query.priceMin.Some? ==> DocPrice(d) >= query.priceMin.value
    else if k == 5 then query.priceMax.Some? ==> DocPrice(d) <= query.priceMax.value
    else if k == 6 then query.year.Some? && query.year.value != 0 ==> a.year == query.year
    else if k == 7 then Present(query.author) ==> a.author.Some? && ContainsCI(a.author.value, query.author.value)
    else if k == 8 then
      Present(query.publisher) ==> a.publisher.Some? && ContainsCI(a.publisher.value, query.publisher.value)
    else if k == 9 then Present(query.language) ==> a.language == query.language
    else if k == 10 then Present(query.coverType) ==> a.coverType == query.coverType
    else if k == 11 then Present(query.vendor) ==> a.vendor == query.vendor
    else Present(query.grade) ==> a.grade == query.grade
  }

  const FilterCount: nat := 13

  /** The first `n` filters hold. */
  predicate FiltersHold(query: Query, oid: string -> Option<string>, d: Doc, n: nat) {
    n == 0 || (FiltersHold(query, oid, d, n - 1) && FilterOk(query, oid, n - 1, d))
  }

  /** The terms demand exactly the first `n` filters. */
  ghost predicate TermsFor(terms: seq<Term>, query: Query, oid: string -> Option<string>, n: nat) {
    forall d :: AllHold(terms, d) <==> FiltersHold(query, oid, d, n)
  }

  /** A document the route answers with: the text index accepts it for a long query, and every filter holds. */
  predicate Wanted(query: Query, oid: string -> Option<string>, textMatch: (Doc, string) -> bool, d: Doc) {
    (UseText(query) ==> textMatch(d, query.q.value)) && FiltersHold(query, oid, d, FilterCount)
  }

  /** A condition appended to `andExpr` is one more condition to meet. */
  lemma AllHoldSnoc(terms: seq<Term>, t: Term, d: Doc)
    ensures AllHold(terms + [t], d) <==> AllHold(terms, d) && Holds(t, d)
  {
    if AllHold(terms, d) && Holds(t, d) {
      forall i | 0 <= i < |terms + [t]| ensures Holds((terms + [t])[i], d) {
        if i < |terms| {
          assert (terms + [t])[i] == terms[i];
        }
      }
    }
    if AllHold(terms + [t], d) {
      assert (terms + [t])[|terms|] == t;
      forall i | 0 <= i < |terms| ensures Holds(terms[i], d) {
        assert (terms + [t])[i] == terms[i];
      }
    }
  }

  lemma PushTerm(terms: seq<Term>, t: Term, query: Query, oid: string -> Option<string>, n: nat)
    requires TermsFor(terms, query, oid, n)
    requires forall d :: Holds(t, d) <==> FilterOk(query, oid, n, d)
    ensures TermsFor(terms + [t], query, oid, n + 1)
  {
    forall d ensures AllHold(terms + [t], d) <==> FiltersHold(query, oid, d, n + 1) {
      AllHoldSnoc(terms, t, d);
    }
  }

  lemma SkipTerm(terms: seq<Term>, query: Query, oid: string -> Option<string>, n: nat)
    requires TermsFor(terms, query, oid, n)
    requires forall d :: FilterOk(query, oid, n, d)
    ensures TermsFor(terms, query, oid, n + 1)
  {
  }

  /** The regular expression filters: an escaped pattern matches the texts holding the raw one. */
  lemma LikeMeansContains(s: string, hay: string)
    ensures ContainsCI(hay, Unescape(Escape(s))) <==> ContainsCI(hay, s)
  {
    EscapeRoundTrip(s);
  }

  /**
   * Builds `andExpr` in the route's order; `None` is the early return for a
   * category id `ObjectId` rejects. The terms demand exactly the route's filters.
   */
  method BuildTerms(query: Query, oid: string -> Option<string>) returns (r: Option<seq<Term>>)
    ensures r.None? <==> InvalidCategory(query, oid)
    ensures r.Some? ==> forall d :: AllHold(r.value, d) <==> FiltersHold(query, oid, d, FilterCount)
  {
    var terms: seq<Term> := [];
    assert TermsFor(terms, query, oid, 0);
    if Present(query.q) && !UseText(query) {
      forall d ensures Holds(TitleLike(Escape(query.q.value)), d) <==> FilterOk(query, oid, 0, d) {
        LikeMeansContains(query.q.value, d.title);
      }
      PushTerm(terms, TitleLike(Escape(query.q.value)), query, oid, 0);
      terms := terms + [TitleLike(Escape(query.q.value))];
    } else {
      SkipTerm(terms, query, oid, 0);
    }
    if Present(query.categoryId) {
      var id := oid(query.categoryId.value);
      if id.None? {
        return None;
      }
      PushTerm(terms, InCategory(id.value), query, oid, 1);
      terms := terms + [InCategory(id.value)];
    } else {
      SkipTerm(terms, query, oid, 1);
    }
    terms := PushStock(terms, query, oid);
    terms := PushPrice(terms, query, oid);
    terms := PushAttributes(terms, query, oid);
    return Some(terms);
  }

  /** The stock and sale filters. */
  method PushStock(terms0: seq<Term>, query: Query, oid: string -> Option<string>) returns (terms: seq<Term>)
    requires TermsFor(terms0, query, oid, 2)
    ensures TermsFor(terms, query, oid, 4)
  {
    terms := terms0;
    if query.inStock.Some? {
      var t := if query.inStock.value then StockPositive else StockNonPositive;
      PushTerm(terms, t, query, oid, 2);
      terms := terms + [t];
    } else {
      SkipTerm(terms, query, oid, 2);
    }
    if query.onSale.Some? {
      var t := if query.onSale.value then SaleBelowPrice else NoSaleBelowPrice;
      PushTerm(terms, t, query, oid, 3);
      terms := terms + [t];
    } else {
      SkipTerm(terms, query, oid, 3);
    }
  }

  /** The two price bounds, both inclusive, on the price charged. */
  method PushPrice(terms0: seq<Term>, query: Query, oid: string -> Option<string>) returns (terms: seq<Term>)
    requires TermsFor(terms0, query, oid, 4)
    ensures TermsFor(terms, query, oid, 6)
  {
    terms := terms0;
    if query.priceMin.Some? {
      PushTerm(terms, PriceAtLeast(query.priceMin.value), query, oid, 4);
      terms := terms + [PriceAtLeast(query.priceMin.value)];
    } else {
      SkipTerm(terms, query, oid, 4);
    }
    if query.priceMax.Some? {
      PushTerm(terms, PriceAtMost(query.priceMax.value), query, oid, 5);
      terms := terms + [PriceAtMost(query.priceMax.value)];
    } else {
      SkipTerm(terms, query, oid, 5);
    }
  }

  /** The year filter, then the author, publisher, language, cover, vendor and class filters. */
  method PushAttributes(terms0: seq<Term>, query: Query, oid: string -> Option<string>) returns (terms: seq<Term>)
    requires TermsFor(terms0, query, oid, 6)
    ensures TermsFor(terms, query, oid, FilterCount)
  {
    terms := terms0;
    if query.year.Some? && query.year.value != 0 {
      PushTerm(terms, YearIs(query.year.value), query, oid, 6);
      terms := terms + [YearIs(query.year.value)];
    } else {
      SkipTerm(terms, query, oid, 6);
    }
    terms := PushLikes(terms, query, oid);
    terms := PushEquals(terms, query, oid);
  }

  /** The author and publisher filters: a case-insensitive substring match. */
  method PushLikes(terms0: seq<Term>, query: Query, oid: string -> Option<string>) returns (terms: seq<Term>)
    requires TermsFor(terms0, query, oid, 7)
    ensures TermsFor(terms, query, oid, 9)
  {
    terms := terms0;
    if Present(query.author) {
      forall d ensures Holds(AuthorLike(Escape(query.author.value)), d) <==> FilterOk(query, oid, 7, d) {
        if AttrOf(d).author.Some? {
          LikeMeansContains(query.author.value, AttrOf(d).author.value);
        }
      }
      PushTerm(terms, AuthorLike(Escape(query.author.value)), query, oid, 7);
      terms := terms + [AuthorLike(Escape(query.author.value))];
    } else {
      SkipTerm(terms, query, oid, 7);
    }
    if Present(query.publisher) {
      forall d ensures Holds(PublisherLike(Escape(query.publisher.value)), d) <==> FilterOk(query, oid, 8, d) {
        if AttrOf(d).publisher.Some? {
          LikeMeansContains(query.publisher.value, AttrOf(d).publisher.value);
        }
      }
      PushTerm(terms, PublisherLike(Escape(query.publisher.value)), query, oid, 8);
      terms := terms + [PublisherLike(Escape(query.publisher.value))];
    } else {
      SkipTerm(terms, query, oid, 8);
    }
  }

  /** The attribute filters that compare for equality. */
  method PushEquals(terms0: seq<Term>, query: Query, oid: string -> Option<string>) returns (terms: seq<Term>)
    requires TermsFor(terms0, query, oid, 9)
    ensures TermsFor(terms, query, oid, FilterCount)
  {
    terms := terms0;
    if Present(query.language) {
      PushTerm(terms, LanguageIs(query.language.value), query, oid, 9);
      terms := terms + [LanguageIs(query.language.value)];
    } else {
      SkipTerm(terms, query, oid, 9);
    }
    if Present(query.coverType) {
      PushTerm(terms, CoverTypeIs(query.coverType.value), query, oid, 10);
      terms := terms + [CoverTypeIs(query.coverType.value)];
    } else {
      SkipTerm(terms, query, oid, 10);
    }
    if Present(query.vendor) {
      PushTerm(terms, VendorIs(query.vendor.value), query, oid, 11);
      terms := terms + [VendorIs(query.vendor.value)];
    } else {
      SkipTerm(terms, query, oid, 11);
    }
    if Present(query.grade) {
      PushTerm(terms, GradeIs(query.grade.value), query, oid, 12);
      terms := terms + [GradeIs(query.grade.value)];
    } else {
      SkipTerm(terms, query, oid, 12);
    }
  }

  // -------------------------------------------------------------- sorting

  datatype SortField = PriceAscending | PriceDescending | TitleAscending | TitleDescending | NewestId

  /** `sortStage`: relevance first when the text index is used, then one field. */
  datatype SortStage = SortStage(byScore: bool, field: SortField)

  method BuildSortStage(useText: bool, sort: Option<string>) returns (s: SortStage)
    ensures s.byScore == useText
    ensures s.field == PriceAscending <==> sort == Some("price-asc")
    ensures s.field == PriceDescending <==> sort == Some("price-desc")
    ensures s.field == TitleAscending <==> sort == Some("title-asc")
    ensures s.field == TitleDescending <==> sort == Some("title-desc")
    ensures s.field == NewestId <==> sort !in {Some("price-asc"), Some("price-desc"), Some("title-asc"), Some("title-desc")}
  {
    var field: SortField;
    if sort == Some("price-asc") {
      field := PriceAscending;
    } else if sort == Some("price-desc") {
      field := PriceDescending;
    } else if sort == Some("title-asc") {
      field := TitleAscending;
    } else if sort == Some("title-desc") {
      field := TitleDescending;
    } else {
      field := NewestId;
    }
    return SortStage(useText, field);
  }

  /** The order of the sort stage, a higher relevance score first. */
  function FieldLe(f: SortField): (Doc, Doc) -> bool {
    match f
    case PriceAscending => (a: Doc, b: Doc) => DocPrice(a) <= DocPrice(b)
    case PriceDescending => (a: Doc, b: Doc) => DocPrice(b) <= DocPrice(a)
    case TitleAscending => (a: Doc, b: Doc) => LexLe(a.title, b.title)
    case TitleDescending => (a: Doc, b: Doc) => LexLe(b.title, a.title)
    case NewestId => (a: Doc, b: Doc) => LexLe(b.id, a.id)
  }

  function StageLe(s: SortStage, score: Doc -> int): (Doc, Doc) -> bool {
    (a: Doc, b: Doc) =>
      if s.byScore && score(a) != score(b) then score(a) > score(b) else FieldLe(s.field)(a, b)
  }

  lemma FieldPreorder(f: SortField)
    ensures Total(FieldLe(f)) && Transitive(FieldLe(f))
  {
    var le := FieldLe(f);
    LexLeTotalOrder();
    match f
    case PriceAscending =>
    case PriceDescending =>
    case TitleAscending =>
      forall a: Doc, b: Doc ensures le(a, b) || le(b, a) { LexLeTotalAt(a.title, b.title); }
      forall a: Doc, b: Doc, c: Doc | le(a, b) && le(b, c) ensures le(a, c) {
        LexLeTransitiveAt(a.title, b.title, c.title);
      }
    case TitleDescending =>
      forall a: Doc, b: Doc ensures le(a, b) || le(b, a) { LexLeTotalAt(a.title, b.title); }
      forall a: Doc, b: Doc, c: Doc | le(a, b) && le(b, c) ensures le(a, c) {
        LexLeTransitiveAt(c.title, b.title, a.title);
      }
    case NewestId =>
      forall a: Doc, b: Doc ensures le(a, b) || le(b, a) { LexLeTotalAt(a.id, b.id); }
      forall a: Doc, b: Doc, c: Doc | le(a, b) && le(b, c) ensures le(a, c) {
        LexLeTransitiveAt(c.id, b.id, a.id);
      }
  }

  /** Relevance, then the field, is again a total preorder. */
  lemma StagePreorder(s: SortStage, score: Doc -> int)
    ensures Total(StageLe(s, score)) && Transitive(StageLe(s, score))
  {
    var le, fle := StageLe(s, score), FieldLe(s.field);
    FieldPreorder(s.field);
    forall a, b ensures le(a, b) || le(b, a) {
      assert fle(a, b) || fle(b, a);
    }
    forall a, b, c | le(a, b) && le(b, c) ensures le(a, c) {
      if !(s.byScore && (score(a) != score(b) || score(b) != score(c))) {
        assert fle(a, b) && fle(b, c);
      }
    }
  }

  // ------------------------------------------------------------- response

  /** One listed product: absent images, attributes and categories become empty ones. */
  datatype Item = Item(id: string, title: string, slug: string, sku: string, price: int,
                       salePrice: Option<int>, stock: int, images: seq<string>,
                       attributes: DocAttributes, categoryIds: seq<string>)

  function ItemOf(d: Doc): (r: Item)
    ensures r.id == d.id && r.title == d.title && r.price == d.price && r.salePrice == d.salePrice
    ensures d.images.Some? ==> r.images == d.images.value
    ensures d.images.None? ==> r.images == []
    ensures r.attributes == AttrOf(d)
    ensures d.categoryIds.None? ==> r.categoryIds == []
  {
    Item(d.id, d.title, d.slug, d.sku, d.price, d.salePrice, d.stock,
         if d.images.Some? then d.images.value else [],
         if d.attributes.Some? then d.attributes.value else NoAttributes,
         if d.categoryIds.Some? then d.categoryIds.value else [])
  }

  datatype Response = Listing(items: seq<Item>, page: int, perPage: int, total: int)

  /** `Math.max(1, page ?? 1)`. */
  function PageNumber(query: Query): int {
    Max(1, if query.page.Some? then query.page.value else 1)
  }

  /** `Math.max(1, Math.min(100, perPage ?? 12))`. */
  function PageSize(query: Query): int {
    Max(1, Min(100, if query.perPage.Some? then query.perPage.value else 12))
  }

  /** The answer's page and size: the page from 1, the size within 1..100, a requested size in range kept. */
  lemma PagingBounds(query: Query)
    ensures PageNumber(query) >= 1 && 1 <= PageSize(query) <= 100
    ensures query.page.Some? && query.page.value >= 1 ==> PageNumber(query) == query.page.value
    ensures query.perPage.Some? && 1 <= query.perPage.value <= 100 ==> PageSize(query) == query.perPage.value
    ensures query.page.None? ==> PageNumber(query) == 1
    ensures query.perPage.None? ==> PageSize(query) == 12
  {
  }

  /** The wanted documents in the order of the sort stage. */
  function Ordered(docs: seq<Doc>, query: Query, oid: string -> Option<string>,
                   textMatch: (Doc, string) -> bool, score: Doc -> int): seq<Doc>
  {
    SortBy(Filter(docs, (d: Doc) => Wanted(query, oid, textMatch, d)),
           StageLe(SortStage(UseText(query), RequestedField(query.sort)), score))
  }

  /** The field `sort` names; every other value, and none, is newest first. */
  function RequestedField(sort: Option<string>): SortField {
    if sort == Some("price-asc") then PriceAscending
    else if sort == Some("price-desc") then PriceDescending
    else if sort == Some("title-asc") then TitleAscending
    else if sort == Some("title-desc") then TitleDescending
    else NewestId
  }

  /**
   * The route: an invalid category id answers an empty first page with the
   * requested size as given (not clamped); otherwise the clamped page of the
   * wanted documents in sort order, and how many there are.
   */
  method Get(params: Params, oid: string -> Option<string>, textMatch: (Doc, string) -> bool,
             score: Doc -> int, docs: seq<Doc>) returns (r: Response)
    ensures var query := ParseQuery(params);
      InvalidCategory(query, oid) ==>
        r == Listing([], 1, if query.perPage.Some? then query.perPage.value else 12, 0)
    ensures var query := ParseQuery(params);
      !InvalidCategory(query, oid) ==>
        r.page == PageNumber(query) && r.perPage == PageSize(query)
        && r.total == |Filter(docs, (d: Doc) => Wanted(query, oid, textMatch, d))|
        && r.items == MapSeq(PageItems(Ordered(docs, query, oid, textMatch, score), r.page, r.perPage), ItemOf)
  {
    var query := ParseQuery(params);
    var terms := BuildTerms(query, oid);
    if terms.None? {
      return Listing([], 1, if query.perPage.Some? then query.perPage.value else 12, 0);
    }
    var stage := BuildSortStage(UseText(query), query.sort);
    assert stage == SortStage(UseText(query), RequestedField(query.sort));
    var pageNum := PageNumber(query);
    var per := PageSize(query);
    var ts := terms.value;
    var keep := (d: Doc) => (UseText(query) ==> textMatch(d, query.q.value)) && AllHold(ts, d);
    FilterCongruent(docs, keep, (d: Doc) => Wanted(query, oid, textMatch, d));
    var matched := Filter(docs, keep);
    var sorted := SortBy(matched, StageLe(stage, score));
    var items := MapSeq(PageItems(sorted, pageNum, per), ItemOf);
    return Listing(items, pageNum, per, |matched|);
  }

  // ------------------------------------------------------------ properties

  /** The listing is in the order of the sort stage. */
  lemma OrderedSorted(docs: seq<Doc>, query: Query, oid: string -> Option<string>,
                      textMatch: (Doc, string) -> bool, score: Doc -> int)
    ensures SortedBy(Ordered(docs, query, oid, textMatch, score),
                     StageLe(SortStage(UseText(query), RequestedField(query.sort)), score))
  {
    var s := SortStage(UseText(query), RequestedField(query.sort));
    StagePreorder(s, score);
    SortBySorted(Filter(docs, (d: Doc) => Wanted(query, oid, textMatch, d)), StageLe(s, score));
  }

  /** The listing holds exactly the wanted documents, each as often as stored. */
  lemma OrderedPermutation(docs: seq<Doc>, query: Query, oid: string -> Option<string>,
                           textMatch: (Doc, string) -> bool, score: Doc -> int)
    ensures multiset(Ordered(docs, query, oid, textMatch, score))
         == multiset(Filter(docs, (d: Doc) => Wanted(query, oid, textMatch, d)))
    ensures forall d :: d in Ordered(docs, query, oid, textMatch, score) <==> d in docs && Wanted(query, oid, textMatch, d)
  {
    SortByMembers(Filter(docs, (d: Doc) => Wanted(query, oid, textMatch, d)),
                  StageLe(SortStage(UseText(query), RequestedField(query.sort)), score));
  }

  /** Without any parameter every document is wanted, newest first. */
  lemma EmptyQueryWantsAll(oid: string -> Option<string>, textMatch: (Doc, string) -> bool, d: Doc)
    ensures Wanted(ParseQuery(map[]), oid, textMatch, d)
    ensures RequestedField(ParseQuery(map[]).sort) == NewestId && !UseText(ParseQuery(map[]))
  {
    var query := ParseQuery(map[]);
    assert query.q.None? && query.categoryId.None? && query.inStock.None? && query.onSale.None?;
    assert query.priceMin.None? && query.priceMax.None? && query.year.None?;
    assert query.author.None? && query.publisher.None? && query.language.None?;
    assert query.coverType.None? && query.vendor.None? && query.grade.None?;
    forall k: nat | k < FilterCount ensures FilterOk(query, oid, k, d) {
    }
    FiltersHoldAll(query, oid, d, FilterCount);
  }

  lemma {:induction false} FiltersHoldAll(query: Query, oid: string -> Option<string>, d: Doc, n: nat)
    requires forall k: nat :: k < n ==> FilterOk(query, oid, k, d)
    ensures FiltersHold(query, oid, d, n)
  {
    if n > 0 {
      FiltersHoldAll(query, oid, d, n - 1);
    }
  }

  /** A short query filters titles case-insensitively; a long one goes to the text index only. */
  lemma ShortQueryByTitle(query: Query, oid: string -> Option<string>, textMatch: (Doc, string) -> bool, d: Doc)
    requires Present(query.q) && |query.q.value| < 3
    requires Wanted(query, oid, textMatch, d)
    ensures ContainsCI(d.title, query.q.value)
  {
    var n := FilterCount;
    assert FiltersHold(query, oid, d, n);
    FiltersHoldEach(query, oid, d, n, 0);
  }

  lemma {:induction false} FiltersHoldEach(query: Query, oid: string -> Option<string>, d: Doc, n: nat, k: nat)
    requires FiltersHold(query, oid, d, n) && k < n
    ensures FilterOk(query, oid, k, d)
  {
    if k < n - 1 {
      FiltersHoldEach(query, oid, d, n - 1, k);
    }
  }

  /** A wanted document's price charged lies within the bounds given, both ends included. */
  lemma WantedWithinPrice(query: Query, oid: string -> Option<string>, textMatch: (Doc, string) -> bool, d: Doc)
    requires Wanted(query, oid, textMatch, d)
    ensures query.priceMin.Some? ==> DocPrice(d) >= query.priceMin.value
    ensures query.priceMax.Some? ==> DocPrice(d) <= query.priceMax.value
  {
    FiltersHoldEach(query, oid, d, FilterCount, 4);
    FiltersHoldEach(query, oid, d, FilterCount, 5);
  }

  /** The early return keeps the requested size even outside 1..100. */
  lemma ShortCircuitSizeUnclamped()
    ensures var query := ParseQuery(map["categoryId" := "x", "perPage" := "500"]);
      query.perPage == Some(500) && PageSize(query) == 100
  {
    assert AllDigits("500");
    assert "500"[..2] == "50" && "50"[..1] == "5" && "5"[..0] == "";
    assert DigitsValue("500") == 500;
    ParseDigits("500");
  }
}
