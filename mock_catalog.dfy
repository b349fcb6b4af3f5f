/**
 * The in-memory catalog (`src/mocks/catalog.ts`): the seed categories and
 * products, the generator that adds three variants per class and subject,
 * `listProducts` (filter, sort, page) and `findProductBySlug`.
 */
module MockCatalog {
  import opened Common
  import opened Sorting
  import opened CatalogTypes

  // ------------------------------------------------------------ seed data

  function SeedCategories(): seq<Category> {
    [Category("c1", "Підручники", "pidruchnyky", None),
     Category("c2", "1 клас", "1-klas", Some("c1")),
     Category("c3", "2 клас", "2-klas", Some("c1")),
     Category("c4", "Математика", "matematika", None),
     Category("c5", "Українська мова", "ukrainska-mova", None)]
  }

  function SeedProducts(): seq<Product> {
    [Product("p1", "Математика 1 клас", "matematika-1-klas", "MAT-1-2024", 250, Some(220), 42,
             ["https://picsum.photos/seed/math-1-1-1/800/800", "https://picsum.photos/seed/math-1-1-2/800/800",
              "https://picsum.photos/seed/math-1-1-3/800/800"],
             Attributes(Some("1"), Some("math"), Some("Іваненко"), Some("Освіта")), ["c1", "c2", "c4"]),
     Product("p2", "Українська мова 2 клас", "ukr-mova-2-klas", "UKR-2-2024", 230, None, 10,
             ["https://picsum.photos/seed/ukr-2-1-1/800/800", "https://picsum.photos/seed/ukr-2-1-2/800/800",
              "https://picsum.photos/seed/ukr-2-1-3/800/800"],
             Attributes(Some("2"), Some("ukr"), Some("Петренко"), Some("Школа")), ["c1", "c3", "c5"])]
  }

  /** The generator's two subjects: key, display name, upper-cased key and category. */
  datatype Subject = Subject(key: string, name: string, upper: string, catId: string)

  function Subjects(): seq<Subject> {
    [Subject("math", "Математика", "MATH", "c4"), Subject("ukr", "Українська мова", "UKR", "c5")]
  }

  /** `String(n)` for the small numbers the generator formats. */
  function Str(n: nat): string { NatToString(n) }

  /** The product the generator makes for class `cls`, subject `s`, variant `v`, numbered `counter`. */
  function Generated(cls: nat, s: Subject, v: nat, counter: nat): Product {
    var price := 180 + cls * 10 + v * 5;
    var seed := "https://picsum.photos/seed/" + s.key + "-" + Str(cls) + "-" + Str(v) + "-";
    Product("p" + Str(counter),
            s.name + " " + Str(cls) + " клас " + Str(v),
            s.key + "-" + Str(cls) + "-klas-" + Str(v),
            s.upper + "-" + Str(cls) + "-2024-" + Str(v),
            price,
            if v % 3 == 0 then None else Some(price - 15),
            5 + (cls * 7 + v * 3) % 50,
            [seed + "1/800/800", seed + "2/800/800", seed + "3/800/800"],
            Attributes(Some(Str(cls)), Some(s.key),
                       Some(if cls % 2 == 1 then "Іваненко" else "Петренко"),
                       Some(if v % 2 == 1 then "Освіта" else "Школа")),
            ["c1", s.catId] + (if cls == 1 then ["c2"] else if cls == 2 then ["c3"] else []))
  }

  /** The `n`-th generated product: classes outermost, then subjects, then variants. */
  function GeneratedAt(n: nat): Product
    requires n < 36
  {
    Generated(n / 6 + 1, Subjects()[(n % 6) / 3], n % 3 + 1, n + 3)
  }

  /** The first `k` generated products, in generation order. */
  function GeneratedUpTo(k: nat): seq<Product>
    requires k <= 36
  {
    seq(k, (n: nat) requires n < 36 => GeneratedAt(n))
  }

  /**
   * The generator: for classes 1 to 6, each subject and variants 1 to 3,
   * one product is pushed after the seed products (the catalog's two),
   * numbered from 3; so 36 are added and the `n`-th generated one follows
   * the seed at `n`.
   */
  method GenerateProducts(seed: seq<Product>) returns (products: seq<Product>)
    ensures |products| == |seed| + 36 && products[..|seed|] == seed
    ensures forall n :: 0 <= n < 36 ==> products[|seed| + n] == GeneratedAt(n)
  {
    products := seed;
    var subjects := Subjects();
    var counter := 3;
    var cls := 1;
    while cls <= 6
      invariant 1 <= cls <= 7 && counter == 3 + (cls - 1) * 6
      invariant products == seed + GeneratedUpTo(counter - 3)
    {
      var si := 0;
      while si < |subjects|
        invariant 0 <= si <= 2 && counter == 3 + (cls - 1) * 6 + si * 3
        invariant products == seed + GeneratedUpTo(counter - 3)
      {
        var s := subjects[si];
        var v := 1;
        while v <= 3
          invariant 1 <= v <= 4 && counter == 3 + (cls - 1) * 6 + si * 3 + (v - 1)
          invariant products == seed + GeneratedUpTo(counter - 3)
        {
          var p := Generated(cls, s, v, counter);
          GeneratedStep(counter, cls, s, si, v);
          AppendAssoc(seed, GeneratedUpTo(counter - 3), p);
          products := products + [p];
          counter := counter + 1;
          v := v + 1;
        }
        si := si + 1;
      }
      cls := cls + 1;
    }
    SeededPositions(seed, counter - 3);
  }

  /** In the seed followed by the first `k` generated products, the `n`-th generated one follows the seed at `n`. */
  lemma SeededPositions(seed: seq<Product>, k: nat)
    requires k <= 36
    ensures |seed + GeneratedUpTo(k)| == |seed| + k
    ensures (seed + GeneratedUpTo(k))[..|seed|] == seed
    ensures forall n :: 0 <= n < k ==> (seed + GeneratedUpTo(k))[|seed| + n] == GeneratedAt(n)
  {
    forall n | 0 <= n < k ensures (seed + GeneratedUpTo(k))[|seed| + n] == GeneratedAt(n) {
      assert (seed + GeneratedUpTo(k))[|seed| + n] == GeneratedUpTo(k)[n];
    }
  }

  /** The product made at class `c + 1`, subject `si`, variant `v + 1` is the one at its position. */
  lemma GeneratedAtParts(k: nat, c: nat, si: nat, v: nat)
    requires c < 6 && si < 2 && v < 3 && k == c * 6 + si * 3 + v
    ensures GeneratedAt(k) == Generated(c + 1, Subjects()[si], v + 1, k + 3)
  {
    IndexParts(c, si, v);
    assert k / 6 + 1 == c + 1 && (k % 6) / 3 == si && k % 3 + 1 == v + 1;
  }

  /** Generating the product numbered `counter`, of class `cls`, subject `s`, variant `v`, extends those before it. */
  lemma GeneratedStep(counter: nat, cls: nat, s: Subject, si: nat, v: nat)
    requires 1 <= cls <= 6 && si < 2 && 1 <= v <= 3 && s == Subjects()[si]
    requires counter == 3 + (cls - 1) * 6 + si * 3 + (v - 1)
    ensures GeneratedUpTo(counter + 1 - 3) == GeneratedUpTo(counter - 3) + [Generated(cls, s, v, counter)]
  {
    var k := counter - 3;
    GeneratedUpToSnoc(k);
    GeneratedAtParts(k, cls - 1, si, v - 1);
    assert k + 3 == counter && cls - 1 + 1 == cls && v - 1 + 1 == v;
  }

  /** The first `k + 1` generated products are the first `k` and the `k`-th. */
  lemma GeneratedUpToSnoc(k: nat)
    requires k < 36
    ensures GeneratedUpTo(k + 1) == GeneratedUpTo(k) + [GeneratedAt(k)]
  {
    var a, b := GeneratedUpTo(k + 1), GeneratedUpTo(k) + [GeneratedAt(k)];
    assert |a| == |b|;
    forall n | 0 <= n < k + 1 ensures a[n] == b[n] {
      assert a[n] == GeneratedAt(n);
      if n < k {
        assert b[n] == GeneratedUpTo(k)[n] == GeneratedAt(n);
      }
    }
  }

  lemma AppendAssoc(a: seq<Product>, b: seq<Product>, p: Product)
    ensures a + b + [p] == a + (b + [p])
  {
  }

  /** The generator's counter tells back its class, subject and variant. */
  lemma IndexParts(c: nat, s: nat, v: nat)
    requires c < 6 && s < 2 && v < 3
    ensures var n := c * 6 + s * 3 + v; n / 6 == c && (n % 6) / 3 == s && n % 3 == v
  {
    var n := c * 6 + s * 3 + v;
    assert n == 6 * c + (s * 3 + v) && 0 <= s * 3 + v < 6;
    assert n == 3 * (2 * c + s) + v;
  }

  /**
   * Every generated product is in stock, at a price between 195 and 255,
   * and on sale (15 off) exactly when its variant is not the third.
   */
  lemma GeneratedShape(n: nat)
    requires n < 36
    ensures var p := GeneratedAt(n);
      p.stock >= 5 && 195 <= p.price <= 255
      && (OnSale(p) <==> n % 3 != 2)
      && (OnSale(p) ==> p.salePrice.value == p.price - 15)
      && "c1" in p.categoryIds
  {
    var p := GeneratedAt(n);
    assert p.categoryIds[0] == "c1";
  }

  // ------------------------------------------------------------ listProducts

  datatype SortKey = PriceAsc | PriceDesc | TitleAsc | TitleDesc | Newest

  /** `ProductFilters`; `None` where the field is absent. */
  datatype Filters = Filters(q: Option<string>, categoryId: Option<string>, page: Option<int>,
                             perPage: Option<int>, priceMin: Option<int>, priceMax: Option<int>,
                             inStock: Option<bool>, onSale: Option<bool>, sort: Option<SortKey>)

  function PageOf(f: Filters): int { if f.page.Some? then f.page.value else 1 }
  function PerPageOf(f: Filters): int { if f.perPage.Some? then f.perPage.value else 12 }
  function SortOf(f: Filters): SortKey { if f.sort.Some? then f.sort.value else Newest }

  /** The text search: the lower-cased title, author or publisher contains the lower-cased query. */
  predicate MatchesText(p: Product, qw: string) {
    Contains(Lower(p.title), qw)
    || (p.attributes.author.Some? && Contains(Lower(p.attributes.author.value), qw))
    || (p.attributes.publisher.Some? && Contains(Lower(p.attributes.publisher.value), qw))
  }

  /**
   * The `k`-th filter of `listProducts`, in its order, as a test that passes
   * everything when that filter is not set: a non-empty `q`, a non-empty
   * `categoryId`, inclusive bounds on the effective price, and `true` stock
   * and sale flags.
   */
  predicate Keep(f: Filters, k: nat, p: Product) {
    match k
      case 0 => f.q.Some? && f.q.value != "" ==> MatchesText(p, Lower(f.q.value))
      case 1 => f.categoryId.Some? && f.categoryId.value != "" ==> f.categoryId.value in p.categoryIds
      case 2 => f.priceMin.Some? ==> EffectivePrice(p) >= f.priceMin.value
      case 3 => f.priceMax.Some? ==> EffectivePrice(p) <= f.priceMax.value
      case 4 => f.inStock == Some(true) ==> p.stock > 0
      case 5 => f.onSale == Some(true) ==> OnSale(p)
      case _ => true
  }

  /** The first `n` filters all pass. */
  predicate KeepFirst(f: Filters, n: nat, p: Product) {
    n == 0 || (KeepFirst(f, n - 1, p) && Keep(f, n - 1, p))
  }

  function Stage(f: Filters, n: nat): Product -> bool {
    (p: Product) => KeepFirst(f, n, p)
  }

  /** What a product needs to be listed. */
  predicate Matches(f: Filters, p: Product) {
    (f.q.Some? && f.q.value != "" ==> MatchesText(p, Lower(f.q.value)))
    && (f.categoryId.Some? && f.categoryId.value != "" ==> f.categoryId.value in p.categoryIds)
    && (f.priceMin.Some? ==> EffectivePrice(p) >= f.priceMin.value)
    && (f.priceMax.Some? ==> EffectivePrice(p) <= f.priceMax.value)
    && (f.inStock == Some(true) ==> p.stock > 0)
    && (f.onSale == Some(true) ==> OnSale(p))
  }

  lemma AllStagesMatch(f: Filters, p: Product)
    ensures KeepFirst(f, 6, p) == Matches(f, p)
  {
    assert KeepFirst(f, 6, p) == (KeepFirst(f, 4, p) && Keep(f, 4, p) && Keep(f, 5, p));
    assert KeepFirst(f, 4, p) == (KeepFirst(f, 2, p) && Keep(f, 2, p) && Keep(f, 3, p));
    assert KeepFirst(f, 2, p) == (KeepFirst(f, 1, p) && Keep(f, 1, p));
    assert KeepFirst(f, 1, p) == Keep(f, 0, p);
  }

  /** The comparator `list.sort` is given, as "may stay before". */
  function Comparator(k: SortKey): (Product, Product) -> bool {
    match k
      case PriceAsc => (a: Product, b: Product) => EffectivePrice(a) <= EffectivePrice(b)
      case PriceDesc => (a: Product, b: Product) => EffectivePrice(b) <= EffectivePrice(a)
      case TitleAsc => (a: Product, b: Product) => LexLe(a.title, b.title)
      case TitleDesc => (a: Product, b: Product) => LexLe(b.title, a.title)
      case Newest => (a: Product, b: Product) => LexLe(b.id, a.id)
  }

  /** The listed products in order, before paging. */
  function Listed(products: seq<Product>, f: Filters): seq<Product> {
    SortBy(Filter(products, (p: Product) => Matches(f, p)), Comparator(SortOf(f)))
  }

  /** The `k`-th filter alone, as a test. */
  function Only(f: Filters, k: nat): Product -> bool {
    (p: Product) => Keep(f, k, p)
  }

  /** The products left after the first `n` filters, each applied to what the previous left. */
  function Narrowed(products: seq<Product>, f: Filters, n: nat): seq<Product> {
    if n == 0 then products else Filter(Narrowed(products, f, n - 1), Only(f, n - 1))
  }

  /**
   * One filter step of `listProducts`: when the `k`-th filter is set,
   * `list = list.filter(test)` with that filter's test; otherwise the list stays.
   */
  method Narrow(list: seq<Product>, f: Filters, k: nat) returns (r: seq<Product>)
    requires k < 6
    ensures r == Filter(list, Only(f, k))
  {
    var active: bool, test: Product -> bool;
    if k == 0 {
      var qw := if f.q.Some? then Lower(f.q.value) else "";
      active, test := f.q.Some? && f.q.value != "", (p: Product) => MatchesText(p, qw);
    } else if k == 1 {
      var c := if f.categoryId.Some? then f.categoryId.value else "";
      active, test := c != "", (p: Product) => c in p.categoryIds;
    } else if k == 2 {
      var lo := if f.priceMin.Some? then f.priceMin.value else 0;
      active, test := f.priceMin.Some?, (p: Product) => EffectivePrice(p) >= lo;
    } else if k == 3 {
      var hi := if f.priceMax.Some? then f.priceMax.value else 0;
      active, test := f.priceMax.Some?, (p: Product) => EffectivePrice(p) <= hi;
    } else if k == 4 {
      active, test := f.inStock == Some(true), (p: Product) => p.stock > 0;
    } else {
      active, test := f.onSale == Some(true), (p: Product) => OnSale(p);
    }
    if active {
      r := Filter(list, test);
      FilterCongruent(list, test, Only(f, k));
    } else {
      r := list;
      FilterAll(list, Only(f, k));
    }
  }

  /** `listProducts`: filters a copy one filter at a time, sorts it, and takes the page. */
  method ListProducts(products: seq<Product>, f: Filters) returns (r: Paginated<Product>)
    ensures r.page == PageOf(f) && r.perPage == PerPageOf(f)
    ensures r.total == |Listed(products, f)|
    ensures r.items == PageItems(Listed(products, f), PageOf(f), PerPageOf(f))
  {
    var page := PageOf(f);
    var perPage := PerPageOf(f);
    var sort := SortOf(f);
    var list := products;
    list := Narrow(list, f, 0);
    assert list == Narrowed(products, f, 1);
    list := Narrow(list, f, 1);
    assert list == Narrowed(products, f, 2);
    list := Narrow(list, f, 2);
    assert list == Narrowed(products, f, 3);
    list := Narrow(list, f, 3);
    assert list == Narrowed(products, f, 4);
    list := Narrow(list, f, 4);
    assert list == Narrowed(products, f, 5);
    list := Narrow(list, f, 5);
    assert list == Narrowed(products, f, 6);
    NarrowedMatches(products, f);
    list := SortBy(list, Comparator(sort));
    assert list == Listed(products, f);
    var total := |list|;
    var items := PageItems(list, page, perPage);
    return Paginated(items, page, perPage, total);
  }

  /** After the `n` first filters, exactly those products remain that pass all `n`, in catalog order. */
  lemma {:induction false} NarrowedStage(products: seq<Product>, f: Filters, n: nat)
    ensures Narrowed(products, f, n) == Filter(products, Stage(f, n))
  {
    if n == 0 {
      FilterAll(products, Stage(f, 0));
    } else {
      NarrowedStage(products, f, n - 1);
      FilterFilter(products, Stage(f, n - 1), Only(f, n - 1), Stage(f, n));
    }
  }

  /** The six filters together keep the matching products. */
  lemma NarrowedMatches(products: seq<Product>, f: Filters)
    ensures Narrowed(products, f, 6) == Filter(products, (p: Product) => Matches(f, p))
  {
    NarrowedStage(products, f, 6);
    forall p | p in products ensures Stage(f, 6)(p) == Matches(f, p) {
      AllStagesMatch(f, p);
    }
    FilterCongruent(products, Stage(f, 6), (p: Product) => Matches(f, p));
  }

  // ------------------------------------------------------------ what a listing means

  /** Exactly the matching products are listed. */
  lemma ListedMembers(products: seq<Product>, f: Filters, p: Product)
    ensures p in Listed(products, f) <==> p in products && Matches(f, p)
  {
    SortByMembers(Filter(products, (x: Product) => Matches(f, x)), Comparator(SortOf(f)));
  }

  /** Each product is listed as often as it occurs in the catalog, when it matches. */
  lemma ListedPermutation(products: seq<Product>, f: Filters)
    ensures multiset(Listed(products, f)) == multiset(Filter(products, (x: Product) => Matches(f, x)))
  {
  }

  /** Each comparator orders the listing totally and transitively. */
  lemma ComparatorPreorder(k: SortKey)
    ensures Total(Comparator(k)) && Transitive(Comparator(k))
  {
    var le := Comparator(k);
    LexLeTotalOrder();
    match k
    case PriceAsc =>
    case PriceDesc =>
    case TitleAsc =>
      forall a: Product, b: Product ensures le(a, b) || le(b, a) { LexLeTotalAt(a.title, b.title); }
      forall a: Product, b: Product, c: Product | le(a, b) && le(b, c) ensures le(a, c) {
        LexLeTransitiveAt(a.title, b.title, c.title);
      }
    case TitleDesc =>
      forall a: Product, b: Product ensures le(a, b) || le(b, a) { LexLeTotalAt(a.title, b.title); }
      forall a: Product, b: Product, c: Product | le(a, b) && le(b, c) ensures le(a, c) {
        LexLeTransitiveAt(c.title, b.title, a.title);
      }
    case Newest =>
      forall a: Product, b: Product ensures le(a, b) || le(b, a) { LexLeTotalAt(a.id, b.id); }
      forall a: Product, b: Product, c: Product | le(a, b) && le(b, c) ensures le(a, c) {
        LexLeTransitiveAt(c.id, b.id, a.id);
      }
  }

  /** The listing is in the order the sort key asks for. */
  lemma ListedSorted(products: seq<Product>, f: Filters)
    ensures SortedBy(Listed(products, f), Comparator(SortOf(f)))
  {
    ComparatorPreorder(SortOf(f));
    SortBySorted(Filter(products, (x: Product) => Matches(f, x)), Comparator(SortOf(f)));
  }

  /** With no filters set, everything is listed, twelve to a page, first page first. */
  lemma DefaultListing(products: seq<Product>, p: Product)
    ensures var f := Filters(None, None, None, None, None, None, None, None, None);
      PageOf(f) == 1 && PerPageOf(f) == 12 && SortOf(f) == Newest
      && (p in Listed(products, f) <==> p in products)
  {
    ListedMembers(products, Filters(None, None, None, None, None, None, None, None, None), p);
  }

  /** `false` flags filter nothing, as absent ones do. */
  lemma FalseFlagsFilterNothing(f: Filters, p: Product)
    ensures Matches(f.(inStock := Some(false), onSale := Some(false)), p)
        == Matches(f.(inStock := None, onSale := None), p)
  {
  }

  /**
   * "Newest" compares ids as text, so "p9" comes before "p10"
   * and "p4" before "p38".
   */
  lemma NewestIsTextual()
    ensures LexLe("p10", "p9") && !LexLe("p9", "p10")
    ensures LexLe("p38", "p4") && !LexLe("p4", "p38")
  {
    assert "p10"[1..] == "10" && "p9"[1..] == "9";
    assert "p38"[1..] == "38" && "p4"[1..] == "4";
  }

  // ------------------------------------------------------------ findProductBySlug

  /** `products.find(p => p.slug === slug)`. */
  function FindBySlug(products: seq<Product>, slug: string): (r: Option<Product>)
    ensures r.Some? ==> r.value in products && r.value.slug == slug
    ensures r.None? <==> forall p :: p in products ==> p.slug != slug
  {
    if products == [] then None
    else if products[0].slug == slug then Some(products[0])
    else FindBySlug(products[1..], slug)
  }

  /** The product found is the first with that slug. */
  lemma {:induction false} FindBySlugFirst(products: seq<Product>, slug: string, i: nat)
    requires i < |products| && products[i].slug == slug
    ensures FindBySlug(products, slug).Some?
    ensures exists j :: 0 <= j <= i && FindBySlug(products, slug) == Some(products[j])
                     && forall k :: 0 <= k < j ==> products[k].slug != slug
  {
    if products[0].slug != slug {
      FindBySlugFirst(products[1..], slug, i - 1);
      var j :| 0 <= j <= i - 1 && FindBySlug(products[1..], slug) == Some(products[1..][j])
        && forall k :: 0 <= k < j ==> products[1..][k].slug != slug;
      assert FindBySlug(products, slug) == Some(products[j + 1]);
      forall k | 0 <= k < j + 1 ensures products[k].slug != slug {
        if k > 0 { assert products[k] == products[1..][k - 1]; }
      }
    } else {
      assert FindBySlug(products, slug) == Some(products[0]);
    }
  }
}
