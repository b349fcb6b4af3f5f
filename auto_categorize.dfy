/**
 * The category script `scripts/auto-categorize.ts`: eleven category
 * definitions (eight subjects, three grade bands) each with a matcher over
 * a product; the loop that makes sure each category exists (creating it
 * only outside a dry run); the distribution analysis that counts every
 * match and keeps a few sample titles; and, outside a dry run, the loop
 * that writes each product's matching category ids.
 *
 * The database is replaced by inputs and outputs: the products as loaded,
 * the ids of categories that already exist, the ids new categories would
 * get, and the list of writes. A category is identified by its position in
 * the definition list (its slug is unique, so this is the same key).
 * `String(attributes.subject || "")` is the product's `subject` and
 * `Number(attributes.class)` its `classNum` (`None` is NaN).
 */
module AutoCategorize {
  import opened Common

  const CategoryCount: int := 11
  const CategorySampleCap: int := 2
  const UncategorizedSampleCap: int := 5

  datatype Product = Product(id: string, title: string, subject: string, classNum: Option<int>)

  datatype CategoryDef = CategoryDef(name: string, slug: string, order: int)

  /** The definition at position `k` of the list. */
  function Definition(k: int): CategoryDef
    requires 0 <= k < CategoryCount
  {
    match k
    case 0 => CategoryDef("Українська мова та література", "ukrainian-language", 1)
    case 1 => CategoryDef("Математика", "mathematics", 2)
    case 2 => CategoryDef("Іноземні мови", "foreign-languages", 3)
    case 3 => CategoryDef("Природничі науки", "natural-sciences", 4)
    case 4 => CategoryDef("Інформатика", "computer-science", 5)
    case 5 => CategoryDef("Географія", "geography", 6)
    case 6 => CategoryDef("Історія", "history", 7)
    case 7 => CategoryDef("Інші предмети", "other-subjects", 8)
    case 8 => CategoryDef("1-4 класи", "grades-1-4", 10)
    case 9 => CategoryDef("5-9 класи", "grades-5-9", 11)
    case _ => CategoryDef("10-11 класи", "grades-10-11", 12)
  }

  // ------------------------------------------------------------ subject matchers

  predicate Ukrainian(p: Product) {
    var s := Lower(p.subject);
    var t := Lower(p.title);
    Contains(s, "українська мова") || Contains(s, "українська література")
    || Contains(s, "українська мова та читання") || Contains(s, "літературне читання")
    || Contains(t, "українська мова") || Contains(t, "української мови")
    || Contains(t, "літературне читання") || Contains(t, "буквар")
  }

  predicate Mathematics(p: Product) {
    var s := Lower(p.subject);
    var t := Lower(p.title);
    Contains(s, "математика") || Contains(s, "алгебра") || Contains(s, "геометрія")
    || Contains(t, "математика") || Contains(t, "алгебра") || Contains(t, "геометрія")
  }

  predicate ForeignLanguages(p: Product) {
    var s := Lower(p.subject);
    var t := Lower(p.title);
    Contains(s, "англійська") || Contains(s, "німецька") || Contains(s, "французька")
    || Contains(t, "english") || Contains(t, "deutsch")
  }

  predicate NaturalSciences(p: Product) {
    var s := Lower(p.subject);
    var t := Lower(p.title);
    Contains(s, "я досліджую світ") || Contains(s, "природознавство") || Contains(s, "біологія")
    || Contains(s, "хімія") || Contains(s, "фізика")
    || Contains(t, "я досліджую світ") || Contains(t, "біологія") || Contains(t, "хімія")
    || Contains(t, "фізика")
  }

  predicate ComputerScience(p: Product) {
    Contains(Lower(p.subject), "інформатика")
  }

  predicate Geography(p: Product) {
    Contains(Lower(p.subject), "географія")
  }

  predicate History(p: Product) {
    Contains(Lower(p.subject), "історія")
  }

  predicate OtherSubjects(p: Product) {
    var s := Lower(p.subject);
    var t := Lower(p.title);
    Contains(s, "основи здоров") || Contains(s, "образотворче мистецтво")
    || Contains(s, "музичне мистецтво") || Contains(s, "трудове навчання")
    || Contains(s, "фізична культура") || Contains(s, "правознавство")
    || Contains(s, "економіка") || Contains(s, "етика")
    || Contains(t, "фізична культура") || Contains(t, "основи здоров")
  }

  // ------------------------------------------------------------ grade matchers

  /** A regex word character (`\w`): ASCII letters, digits and `_`. */
  predicate WordChar(c: char) {
    IsAsciiLower(c) || IsAsciiUpper(c) || IsAsciiDigit(c) || c == '_'
  }

  /** `\b` before a word character at `i`: the start, or a non-word character before it. */
  predicate BoundaryAt(s: string, i: int) {
    i == 0 || (0 < i <= |s| && !WordChar(s[i - 1]))
  }

  /** `\s*клас` matches from index `j` (on the lower-cased title, as the `i` flag does). */
  predicate SpacesThenClass(s: string, j: int)
    decreases |s| - j
  {
    0 <= j <= |s| && (OccursAt(s, "клас", j) || (j < |s| && IsJsSpace(s[j]) && SpacesThenClass(s, j + 1)))
  }

  /** `/\b[lo-hi]\s*клас/i` matches with its digit at `i`. */
  predicate DigitMarkAt(s: string, i: int, lo: char, hi: char) {
    0 <= i < |s| && BoundaryAt(s, i) && lo <= s[i] <= hi && SpacesThenClass(s, i + 1)
  }

  /** `/\b(10|11)\s*клас/i` matches with its number at `i`. */
  predicate SeniorMarkAt(s: string, i: int) {
    0 <= i && i + 2 <= |s| && BoundaryAt(s, i) && s[i] == '1' && (s[i + 1] == '0' || s[i + 1] == '1')
    && SpacesThenClass(s, i + 2)
  }

  predicate ClassBetween(p: Product, lo: int, hi: int) {
    p.classNum.Some? && lo <= p.classNum.value <= hi
  }

  predicate Grades1To4(p: Product) {
    var t := Lower(p.title);
    ClassBetween(p, 1, 4)
    || (exists i | 0 <= i < |t| :: DigitMarkAt(t, i, '1', '4'))
    || Contains(t, "початков")
    || Contains(t, "нуш 1") || Contains(t, "нуш 2") || Contains(t, "нуш 3") || Contains(t, "нуш 4")
  }

  predicate Grades5To9(p: Product) {
    var t := Lower(p.title);
    ClassBetween(p, 5, 9) || exists i | 0 <= i < |t| :: DigitMarkAt(t, i, '5', '9')
  }

  predicate Grades10To11(p: Product) {
    var t := Lower(p.title);
    ClassBetween(p, 10, 11) || exists i | 0 <= i < |t| :: SeniorMarkAt(t, i)
  }

  /** The matcher of definition `k`. */
  predicate Matches(k: int, p: Product) {
    match k
    case 0 => Ukrainian(p)
    case 1 => Mathematics(p)
    case 2 => ForeignLanguages(p)
    case 3 => NaturalSciences(p)
    case 4 => ComputerScience(p)
    case 5 => Geography(p)
    case 6 => History(p)
    case 7 => OtherSubjects(p)
    case 8 => Grades1To4(p)
    case 9 => Grades5To9(p)
    case 10 => Grades10To11(p)
    case _ => false
  }

  predicate AnyMatch(p: Product) {
    exists k | 0 <= k < CategoryCount :: Matches(k, p)
  }

  function Matcher(k: int): Product -> bool {
    p => Matches(k, p)
  }

  function Unmatched(): Product -> bool {
    p => !AnyMatch(p)
  }

  /** A numeric class attribute decides the grade band on its own. */
  lemma GradeByAttribute(p: Product)
    requires p.classNum.Some?
    ensures 1 <= p.classNum.value <= 4 ==> Matches(8, p)
    ensures 5 <= p.classNum.value <= 9 ==> Matches(9, p)
    ensures 10 <= p.classNum.value <= 11 ==> Matches(10, p)
  {
  }

  /** "11 клас" names only the senior band by title: the digit `1` after a digit is not at a word boundary. */
  lemma SeniorTitleNotPrimary(t: string, i: int)
    requires 0 <= i && i + 2 <= |t| && t[i..i + 2] == "11"
    ensures !DigitMarkAt(t, i + 1, '1', '4')
  {
  }

  // ------------------------------------------------------------ analysis

  /** `count`: how many of `ps` the matcher accepts, counted as the loop does. */
  function Tally(ps: seq<Product>, m: Product -> bool): nat {
    if ps == [] then 0
    else Tally(ps[..|ps| - 1], m) + (if m(ps[|ps| - 1]) then 1 else 0)
  }

  /** `samples`: titles pushed while fewer than `cap` are held. */
  function Sampled(ps: seq<Product>, m: Product -> bool, cap: int): seq<string> {
    if ps == [] then []
    else
      var s := Sampled(ps[..|ps| - 1], m, cap);
      if m(ps[|ps| - 1]) && |s| < cap then s + [ps[|ps| - 1].title] else s
  }

  function Title(p: Product): string { p.title }

  function Take<T>(s: seq<T>, n: nat): (r: seq<T>)
    ensures |r| == (if |s| <= n then |s| else n) && r == s[..|r|]
    ensures |s| <= n ==> r == s
  {
    if |s| <= n then s else s[..n]
  }

  /** The count is the number of accepted products. */
  lemma {:induction false} TallyCounts(ps: seq<Product>, m: Product -> bool)
    ensures Tally(ps, m) == |Filter(ps, m)|
  {
    if ps != [] {
      var init := ps[..|ps| - 1];
      TallyCounts(init, m);
      assert init + [ps[|ps| - 1]] == ps;
      FilterAppend(init, ps[|ps| - 1], m);
    }
  }

  lemma MapSeqAppendOne<A, B>(xs: seq<A>, x: A, g: A -> B)
    ensures MapSeq(xs + [x], g) == MapSeq(xs, g) + [g(x)]
  {
    assert (xs + [x])[..|xs|] == xs;
  }

  lemma TakeAppendOne<T>(l: seq<T>, x: T, cap: nat)
    ensures Take(l + [x], cap) == if |l| < cap then Take(l, cap) + [x] else Take(l, cap)
  {
    if |l| >= cap {
      assert (l + [x])[..cap] == l[..cap];
    }
  }

  lemma SamplesStep(init: seq<Product>, x: Product, m: Product -> bool, cap: nat)
    requires Sampled(init, m, cap) == Take(MapSeq(Filter(init, m), Title), cap)
    ensures Sampled(init + [x], m, cap) == Take(MapSeq(Filter(init + [x], m), Title), cap)
  {
    var ps := init + [x];
    assert ps[..|init|] == init && ps[|ps| - 1] == x;
    var s := Sampled(init, m, cap);
    assert Sampled(ps, m, cap) == if m(x) && |s| < cap then s + [x.title] else s;
    FilterAppend(init, x, m);
    var l := MapSeq(Filter(init, m), Title);
    if m(x) {
      MapSeqAppendOne(Filter(init, m), x, Title);
      TakeAppendOne(l, x.title, cap);
      assert |s| < cap <==> |l| < cap;
    }
  }

  /** The samples are the titles of the first `cap` accepted products, in product order. */
  lemma {:induction false} SamplesAreFirstMatches(ps: seq<Product>, m: Product -> bool, cap: nat)
    ensures Sampled(ps, m, cap) == Take(MapSeq(Filter(ps, m), Title), cap)
  {
    if ps != [] {
      var init, x := ps[..|ps| - 1], ps[|ps| - 1];
      SamplesAreFirstMatches(init, m, cap);
      SamplesStep(init, x, m, cap);
      assert init + [x] == ps;
    }
  }

  /** What the analysis reports. */
  datatype Analysis = Analysis(counts: seq<nat>, samples: seq<seq<string>>,
                               uncategorized: nat, uncategorizedSamples: seq<string>)

  function AnalysisOf(ps: seq<Product>): Analysis {
    Analysis(seq(CategoryCount, k => Tally(ps, Matcher(k))),
             seq(CategoryCount, k => Sampled(ps, Matcher(k), CategorySampleCap)),
             Tally(ps, Unmatched()), Sampled(ps, Unmatched(), UncategorizedSampleCap))
  }

  lemma TallyStep(ps: seq<Product>, i: int, m: Product -> bool)
    requires 0 <= i < |ps|
    ensures Tally(ps[..i + 1], m) == Tally(ps[..i], m) + (if m(ps[i]) then 1 else 0)
    ensures var s := Sampled(ps[..i], m, CategorySampleCap);
      Sampled(ps[..i + 1], m, CategorySampleCap) == if m(ps[i]) && |s| < CategorySampleCap then s + [ps[i].title] else s
    ensures var s := Sampled(ps[..i], m, UncategorizedSampleCap);
      Sampled(ps[..i + 1], m, UncategorizedSampleCap) == if m(ps[i]) && |s| < UncategorizedSampleCap then s + [ps[i].title] else s
  {
    assert ps[..i + 1][..i] == ps[..i];
  }

  /** The inner loop over the definitions for one product. */
  method TallyProduct(counts: seq<nat>, samples: seq<seq<string>>, p: Product)
    returns (counts': seq<nat>, samples': seq<seq<string>>, hasCategory: bool)
    requires |counts| == CategoryCount && |samples| == CategoryCount
    ensures |counts'| == CategoryCount && |samples'| == CategoryCount
    ensures forall k :: 0 <= k < CategoryCount ==> counts'[k] == counts[k] + (if Matches(k, p) then 1 else 0)
    ensures forall k :: 0 <= k < CategoryCount ==>
      samples'[k] == if Matches(k, p) && |samples[k]| < CategorySampleCap then samples[k] + [p.title] else samples[k]
    ensures hasCategory == AnyMatch(p)
  {
    counts', samples', hasCategory := counts, samples, false;
    for k := 0 to CategoryCount
      invariant |counts'| == CategoryCount && |samples'| == CategoryCount
      invariant forall j :: 0 <= j < k ==> counts'[j] == counts[j] + (if Matches(j, p) then 1 else 0)
      invariant forall j :: k <= j < CategoryCount ==> counts'[j] == counts[j] && samples'[j] == samples[j]
      invariant forall j :: 0 <= j < k ==>
        samples'[j] == if Matches(j, p) && |samples[j]| < CategorySampleCap then samples[j] + [p.title] else samples[j]
      invariant hasCategory <==> exists j | 0 <= j < k :: Matches(j, p)
    {
      if Matches(k, p) {
        hasCategory := true;
        counts' := counts'[k := counts'[k] + 1];
        if |samples'[k]| < CategorySampleCap {
          samples' := samples'[k := samples'[k] + [p.title]];
        }
      }
    }
  }

  /** The distribution analysis over all products. */
  method Analyze(products: seq<Product>) returns (a: Analysis)
    ensures a == AnalysisOf(products)
  {
    var counts: seq<nat> := seq(CategoryCount, _ => 0);
    var samples: seq<seq<string>> := seq(CategoryCount, _ => []);
    var uncategorized: nat := 0;
    var uncategorizedSamples: seq<string> := [];
    for i := 0 to |products|
      invariant |counts| == CategoryCount && |samples| == CategoryCount
      invariant forall k :: 0 <= k < CategoryCount ==>
        counts[k] == Tally(products[..i], Matcher(k)) && samples[k] == Sampled(products[..i], Matcher(k), CategorySampleCap)
      invariant uncategorized == Tally(products[..i], Unmatched())
      invariant uncategorizedSamples == Sampled(products[..i], Unmatched(), UncategorizedSampleCap)
    {
      var p := products[i];
      var hasCategory;
      counts, samples, hasCategory := TallyProduct(counts, samples, p);
      forall k | 0 <= k < CategoryCount
        ensures counts[k] == Tally(products[..i + 1], Matcher(k))
        ensures samples[k] == Sampled(products[..i + 1], Matcher(k), CategorySampleCap)
      {
        TallyStep(products, i, Matcher(k));
      }
      TallyStep(products, i, Unmatched());
      if !hasCategory {
        uncategorized := uncategorized + 1;
        if |uncategorizedSamples| < UncategorizedSampleCap {
          uncategorizedSamples := uncategorizedSamples + [p.title];
        }
      }
    }
    assert products[..|products|] == products;
    a := Analysis(counts, samples, uncategorized, uncategorizedSamples);
  }

  /**
   * A product is counted once in every category that accepts it, so it can
   * count in several; it is uncategorised exactly when none accepts it.
   */
  lemma CountedInEveryMatch(ps: seq<Product>, p: Product)
    ensures forall k :: 0 <= k < CategoryCount ==>
      Tally(ps + [p], Matcher(k)) == Tally(ps, Matcher(k)) + (if Matches(k, p) then 1 else 0)
    ensures Tally(ps + [p], Unmatched()) == Tally(ps, Unmatched()) + (if AnyMatch(p) then 0 else 1)
  {
    assert (ps + [p])[..|ps|] == ps;
  }

  // ------------------------------------------------------------ categories

  /** The ids in `categoryMap` after the first `n` definitions were checked. */
  function CategoryMapOf(existing: map<int, string>, dryRun: bool, freshIds: seq<string>, n: int): (m: map<int, string>)
    requires 0 <= n <= CategoryCount && |freshIds| == CategoryCount
    ensures forall k :: k in m <==> 0 <= k < n && (k in existing || !dryRun)
    ensures forall k :: k in m ==> m[k] == if k in existing then existing[k] else freshIds[k]
  {
    if n == 0 then map[]
    else
      var m := CategoryMapOf(existing, dryRun, freshIds, n - 1);
      var k := n - 1;
      if k in existing then m[k := existing[k]]
      else if dryRun then m
      else m[k := freshIds[k]]
  }

  /** The categories created for the first `n` definitions. */
  function CreatedOf(existing: map<int, string>, dryRun: bool, n: int): seq<CategoryDef>
    requires 0 <= n <= CategoryCount
  {
    if n == 0 then []
    else CreatedOf(existing, dryRun, n - 1) + (if n - 1 !in existing && !dryRun then [Definition(n - 1)] else [])
  }

  /** A dry run creates nothing, so only categories that already exist get an id. */
  lemma {:induction false} DryRunCreatesNothing(existing: map<int, string>, freshIds: seq<string>, n: int)
    requires 0 <= n <= CategoryCount && |freshIds| == CategoryCount
    ensures CreatedOf(existing, true, n) == []
    ensures CategoryMapOf(existing, true, freshIds, n).Keys <= existing.Keys
  {
    if n > 0 {
      DryRunCreatesNothing(existing, freshIds, n - 1);
    }
  }

  /** Checking definition `k` adds at most its own id and its own category. */
  lemma BuildStep(existing: map<int, string>, dryRun: bool, freshIds: seq<string>, k: int)
    requires 0 <= k < CategoryCount && |freshIds| == CategoryCount
    ensures CategoryMapOf(existing, dryRun, freshIds, k + 1)
            == if k in existing then CategoryMapOf(existing, dryRun, freshIds, k)[k := existing[k]]
               else if dryRun then CategoryMapOf(existing, dryRun, freshIds, k)
               else CategoryMapOf(existing, dryRun, freshIds, k)[k := freshIds[k]]
    ensures CreatedOf(existing, dryRun, k + 1)
            == CreatedOf(existing, dryRun, k) + if k !in existing && !dryRun then [Definition(k)] else []
  {
  }

  /** The loop over the definitions that finds or creates each category. */
  method BuildCategoryMap(existing: map<int, string>, dryRun: bool, freshIds: seq<string>)
    returns (categoryMap: map<int, string>, created: seq<CategoryDef>)
    requires |freshIds| == CategoryCount
    ensures categoryMap == CategoryMapOf(existing, dryRun, freshIds, CategoryCount)
    ensures created == CreatedOf(existing, dryRun, CategoryCount)
  {
    categoryMap, created := map[], [];
    for k := 0 to CategoryCount
      invariant categoryMap == CategoryMapOf(existing, dryRun, freshIds, k)
      invariant created == CreatedOf(existing, dryRun, k)
    {
      BuildStep(existing, dryRun, freshIds, k);
      if k in existing {
        categoryMap := categoryMap[k := existing[k]];
      } else if !dryRun {
        created := created + [Definition(k)];
        categoryMap := categoryMap[k := freshIds[k]];
      }
    }
  }

  // ------------------------------------------------------------ applying

  /** `categoryIds` after the first `n` definitions. */
  function CategoryIds(p: Product, categoryMap: map<int, string>, n: int): seq<string>
    requires 0 <= n <= CategoryCount
  {
    if n == 0 then []
    else CategoryIds(p, categoryMap, n - 1)
         + (if Matches(n - 1, p) && n - 1 in categoryMap then [categoryMap[n - 1]] else [])
  }

  function Range(n: nat): (r: seq<int>)
    ensures |r| == n && forall i :: 0 <= i < n ==> r[i] == i
  {
    if n == 0 then [] else Range(n - 1) + [n - 1]
  }

  /**
   * The ids written are those of the matching categories that have an id,
   * in definition order.
   */
  lemma IdsStep(p: Product, categoryMap: map<int, string>, n: int)
    requires 0 < n <= CategoryCount
    requires CategoryIds(p, categoryMap, n - 1)
             == MapSeq(Filter(Range(n - 1), k => Matches(k, p) && k in categoryMap),
                       k => if k in categoryMap then categoryMap[k] else "")
    ensures CategoryIds(p, categoryMap, n)
            == MapSeq(Filter(Range(n), k => Matches(k, p) && k in categoryMap),
                      k => if k in categoryMap then categoryMap[k] else "")
  {
    var keep := (k: int) => Matches(k, p) && k in categoryMap;
    var id := (k: int) => if k in categoryMap then categoryMap[k] else "";
    FilterAppend(Range(n - 1), n - 1, keep);
    if keep(n - 1) {
      MapSeqAppendOne(Filter(Range(n - 1), keep), n - 1, id);
    }
  }

  /**
   * The ids written are those of the matching categories that have an id,
   * in definition order.
   */
  lemma {:induction false} IdsInDefinitionOrder(p: Product, categoryMap: map<int, string>, n: int)
    requires 0 <= n <= CategoryCount
    ensures CategoryIds(p, categoryMap, n)
            == MapSeq(Filter(Range(n), k => Matches(k, p) && k in categoryMap),
                      k => if k in categoryMap then categoryMap[k] else "")
  {
    if n > 0 {
      IdsInDefinitionOrder(p, categoryMap, n - 1);
      IdsStep(p, categoryMap, n);
    }
  }

  /** A product gets ids exactly when some matching category has one. */
  lemma {:induction false} IdsNonEmptyIff(p: Product, categoryMap: map<int, string>, n: int)
    requires 0 <= n <= CategoryCount
    ensures |CategoryIds(p, categoryMap, n)| > 0 <==> exists k | 0 <= k < n :: Matches(k, p) && k in categoryMap
  {
    if n > 0 {
      IdsNonEmptyIff(p, categoryMap, n - 1);
      var last := Matches(n - 1, p) && n - 1 in categoryMap;
      assert |CategoryIds(p, categoryMap, n)| == |CategoryIds(p, categoryMap, n - 1)| + if last then 1 else 0;
      if !last {
        assert (exists k | 0 <= k < n :: Matches(k, p) && k in categoryMap)
               ==> exists k | 0 <= k < n - 1 :: Matches(k, p) && k in categoryMap;
      }
    }
  }

  method ProductCategoryIds(p: Product, categoryMap: map<int, string>) returns (ids: seq<string>)
    ensures ids == CategoryIds(p, categoryMap, CategoryCount)
  {
    ids := [];
    for k := 0 to CategoryCount
      invariant ids == CategoryIds(p, categoryMap, k)
    {
      if Matches(k, p) && k in categoryMap {
        ids := ids + [categoryMap[k]];
      }
    }
  }

  /** The writes `updateOne({_id}, {$set: {categoryIds}})`, in product order. */
  function Updates(ps: seq<Product>, categoryMap: map<int, string>): seq<(string, seq<string>)> {
    if ps == [] then []
    else
      var ids := CategoryIds(ps[|ps| - 1], categoryMap, CategoryCount);
      Updates(ps[..|ps| - 1], categoryMap) + (if |ids| > 0 then [(ps[|ps| - 1].id, ids)] else [])
  }

  /** The apply loop; `updated` is its counter. */
  method Apply(products: seq<Product>, categoryMap: map<int, string>)
    returns (writes: seq<(string, seq<string>)>, updated: nat)
    ensures writes == Updates(products, categoryMap) && updated == |writes|
  {
    writes, updated := [], 0;
    for i := 0 to |products|
      invariant writes == Updates(products[..i], categoryMap) && updated == |writes|
    {
      assert products[..i + 1][..i] == products[..i];
      var ids := ProductCategoryIds(products[i], categoryMap);
      if |ids| > 0 {
        writes := writes + [(products[i].id, ids)];
        updated := updated + 1;
      }
    }
    assert products[..|products|] == products;
  }

  /**
   * There are never more writes than products, and a product id is written
   * exactly when a loaded product with that id has a matching category
   * with an id.
   */
  lemma {:induction false} UpdatesIff(ps: seq<Product>, categoryMap: map<int, string>, p: Product)
    ensures |Updates(ps, categoryMap)| <= |ps|
    ensures (exists w :: w in Updates(ps, categoryMap) && w.0 == p.id) <==>
      exists q :: q in ps && q.id == p.id && |CategoryIds(q, categoryMap, CategoryCount)| > 0
  {
    if ps != [] {
      var init := ps[..|ps| - 1];
      var last := ps[|ps| - 1];
      UpdatesIff(init, categoryMap, p);
      var ids := CategoryIds(last, categoryMap, CategoryCount);
      var tail := if |ids| > 0 then [(last.id, ids)] else [];
      assert Updates(ps, categoryMap) == Updates(init, categoryMap) + tail;
      assert ps == init + [last];
      if w :| w in Updates(ps, categoryMap) && w.0 == p.id {
        if w in Updates(init, categoryMap) {
          var q :| q in init && q.id == p.id && |CategoryIds(q, categoryMap, CategoryCount)| > 0;
          assert q in ps;
        } else {
          assert last in ps;
        }
      }
      if q :| q in ps && q.id == p.id && |CategoryIds(q, categoryMap, CategoryCount)| > 0 {
        if q in init {
          var w :| w in Updates(init, categoryMap) && w.0 == p.id;
          assert w in Updates(ps, categoryMap);
        } else {
          assert q == last;
          assert (last.id, ids) in Updates(ps, categoryMap);
        }
      }
    }
  }

  // ------------------------------------------------------------ the script

  /** `!process.argv.includes("--apply")`. */
  function DryRunFromArgv(argv: seq<string>): (dryRun: bool)
    ensures dryRun <==> forall i :: 0 <= i < |argv| ==> argv[i] != "--apply"
  {
    "--apply" !in argv
  }

  datatype Report = Report(created: seq<CategoryDef>, analysis: Analysis, writes: seq<(string, seq<string>)>)

  /** `autoCategorize(dryRun)`. */
  method Run(products: seq<Product>, existing: map<int, string>, freshIds: seq<string>, dryRun: bool)
    returns (report: Report)
    requires |freshIds| == CategoryCount
    ensures report.analysis == AnalysisOf(products)
    ensures report.created == CreatedOf(existing, dryRun, CategoryCount)
    ensures dryRun ==> report.created == [] && report.writes == []
    ensures !dryRun ==> report.writes == Updates(products, CategoryMapOf(existing, false, freshIds, CategoryCount))
  {
    var categoryMap, created := BuildCategoryMap(existing, dryRun, freshIds);
    var analysis := Analyze(products);
    var writes: seq<(string, seq<string>)> := [];
    if !dryRun {
      var updated;
      writes, updated := Apply(products, categoryMap);
    } else {
      DryRunCreatesNothing(existing, freshIds, CategoryCount);
    }
    report := Report(created, analysis, writes);
  }
}
