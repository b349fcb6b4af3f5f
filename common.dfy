/**
 * Shared vocabulary of the model: optional values, JSON-like values, and the
 * string and number helpers that the JavaScript and Python sources get from
 * their standard libraries (lower-casing, trimming, substring search,
 * `Number()`/`String()` on integers, `Array.prototype.slice`).
 */
module Common {

  datatype Option<T> = None | Some(value: T)

  /** A JSON value as it arrives in a request body or a log context. */
  datatype Json =
    | JNull
    | JBool(b: bool)
    | JNum(n: int)
    | JStr(s: string)
    | JArr(elems: seq<Json>)
    | JObj(fields: seq<(string, Json)>)

  /** JavaScript truthiness of a JSON value. */
  predicate Truthy(j: Json) {
    match j
    case JNull => false
    case JBool(b) => b
    case JNum(n) => n != 0
    case JStr(s) => s != ""
    case _ => true
  }

  /** Truthiness of an optional string (`undefined`, `null` and `""` are falsy). */
  predicate Present(s: Option<string>) {
    s.Some? && s.value != ""
  }

  // ------------------------------------------------------- JSON conversions

  /** `String(v)` for a JSON value. */
  function JsString(j: Json): string
    decreases j
  {
    match j
    case JNull => "null"
    case JBool(b) => if b then "true" else "false"
    case JNum(n) => IntToString(n)
    case JStr(s) => s
    case JArr(es) => Join(seq(|es|, (i: int) requires 0 <= i < |es| => if es[i].JNull? then "" else JsString(es[i])), ",")
    case JObj(_) => "[object Object]"
  }

  /** `Number(v)` for a JSON value holding a whole number; `None` is NaN (and every array or object). */
  function JsNumber(j: Json): Option<int> {
    match j
    case JNull => Some(0)
    case JBool(b) => Some(if b then 1 else 0)
    case JNum(n) => Some(n)
    case JStr(s) => ParseInt(s)
    case _ => None
  }

  /** A request body's fields by name. */
  type JsonBody = map<string, Json>

  /** `body[k]`, `None` when the field is absent. */
  function JsonField(body: JsonBody, k: string): Option<Json> {
    if k in body then Some(body[k]) else None
  }

  /** `v == null`: absent or `null`. */
  predicate Nullish(v: Option<Json>) {
    v.None? || v.value.JNull?
  }

  predicate TruthyField(v: Option<Json>) {
    v.Some? && Truthy(v.value)
  }

  // ---------------------------------------------------------------- characters

  predicate IsAsciiDigit(c: char) { '0' <= c <= '9' }
  predicate IsAsciiLower(c: char) { 'a' <= c <= 'z' }
  predicate IsAsciiUpper(c: char) { 'A' <= c <= 'Z' }

  /** Upper-case letters whose lower-case form the model knows: Latin and Cyrillic. */
  predicate IsUpperChar(c: char) {
    IsAsciiUpper(c) || ('Ѐ' <= c <= 'Я') || c == 'Ґ'
  }

  predicate IsLowerChar(c: char) {
    IsAsciiLower(c) || ('а' <= c <= 'џ') || c == 'ґ'
  }

  /** Lower-case mapping of one character (Latin and Cyrillic; identity elsewhere). */
  function LowerChar(c: char): (r: char)
    ensures !IsUpperChar(c) ==> r == c
    ensures IsUpperChar(c) ==> IsLowerChar(r)
  {
    if IsAsciiUpper(c) then (c as int + 32) as char
    else if 'А' <= c <= 'Я' then (c as int + 0x20) as char
    else if 'Ѐ' <= c <= 'Џ' then (c as int + 0x50) as char
    else if c == 'Ґ' then 'ґ'
    else c
  }

  /** `String.prototype.toLowerCase` / `str.lower()`, character by character. */
  function Lower(s: string): (r: string)
    ensures |r| == |s|
    ensures forall i :: 0 <= i < |s| ==> r[i] == LowerChar(s[i])
  {
    if s == [] then [] else [LowerChar(s[0])] + Lower(s[1..])
  }

  /** ECMAScript white space and line terminators: the set `\s` and `trim()` use. */
  predicate IsJsSpace(c: char) {
    c == '\t' || c == '\n' || c == '\U{000B}' || c == '\U{000C}' || c == '\r' || c == ' '
    || c == '\U{00A0}' || c == '\U{1680}' || ('\U{2000}' <= c <= '\U{200A}')
    || c == '\U{2028}' || c == '\U{2029}' || c == '\U{202F}' || c == '\U{205F}'
    || c == '\U{3000}' || c == '\U{FEFF}'
  }

  /** ECMAScript line terminators: the characters a regex `.` does not match. */
  predicate IsLineTerminator(c: char) {
    c == '\n' || c == '\r' || c == '\U{2028}' || c == '\U{2029}'
  }

  // ---------------------------------------------------------------- strings

  predicate StartsWith(s: string, p: string) {
    |p| <= |s| && s[..|p|] == p
  }

  /** `hay.includes(needle)`. */
  predicate Contains(hay: string, needle: string)
    decreases |hay|
  {
    StartsWith(hay, needle) || (|hay| > 0 && Contains(hay[1..], needle))
  }

  /** The needle occurs in the haystack starting at index `i`. */
  predicate OccursAt(hay: string, needle: string, i: int) {
    0 <= i && i + |needle| <= |hay| && hay[i..i + |needle|] == needle
  }

  /** `Contains` holds exactly when the needle occurs at some index. */
  lemma {:induction false} ContainsIff(hay: string, needle: string)
    ensures Contains(hay, needle) <==> exists i :: OccursAt(hay, needle, i)
    decreases |hay|
  {
    if StartsWith(hay, needle) {
      assert OccursAt(hay, needle, 0);
    } else if |hay| > 0 {
      ContainsIff(hay[1..], needle);
      if Contains(hay[1..], needle) {
        var i :| OccursAt(hay[1..], needle, i);
        assert hay[1..][i..i + |needle|] == hay[i + 1..i + 1 + |needle|];
        assert OccursAt(hay, needle, i + 1);
      }
      if i :| OccursAt(hay, needle, i) {
        if i == 0 {
          assert false;
        } else {
          assert hay[1..][i - 1..i - 1 + |needle|] == hay[i..i + |needle|];
          assert OccursAt(hay[1..], needle, i - 1);
        }
      }
    } else {
      if i :| OccursAt(hay, needle, i) {
        assert false;
      }
    }
  }

  /** A string found in `hay` is found in anything that surrounds `hay`. */
  lemma ContainsWithin(pre: string, hay: string, post: string, needle: string)
    requires Contains(hay, needle)
    ensures Contains(pre + hay + post, needle)
  {
    ContainsIff(hay, needle);
    var i :| OccursAt(hay, needle, i);
    assert (pre + hay + post)[|pre| + i..|pre| + i + |needle|] == hay[i..i + |needle|];
    assert OccursAt(pre + hay + post, needle, |pre| + i);
    ContainsIff(pre + hay + post, needle);
  }

  /** The pieces one after the other. */
  function Concat(parts: seq<string>): string {
    if parts == [] then "" else Concat(parts[..|parts| - 1]) + parts[|parts| - 1]
  }

  lemma ConcatSnoc(parts: seq<string>, x: string)
    ensures Concat(parts + [x]) == Concat(parts) + x
  {
    assert (parts + [x])[..|parts|] == parts;
  }

  /** The concatenation contains each of its pieces. */
  lemma {:induction false} ConcatHas(parts: seq<string>, i: int)
    requires 0 <= i < |parts|
    ensures Contains(Concat(parts), parts[i])
  {
    var init := parts[..|parts| - 1];
    if i == |parts| - 1 {
      assert StartsWith(parts[i], parts[i]);
      assert Contains(parts[i], parts[i]);
      ContainsWithin(Concat(init), parts[i], "", parts[i]);
      assert Concat(init) + parts[i] + "" == Concat(parts);
    } else {
      ConcatHas(init, i);
      assert init[i] == parts[i];
      ContainsWithin("", Concat(init), parts[|parts| - 1], parts[i]);
      assert "" + Concat(init) + parts[|parts| - 1] == Concat(parts);
    }
  }

  /** A needle with a character the haystack lacks is not found in it. */
  lemma MissingCharNotContained(hay: string, needle: string, c: char)
    requires c in needle && c !in hay
    ensures !Contains(hay, needle)
  {
    ContainsIff(hay, needle);
    var k :| 0 <= k < |needle| && needle[k] == c;
    forall i | 0 <= i && i + |needle| <= |hay| ensures !OccursAt(hay, needle, i) {
      assert hay[i + k] in hay;
      assert hay[i..i + |needle|][k] == hay[i + k];
    }
  }

  /** Every string contains the empty string. */
  lemma ContainsEmpty(hay: string)
    ensures Contains(hay, "")
  {
    assert StartsWith(hay, "");
  }

  /** Case-insensitive `includes`, as both sides are lower-cased by the source. */
  predicate ContainsCI(hay: string, needle: string) {
    Contains(Lower(hay), Lower(needle))
  }

  function TrimStart(s: string): (r: string)
    ensures |r| <= |s| && r == s[|s| - |r|..]
    ensures r == [] || !IsJsSpace(r[0])
    ensures forall i :: 0 <= i < |s| - |r| ==> IsJsSpace(s[i])
  {
    if s != [] && IsJsSpace(s[0]) then TrimStart(s[1..]) else s
  }

  function TrimEnd(s: string): (r: string)
    ensures |r| <= |s| && r == s[..|r|]
    ensures r == [] || !IsJsSpace(r[|r| - 1])
    ensures forall i :: |r| <= i < |s| ==> IsJsSpace(s[i])
  {
    if s != [] && IsJsSpace(s[|s| - 1]) then TrimEnd(s[..|s| - 1]) else s
  }

  /** `String.prototype.trim`. */
  function Trim(s: string): (r: string)
    ensures r == [] || (!IsJsSpace(r[0]) && !IsJsSpace(r[|r| - 1]))
  {
    TrimEnd(TrimStart(s))
  }

  /** A string trims to "" exactly when every character is white space. */
  lemma TrimEmptyIff(s: string)
    ensures Trim(s) == "" <==> forall i :: 0 <= i < |s| ==> IsJsSpace(s[i])
  {
    var t := TrimStart(s);
    if t == [] {
      assert TrimEnd(t) == [];
    } else {
      assert TrimEnd(t) != [];
      assert s[|s| - |t|] == t[0];
    }
  }

  /** `!s.trim()`: the string is empty or white space only. */
  predicate Blank(s: string) {
    s == [] || (IsJsSpace(s[0]) && Blank(s[1..]))
  }

  lemma {:induction false} BlankIff(s: string)
    ensures Blank(s) <==> Trim(s) == ""
  {
    TrimEmptyIff(s);
    BlankAll(s);
  }

  lemma {:induction false} BlankAll(s: string)
    ensures Blank(s) <==> forall i :: 0 <= i < |s| ==> IsJsSpace(s[i])
  {
    if s != [] {
      BlankAll(s[1..]);
      assert forall i :: 1 <= i < |s| ==> s[i] == s[1..][i - 1];
    }
  }

  /** `parts.join(sep)`. */
  function Join(parts: seq<string>, sep: string): string {
    if parts == [] then ""
    else if |parts| == 1 then parts[0]
    else parts[0] + sep + Join(parts[1..], sep)
  }

  /** `s.replace(/\\/g, '/')`: every backslash becomes a forward slash. */
  function SlashNormalize(s: string): (r: string)
    ensures |r| == |s|
    ensures forall i :: 0 <= i < |s| ==> r[i] == (if s[i] == '\\' then '/' else s[i])
  {
    if s == [] then [] else [if s[0] == '\\' then '/' else s[0]] + SlashNormalize(s[1..])
  }

  // ---------------------------------------------------------------- integers

  function DigitChar(d: int): char
    requires 0 <= d < 10
  {
    ("0123456789")[d]
  }

  function NatToString(n: nat): string
    decreases n
  {
    if n < 10 then [DigitChar(n)] else NatToString(n / 10) + [DigitChar(n % 10)]
  }

  /** `String(n)` writes at least one digit and nothing else. */
  lemma {:induction false} NatToStringDigits(n: nat)
    ensures NatToString(n) != [] && AllDigits(NatToString(n))
    decreases n
  {
    if n >= 10 {
      NatToStringDigits(n / 10);
      var r := NatToString(n);
      assert r == NatToString(n / 10) + [DigitChar(n % 10)];
    }
  }

  /** `s.padStart(n, c)`: `c` repeated in front of `s` up to length `n`. */
  function PadStart(s: string, n: nat, c: char): (r: string)
    ensures |r| == if |s| >= n then |s| else n
    ensures r[|r| - |s|..] == s
    ensures forall i :: 0 <= i < |r| - |s| ==> r[i] == c
  {
    if |s| >= n then s else seq(n - |s|, _ => c) + s
  }

  /** `String(n)` for an integer. */
  function IntToString(n: int): string {
    if n < 0 then "-" + NatToString(-n) else NatToString(n)
  }

  function DigitsValue(s: string): nat
    requires forall i :: 0 <= i < |s| ==> IsAsciiDigit(s[i])
  {
    if s == [] then 0
    else
      assert IsAsciiDigit(s[|s| - 1]);
      DigitsValue(s[..|s| - 1]) * 10 + (s[|s| - 1] as int - '0' as int)
  }

  predicate AllDigits(s: string) {
    forall i :: 0 <= i < |s| ==> IsAsciiDigit(s[i])
  }

  /**
   * `Number(s)` restricted to integer numerals: surrounding white space is
   * ignored, the empty string is 0, an optional sign precedes the digits.
   * `None` stands for every other outcome (NaN, fractions, exponents).
   */
  function ParseInt(s: string): Option<int> {
    ParseTrimmed(Trim(s))
  }

  /** `Number` on a string with no surrounding white space. */
  function ParseTrimmed(t: string): Option<int> {
    if t == "" then Some(0)
    else if t[0] == '-' && |t| > 1 && AllDigits(t[1..]) then Some(-(DigitsValue(t[1..]) as int))
    else if t[0] == '+' && |t| > 1 && AllDigits(t[1..]) then Some(DigitsValue(t[1..]))
    else if AllDigits(t) then Some(DigitsValue(t))
    else None
  }

  lemma {:induction false} NatToStringValue(n: nat)
    ensures NatToString(n) != [] && AllDigits(NatToString(n)) && DigitsValue(NatToString(n)) == n
    decreases n
  {
    NatToStringDigits(n);
    if n >= 10 {
      NatToStringValue(n / 10);
      var r := NatToString(n);
      assert r[..|r| - 1] == NatToString(n / 10);
    }
  }

  /** A string with no white space at either end is its own trim. */
  lemma TrimNoSpace(s: string)
    requires s != [] && !IsJsSpace(s[0]) && !IsJsSpace(s[|s| - 1])
    ensures Trim(s) == s
  {
    assert TrimStart(s) == s;
  }

  /** Reading back what `String(n)` wrote yields `n`. */
  lemma ParseIntToString(n: int)
    ensures ParseInt(IntToString(n)) == Some(n)
  {
    var m: nat := if n < 0 then -n else n;
    NatToStringValue(m);
    if n < 0 {
      ParseNegatedDigits(NatToString(m));
    } else {
      ParseDigits(NatToString(m));
    }
  }

  /** A run of digits reads as its value. */
  lemma ParseDigits(s: string)
    requires s != [] && AllDigits(s)
    ensures ParseInt(s) == Some(DigitsValue(s))
  {
    assert IsAsciiDigit(s[0]) && IsAsciiDigit(s[|s| - 1]);
    TrimNoSpace(s);
    assert ParseInt(s) == ParseTrimmed(s);
  }

  /** A minus sign before a run of digits reads as the negated value. */
  lemma ParseNegatedDigits(s: string)
    requires s != [] && AllDigits(s)
    ensures ParseInt("-" + s) == Some(-(DigitsValue(s) as int))
  {
    var t := "-" + s;
    assert t[0] == '-' && t[1..] == s && t[|t| - 1] == s[|s| - 1];
    assert IsAsciiDigit(s[|s| - 1]);
    TrimNoSpace(t);
    assert ParseInt(t) == ParseTrimmed(t);
  }

  // ---------------------------------------------------------------- arrays

  /** How `Array.prototype.slice` resolves one (possibly negative) bound. */
  function SliceIndex(len: nat, k: int): (r: nat)
    ensures r <= len
  {
    if k < 0 then (if len + k < 0 then 0 else len + k) else if k > len then len else k
  }

  /** `s.slice(start, end)`: negative bounds count from the end, empty when crossed. */
  function JsSlice<T>(s: seq<T>, start: int, end: int): (r: seq<T>)
    ensures |r| <= |s|
    ensures 0 <= start <= end ==> r == s[SliceIndex(|s|, start)..SliceIndex(|s|, end)]
    ensures start >= 0 && end >= start ==> |r| <= end - start
  {
    var i := SliceIndex(|s|, start);
    var j := SliceIndex(|s|, end);
    if i < j then s[i..j] else []
  }

  /** The page `page` of `perPage` items: `l.slice((page - 1) * perPage, (page - 1) * perPage + perPage)`. */
  function PageItems<T>(l: seq<T>, page: int, perPage: int): seq<T> {
    var start := (page - 1) * perPage;
    JsSlice(l, start, start + perPage)
  }

  /**
   * For a page from 1 and a non-negative size, the page holds at most
   * `perPage` items: those from position `(page-1)·perPage` on, none past the end.
   */
  lemma PageWindow<T>(l: seq<T>, page: int, perPage: int)
    requires page >= 1 && perPage >= 0
    ensures var start := (page - 1) * perPage;
      var items := PageItems(l, page, perPage);
      0 <= start && |items| <= perPage
      && (start + perPage <= |l| ==> items == l[start..start + perPage])
      && (start >= |l| ==> items == [])
  {
    var start := (page - 1) * perPage;
    MulNonNegative(page - 1, perPage);
    SliceWindow(l, start, perPage);
  }

  /** Concatenation is associative. */
  lemma AppendAssoc<T>(a: seq<T>, b: seq<T>, c: seq<T>)
    ensures (a + b) + c == a + (b + c)
  {
  }

  lemma MulNonNegative(a: int, b: int)
    requires a >= 0 && b >= 0
    ensures a * b >= 0
  {
  }

  /** `l.slice(start, start + size)` for a start from 0 on. */
  lemma SliceWindow<T>(l: seq<T>, start: int, size: int)
    requires start >= 0 && size >= 0
    ensures var items := JsSlice(l, start, start + size);
      |items| <= size
      && (start + size <= |l| ==> items == l[start..start + size])
      && (start >= |l| ==> items == [])
  {
  }

  /** A sequence built element by element grows by the next element. */
  lemma SeqSnoc<T>(k: nat, f: int -> T)
    ensures seq(k + 1, f) == seq(k, f) + [f(k)]
  {
    var a, b := seq(k + 1, f), seq(k, f) + [f(k)];
    assert |a| == |b|;
    forall i | 0 <= i < k + 1 ensures a[i] == b[i] {
      if i < k {
        assert b[i] == seq(k, f)[i];
      }
    }
  }

  /** `xs.map(g)`. */
  function MapSeq<A, B>(xs: seq<A>, g: A -> B): (r: seq<B>)
    ensures |r| == |xs| && forall i :: 0 <= i < |xs| ==> r[i] == g(xs[i])
  {
    if xs == [] then [] else MapSeq(xs[..|xs| - 1], g) + [g(xs[|xs| - 1])]
  }

  /** Mapping one more element appends its image. */
  lemma MapSeqSnoc<A, B>(xs: seq<A>, g: A -> B, i: nat)
    requires i < |xs|
    ensures MapSeq(xs[..i + 1], g) == MapSeq(xs[..i], g) + [g(xs[i])]
  {
    assert xs[..i + 1][..i] == xs[..i];
  }

  /** Appending the image of element `i` to the text of the first `i` images gives the text of the first `i + 1`. */
  lemma ConcatMapStep<A>(head: string, xs: seq<A>, g: A -> string, i: nat, acc: string)
    requires i < |xs| && acc == head + Concat(MapSeq(xs[..i], g))
    ensures acc + g(xs[i]) == head + Concat(MapSeq(xs[..i + 1], g))
  {
    MapSeqSnoc(xs, g, i);
    ConcatSnoc(MapSeq(xs[..i], g), g(xs[i]));
    assert head + (Concat(MapSeq(xs[..i], g)) + g(xs[i])) == (head + Concat(MapSeq(xs[..i], g))) + g(xs[i]);
  }

  /** `xs.filter(p)`. */
  function Filter<T(!new)>(xs: seq<T>, p: T -> bool): (r: seq<T>)
    ensures |r| <= |xs|
    ensures forall x :: x in r <==> x in xs && p(x)
  {
    if xs == [] then [] else (if p(xs[0]) then [xs[0]] else []) + Filter(xs[1..], p)
  }

  /** A filter that every element passes keeps the whole sequence. */
  lemma {:induction false} FilterAll<T(!new)>(xs: seq<T>, p: T -> bool)
    requires forall x :: x in xs ==> p(x)
    ensures Filter(xs, p) == xs
  {
    if xs != [] {
      FilterAll(xs[1..], p);
      assert [xs[0]] + xs[1..] == xs;
    }
  }

  /** Filtering a sequence extended by one element. */
  lemma {:induction false} FilterAppend<T(!new)>(xs: seq<T>, x: T, p: T -> bool)
    ensures Filter(xs + [x], p) == Filter(xs, p) + (if p(x) then [x] else [])
  {
    if xs == [] {
      assert xs + [x] == [x];
    } else {
      var h: seq<T> := if p(xs[0]) then [xs[0]] else [];
      var t: seq<T> := if p(x) then [x] else [];
      assert (xs + [x])[0] == xs[0] && (xs + [x])[1..] == xs[1..] + [x];
      assert Filter(xs + [x], p) == h + Filter(xs[1..] + [x], p);
      FilterAppend(xs[1..], x, p);
      assert h + (Filter(xs[1..], p) + t) == (h + Filter(xs[1..], p)) + t;
    }
  }

  /** Nothing survives a filter that every element fails. */
  lemma {:induction false} FilterNone<T(!new)>(xs: seq<T>, p: T -> bool)
    requires forall x :: x in xs ==> !p(x)
    ensures Filter(xs, p) == []
  {
    if xs != [] {
      assert xs[0] in xs;
      FilterNone(xs[1..], p);
    }
  }

  /** Filtering by `p` and then by `q` is filtering once by any `r` that is `p` and `q` on the elements. */
  lemma {:induction false} FilterFilter<T(!new)>(xs: seq<T>, p: T -> bool, q: T -> bool, r: T -> bool)
    requires forall x :: x in xs ==> r(x) == (p(x) && q(x))
    ensures Filter(Filter(xs, p), q) == Filter(xs, r)
  {
    if xs != [] {
      FilterFilter(xs[1..], p, q, r);
      assert xs[0] in xs;
      var rest := Filter(xs[1..], p);
      if p(xs[0]) {
        assert Filter(xs, p) == [xs[0]] + rest;
        assert ([xs[0]] + rest)[1..] == rest;
      } else {
        assert Filter(xs, p) == rest;
      }
    }
  }

  /** Filters that agree on the elements keep the same ones. */
  lemma {:induction false} FilterCongruent<T(!new)>(xs: seq<T>, p: T -> bool, q: T -> bool)
    requires forall x :: x in xs ==> p(x) == q(x)
    ensures Filter(xs, p) == Filter(xs, q)
  {
    if xs != [] {
      assert xs[0] in xs;
      FilterCongruent(xs[1..], p, q);
    }
  }

  /** Number of elements satisfying `p`. */
  function CountWhere<T>(xs: seq<T>, p: T -> bool): (n: nat)
    ensures n <= |xs|
  {
    if xs == [] then 0 else (if p(xs[0]) then 1 else 0) + CountWhere(xs[1..], p)
  }

  lemma {:induction false} FilterLength<T(!new)>(xs: seq<T>, p: T -> bool)
    ensures |Filter(xs, p)| == CountWhere(xs, p)
  {
    if xs != [] {
      FilterLength(xs[1..], p);
    }
  }

  function Max(a: int, b: int): int { if a >= b then a else b }
  function Min(a: int, b: int): int { if a <= b then a else b }
}
