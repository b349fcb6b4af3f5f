/**
 * `GET` and `POST /api/admin/categories` (`src/app/api/admin/categories/route.ts`):
 * the category list, and the creation of a category whose slug is given
 * or derived from its name.
 *
 * ObjectId parsing of the parent id is the parameter `oid`; saving the
 * category is `save`, which answers the new id or the failure.
 */
module AdminCategoriesRoute {
  import opened Common
  import opened CatalogTypes

  // ------------------------------------------------------------------ slug

  /** The characters `/[^a-z0-9-]/g` keeps. */
  predicate IsSlugChar(c: char) {
    IsAsciiLower(c) || IsAsciiDigit(c) || c == '-'
  }

  /** The leading run of white space dropped. */
  function SkipSpaces(s: string): (r: string)
    ensures |r| <= |s| && r == s[|s| - |r|..]
    ensures r == [] || !IsJsSpace(r[0])
  {
    if s != [] && IsJsSpace(s[0]) then SkipSpaces(s[1..]) else s
  }

  /** `replace(/\s+/g, "-")`: every run of white space becomes one dash. */
  function DashSpaces(s: string): string
    decreases |s|
  {
    if s == [] then []
    else if IsJsSpace(s[0]) then "-" + DashSpaces(SkipSpaces(s[1..]))
    else [s[0]] + DashSpaces(s[1..])
  }

  /** `name.toLowerCase().replace(/\s+/g, "-").replace(/[^a-z0-9-]/g, "")`. */
  function DeriveSlug(name: string): string {
    Filter(DashSpaces(Lower(name)), IsSlugChar)
  }

  /** A derived slug holds only lower-case Latin letters, digits and dashes. */
  lemma DerivedSlugChars(name: string)
    ensures forall i :: 0 <= i < |DeriveSlug(name)| ==> IsSlugChar(DeriveSlug(name)[i])
  {
    var r := DeriveSlug(name);
    forall i | 0 <= i < |r| ensures IsSlugChar(r[i]) {
      assert r[i] in r;
    }
  }

  /** The result of `replace(/\s+/g, "-")` holds no white space. */
  lemma {:induction false} DashSpacesNoSpace(s: string)
    ensures forall i :: 0 <= i < |DashSpaces(s)| ==> !IsJsSpace(DashSpaces(s)[i])
    decreases |s|
  {
    if s != [] {
      var rest := if IsJsSpace(s[0]) then SkipSpaces(s[1..]) else s[1..];
      DashSpacesNoSpace(rest);
      var head := if IsJsSpace(s[0]) then "-" else [s[0]];
      assert DashSpaces(s) == head + DashSpaces(rest);
      forall i | 0 <= i < |DashSpaces(s)| ensures !IsJsSpace(DashSpaces(s)[i]) {
        if i >= |head| {
          assert DashSpaces(s)[i] == DashSpaces(rest)[i - |head|];
        }
      }
    }
  }

  /** Text without white space goes through the dash step unchanged. */
  lemma {:induction false} DashSpacesNoop(s: string)
    requires forall i :: 0 <= i < |s| ==> !IsJsSpace(s[i])
    ensures DashSpaces(s) == s
  {
    if s != [] {
      DashSpacesNoop(s[1..]);
      assert s == [s[0]] + s[1..];
    }
  }

  /** Lower-casing leaves slug characters alone. */
  lemma LowerSlugNoop(s: string)
    requires forall i :: 0 <= i < |s| ==> IsSlugChar(s[i])
    ensures Lower(s) == s
  {
    assert forall i :: 0 <= i < |s| ==> !IsUpperChar(s[i]);
  }

  /** Deriving the slug of a derived slug changes nothing. */
  lemma DeriveSlugIdempotent(name: string)
    ensures DeriveSlug(DeriveSlug(name)) == DeriveSlug(name)
  {
    var t := DeriveSlug(name);
    DerivedSlugChars(name);
    LowerSlugNoop(t);
    assert forall i :: 0 <= i < |t| ==> !IsJsSpace(t[i]);
    DashSpacesNoop(t);
    forall c | c in t ensures IsSlugChar(c) {
      var i :| 0 <= i < |t| && t[i] == c;
    }
    FilterAll(t, IsSlugChar);
  }

  /** A run of white space between two words becomes one dash. */
  lemma {:induction false} DashSpacesRun(w: string, run: string, rest: string)
    requires forall i :: 0 <= i < |w| ==> !IsJsSpace(w[i])
    requires run != [] && forall i :: 0 <= i < |run| ==> IsJsSpace(run[i])
    requires rest == [] || !IsJsSpace(rest[0])
    ensures DashSpaces(w + run + rest) == w + "-" + DashSpaces(rest)
  {
    var s := w + run + rest;
    if w == [] {
      assert s == run + rest && s[0] == run[0] && IsJsSpace(s[0]);
      assert s[1..] == run[1..] + rest;
      SkipRun(run[1..], rest);
      assert DashSpaces(s) == "-" + DashSpaces(SkipSpaces(s[1..]));
    } else {
      assert s[0] == w[0] && !IsJsSpace(s[0]);
      assert s[1..] == w[1..] + run + rest;
      DashSpacesRun(w[1..], run, rest);
      assert DashSpaces(s) == [w[0]] + DashSpaces(s[1..]);
      assert [w[0]] + (w[1..] + "-" + DashSpaces(rest)) == w + "-" + DashSpaces(rest);
    }
  }

  lemma {:induction false} SkipRun(run: string, rest: string)
    requires forall i :: 0 <= i < |run| ==> IsJsSpace(run[i])
    requires rest == [] || !IsJsSpace(rest[0])
    ensures SkipSpaces(run + rest) == rest
  {
    if run == [] {
      assert run + rest == rest;
    } else {
      var s := run + rest;
      assert s[0] == run[0] && IsJsSpace(s[0]);
      assert s[1..] == run[1..] + rest;
      assert SkipSpaces(s) == SkipSpaces(s[1..]);
      SkipRun(run[1..], rest);
    }
  }

  // ------------------------------------------------------------------ POST

  /** The new category: name, slug, and the parent id or `null`. */
  datatype Draft = Draft(name: string, slug: string, parentId: Option<string>)

  datatype SaveResult = Saved(id: string) | DuplicateKey | SaveFailed

  datatype PostResult = Created(item: Category) | NameRequired | SlugTaken | Invalid

  function Status(r: PostResult): int {
    if r.Created? then 201 else 400
  }

  /** The error text; an `Invalid` reply carries the thrown error's message. */
  function ErrorText(r: PostResult): Option<string> {
    match r
    case NameRequired => Some("name is required")
    case SlugTaken => Some("slug must be unique")
    case _ => None
  }

  /** `(body.slug && String(body.slug).trim()) || derived`: a given slug that is blank after trimming counts as none. */
  function SlugOf(slug: Option<Json>, name: string): string {
    if TruthyField(slug) && Trim(JsString(slug.value)) != "" then Trim(JsString(slug.value)) else DeriveSlug(name)
  }

  /** The parent as `ObjectId` parses it; `Some(None)` for no parent, `None` when parsing throws. */
  function ParentOf(parent: Option<Json>, oid: string -> Option<string>): Option<Option<string>> {
    if !TruthyField(parent) then Some(None)
    else if oid(JsString(parent.value)).Some? then Some(Some(oid(JsString(parent.value)).value))
    else None
  }

  /** The creation: 400 without a truthy name; a parent id `ObjectId` rejects throws; a duplicate slug is its own error. */
  function Post(body: Option<JsonBody>, oid: string -> Option<string>, save: Draft -> SaveResult): PostResult {
    if body.None? then Invalid
    else
      var name := JsonField(body.value, "name");
      if !TruthyField(name) then NameRequired
      else
        var parent := ParentOf(JsonField(body.value, "parentId"), oid);
        if parent.None? then Invalid
        else
          var draft := Draft(JsString(name.value), SlugOf(JsonField(body.value, "slug"), JsString(name.value)), parent.value);
          match save(draft)
          case Saved(id) => Created(Category(id, draft.name, draft.slug, draft.parentId))
          case DuplicateKey => SlugTaken
          case SaveFailed => Invalid
  }

  lemma NameRequiredIff(body: JsonBody, oid: string -> Option<string>, save: Draft -> SaveResult)
    ensures Post(Some(body), oid, save) == NameRequired <==> !TruthyField(JsonField(body, "name"))
    ensures Status(NameRequired) == 400 && ErrorText(NameRequired) == Some("name is required")
  {
  }

  /** A created category has the trimmed given slug when one is left after trimming, the derived one otherwise. */
  lemma CreatedSlug(body: JsonBody, oid: string -> Option<string>, save: Draft -> SaveResult)
    requires Post(Some(body), oid, save).Created?
    ensures var c := Post(Some(body), oid, save).item;
      var slug := JsonField(body, "slug");
      var name := JsString(body["name"]);
      (TruthyField(slug) && Trim(JsString(slug.value)) != "" ==> c.slug == Trim(JsString(slug.value)))
      && (!(TruthyField(slug) && Trim(JsString(slug.value)) != "") ==> c.slug == DeriveSlug(name))
      && c.name == name
  {
  }

  /** Without a parent id the category is stored with `null` and listed without one. */
  lemma CreatedParent(body: JsonBody, oid: string -> Option<string>, save: Draft -> SaveResult)
    requires Post(Some(body), oid, save).Created?
    ensures !TruthyField(JsonField(body, "parentId")) ==> Post(Some(body), oid, save).item.parentId.None?
    ensures TruthyField(JsonField(body, "parentId")) ==>
      Post(Some(body), oid, save).item.parentId == oid(JsString(body["parentId"]))
  {
  }

  /** A duplicate slug is refused with 400. */
  lemma DuplicateSlugRefused(body: JsonBody, oid: string -> Option<string>, save: Draft -> SaveResult)
    requires TruthyField(JsonField(body, "name"))
    requires ParentOf(JsonField(body, "parentId"), oid).Some?
    requires forall d :: save(d) == DuplicateKey
    ensures Post(Some(body), oid, save) == SlugTaken && Status(SlugTaken) == 400
  {
  }

  // ------------------------------------------------------------------- GET

  /** A stored category; a missing or `null` parent is `None`. */
  datatype CategoryDoc = CategoryDoc(id: string, name: string, slug: string, parentId: Option<string>)

  /** `parentId: d.parentId ? String(d.parentId) : undefined`. */
  function ItemOf(d: CategoryDoc): (c: Category)
    ensures c.id == d.id && c.name == d.name && c.slug == d.slug
    ensures c.parentId.None? <==> d.parentId.None?
  {
    Category(d.id, d.name, d.slug, d.parentId)
  }

  /** Every stored category, in the order stored, each listed once. */
  function List(docs: seq<CategoryDoc>): (r: seq<Category>)
    ensures |r| == |docs| && forall i :: 0 <= i < |docs| ==> r[i] == ItemOf(docs[i])
  {
    MapSeq(docs, ItemOf)
  }
}
