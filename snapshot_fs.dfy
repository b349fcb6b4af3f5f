/**
 * The directory a snapshot is taken of, as both snapshot scripts see it
 * through the file system: directories in listing order, files with their
 * size and the outcome of reading them.
 */
module SnapshotFs {
  import opened Common

  /** What reading a file yields: its text, or the message of the read error. */
  datatype Content = Text(text: string) | ReadError(message: string)

  datatype Node =
    | Dir(name: string, children: seq<Node>)
    | File(name: string, size: nat, content: Content)

  /** A file reached from the snapshot root through the directories `dirs`. */
  datatype Found = Found(dirs: seq<string>, name: string, size: nat, content: Content)

  /** The components of a found file's path relative to the snapshot root. */
  function RelParts(f: Found): (r: seq<string>)
    ensures |r| == |f.dirs| + 1 && r[|r| - 1] == f.name
  {
    f.dirs + [f.name]
  }

  /**
   * Every file below the given entries, directories expanded in place, in
   * listing order, each with the directories leading to it from the root.
   */
  function FilesBelow(children: seq<Node>, dirs: seq<string>): (r: seq<Found>)
    ensures forall f :: f in r ==> |dirs| <= |f.dirs| && f.dirs[..|dirs|] == dirs
    decreases children
  {
    if children == [] then []
    else
      var first := match children[0]
        case File(n, sz, c) => [Found(dirs, n, sz, c)]
        case Dir(n, cs) =>
          var below := FilesBelow(cs, dirs + [n]);
          assert forall f :: f in below ==> f.dirs[..|dirs|] == (f.dirs[..|dirs| + 1])[..|dirs|];
          below;
      first + FilesBelow(children[1..], dirs)
  }

  /**
   * `Path(p).name` in Python: the last component once empty and `.`
   * components are dropped ("" when none is left).
   */
  function PyName(p: string): string {
    LastComponent(Split(p, '/'), true)
  }

  /**
   * `path.basename(p)` in Node.js: trailing separators are ignored and the
   * text after the last remaining separator is returned.
   */
  function JsBasename(p: string): string {
    var t := StripTrailingSlashes(p);
    LastComponent(Split(t, '/'), false)
  }

  function StripTrailingSlashes(p: string): (r: string)
    ensures r == [] || r[|r| - 1] != '/'
  {
    if p != [] && p[|p| - 1] == '/' then StripTrailingSlashes(p[..|p| - 1]) else p
  }

  /** `p.split(sep)`: the pieces between separators, empty pieces kept. */
  function Split(p: string, sep: char): (r: seq<string>)
    ensures |r| >= 1
    ensures forall i :: 0 <= i < |r| ==> sep !in r[i]
  {
    if p == [] then [""]
    else
      var rest := Split(p[1..], sep);
      if p[0] == sep then [""] + rest else [[p[0]] + rest[0]] + rest[1..]
  }

  /** The last piece; with `skipDots`, empty and `.` pieces are passed over first. */
  function LastComponent(parts: seq<string>, skipDots: bool): string {
    if parts == [] then ""
    else
      var last := parts[|parts| - 1];
      if skipDots && (last == "" || last == ".") then LastComponent(parts[..|parts| - 1], skipDots)
      else last
  }

  /** Neither name rule keeps a separator. */
  lemma NamesHaveNoSlash(p: string)
    ensures '/' !in PyName(p) && '/' !in JsBasename(p)
  {
    LastHasNoSep(Split(p, '/'), true);
    LastHasNoSep(Split(StripTrailingSlashes(p), '/'), false);
  }

  lemma {:induction false} LastHasNoSep(parts: seq<string>, skipDots: bool)
    requires forall i :: 0 <= i < |parts| ==> '/' !in parts[i]
    ensures '/' !in LastComponent(parts, skipDots)
  {
    if parts != [] {
      var last := parts[|parts| - 1];
      if skipDots && (last == "" || last == ".") {
        LastHasNoSep(parts[..|parts| - 1], skipDots);
      }
    }
  }

  /** A piece without separators splits into itself. */
  lemma {:induction false} SplitNoSep(a: string, sep: char)
    requires sep !in a
    ensures Split(a, sep) == [a]
  {
    if a != [] {
      SplitNoSep(a[1..], sep);
      assert [a[0]] + a[1..] == a;
    }
  }

  /** Splitting at the first separator. */
  lemma {:induction false} SplitAtSep(a: string, b: string, sep: char)
    requires sep !in a
    ensures Split(a + [sep] + b, sep) == [a] + Split(b, sep)
  {
    if a == [] {
      assert a + [sep] + b == [sep] + b;
      assert ([sep] + b)[1..] == b;
    } else {
      var s := a + [sep] + b;
      assert s[0] == a[0] && s[1..] == a[1..] + [sep] + b;
      SplitAtSep(a[1..], b, sep);
      assert [a[0]] + a[1..] == a;
    }
  }

  /** A plain name (no separator) is its own name under both rules. */
  lemma PlainName(name: string)
    requires name != "" && name != "." && '/' !in name
    ensures PyName(name) == name && JsBasename(name) == name
  {
    SplitNoSep(name, '/');
    assert StripTrailingSlashes(name) == name;
  }

  /** The rules differ on a trailing `.` component: Python drops it, Node.js keeps it. */
  lemma NamesDifferOnDot()
    ensures PyName("dir/.") == "dir" && JsBasename("dir/.") == "."
  {
    SplitNoSep(".", '/');
    SplitAtSep("dir", ".", '/');
    assert "dir" + ['/'] + "." == "dir/.";
    assert StripTrailingSlashes("dir/.") == "dir/.";
    assert LastComponent(["dir", "."], true) == LastComponent(["dir"], true);
  }
}
