/**
 * The snapshot document and the run that writes it: `create_snapshot` and
 * `main` in `scripts/create-snapshot.py`, `createSnapshot` and `main` in
 * `scripts/create-snapshot.js`. The file system is the in-memory tree, the
 * timestamp is a parameter, and whether the final write succeeds is an
 * input (`writeOk`).
 */
module SnapshotDoc {
  import opened Common
  import opened Sorting
  import opened SnapshotFs
  import opened SnapshotRules
  import opened SnapshotTree
  import opened SnapshotCollect

  /** How one run ends. */
  datatype Outcome =
    | SourceMissing                          // the source directory does not exist: exit status 1
    | NothingToWrite                         // no file collected: return without writing
    | Written(path: string, markdown: string)
    | WriteFailed                            // the write raised: exit status 1

  // ------------------------------------------------------------ paths

  /** A found file's path relative to the snapshot root, `/`-separated. */
  function RelPath(f: Found): string {
    Join(RelParts(f), "/")
  }

  /** The path string the scripts sort: the resolved root, a separator, the relative path. */
  function FullPath(root: string, f: Found): string {
    root + "/" + RelPath(f)
  }

  /** The order of `files.sort(key=str)` / `files.sort()`. */
  function SortedFiles(root: string, files: seq<Found>): (r: seq<Found>)
    ensures multiset(r) == multiset(files)
  {
    SortBy(files, ByKey((f: Found) => FullPath(root, f), LexLe))
  }

  /** The name under which the output lands in `snapshots/`: the final component of the given name. */
  function OutputBase(script: Script, output: string): string {
    if script == Py then PyName(output) else JsBasename(output)
  }

  /**
   * `snapshots/<basename(output)>`; `None` when the base name is empty, `.`
   * or `..`, where the joined path names a directory and the write fails.
   */
  function OutputTarget(script: Script, output: string): (r: Option<string>)
    ensures r.Some? ==> StartsWith(r.value, "snapshots/") && '/' !in r.value[|"snapshots/"|..]
  {
    var base := OutputBase(script, output);
    NamesHaveNoSlash(output);
    if base == "" || base == "." || base == ".." then None
    else
      var p := "snapshots/" + base;
      assert p[..|"snapshots/"|] == "snapshots/" && p[|"snapshots/"|..] == base;
      Some(p)
  }

  // ------------------------------------------------------------ document

  /** The heading, the timestamp line and the fenced file-structure block. */
  function Header(sourceName: string, timestamp: string, listing: string): string {
    "# Снапшот папки " + sourceName + "\n\n"
    + "*Создано: " + timestamp + "*\n\n"
    + "## Структура файлов\n\n```\n"
    + sourceName + "/\n"
    + listing
    + "```\n\n---\n\n"
  }

  const ContentsHeading: string := "## Содержимое файлов\n\n"

  /**
   * One file's section: a `###` heading with the relative path (every `\`
   * turned into `/`), then the content in a fence tagged with its language,
   * or, when reading failed, an italic error note in place of the fence.
   */
  function Section(script: Script, f: Found): string {
    SectionHeading(f) + SectionBody(script, f.name, f.content)
  }

  /** The heading line: the relative path with every `\` turned into `/`. */
  function SectionHeading(f: Found): string {
    "### " + SlashNormalize(RelPath(f)) + "\n"
  }

  function SectionBody(script: Script, name: string, c: Content): string {
    match c
    case Text(t) => "```" + Language(script, name) + "\n" + t + "\n```\n\n"
    case ReadError(m) => ReadErrorNote(m)
  }

  function ReadErrorNote(message: string): string {
    "*Ошибка чтения файла: " + message + "*\n\n"
  }

  /**
   * Every section opens with its heading; an unreadable file gets the error
   * note right after it, a readable one its text inside a fence.
   */
  lemma SectionShape(script: Script, f: Found)
    ensures StartsWith(Section(script, f), SectionHeading(f))
    ensures f.content.ReadError? ==> Section(script, f) == SectionHeading(f) + ReadErrorNote(f.content.message)
    ensures f.content.Text? ==> Contains(Section(script, f), f.content.text)
  {
    var head := SectionHeading(f);
    var body := SectionBody(script, f.name, f.content);
    assert (head + body)[..|head|] == head;
    if f.content.Text? {
      FenceHolds(script, f.name, f.content.text);
      ContainsWithin(head, body, "", f.content.text);
      assert head + body + "" == head + body;
    }
  }

  lemma FenceHolds(script: Script, name: string, t: string)
    ensures Contains(SectionBody(script, name, Text(t)), t)
  {
    var pre := "```" + Language(script, name) + "\n";
    assert StartsWith(t, t);
    ContainsWithin(pre, t, "\n```\n\n", t);
  }

  /** The sections of `files`, in order. */
  function Sections(script: Script, files: seq<Found>): seq<string> {
    MapSeq(files, SectionOf(script))
  }

  function SectionOf(script: Script): Found -> string {
    (f: Found) => Section(script, f)
  }

  /** The name the heading uses: the final component of the resolved root. */
  function SourceName(script: Script, root: string): string {
    if script == Py then PyName(root) else JsBasename(root)
  }

  /**
   * The files a run collects under the root: Python filters the `rglob`
   * enumeration (modelled as the listing-order walk) on the whole absolute
   * path, Node.js walks the tree.
   */
  function Collected(cfg: Config, rootPath: string, root: Node): seq<Found>
    requires root.Dir?
  {
    if cfg.script == Py then CollectedPy(cfg, Split(rootPath, '/'), FilesBelow(root.children, []))
    else CollectJs(cfg, root.children, [], 0)
  }

  /** The complete document of a run that collected `files`. */
  function Document(cfg: Config, rootPath: string, root: Node, timestamp: string, files: seq<Found>): string
    requires root.Dir?
  {
    Header(SourceName(cfg.script, rootPath), timestamp, RootListing(cfg, root))
    + ContentsHeading
    + Concat(Sections(cfg.script, SortedFiles(rootPath, files)))
  }

  /**
   * The outcome of a run of `create_snapshot` / `createSnapshot` on the
   * resolved root `rootPath`, where `source` is what exists there.
   */
  function Run(cfg: Config, rootPath: string, source: Option<Node>, output: string,
               timestamp: string, writeOk: bool): Outcome
  {
    if source.None? then SourceMissing
    else if source.value.File? then NothingToWrite
    else
      var files := Collected(cfg, rootPath, source.value);
      if files == [] then NothingToWrite
      else
        var target := OutputTarget(cfg.script, output);
        if target.Some? && writeOk then Written(target.value, Document(cfg, rootPath, source.value, timestamp, files))
        else WriteFailed
  }

  /**
   * `create_snapshot` / `createSnapshot`: checks the source, builds the
   * header and the tree, collects and sorts the files, appends one section
   * per file and writes the result.
   */
  method CreateSnapshot(cfg: Config, rootPath: string, source: Option<Node>, output: string,
                        timestamp: string, writeOk: bool)
    returns (outcome: Outcome)
    ensures outcome == Run(cfg, rootPath, source, output, timestamp, writeOk)
  {
    if source.None? {
      return SourceMissing;
    }
    var root := source.value;
    if root.File? {
      // The listing and the walk both fail on a file, so nothing is collected.
      return NothingToWrite;
    }
    var sourceName := SourceName(cfg.script, rootPath);
    var listing := ListRoot(cfg, root);
    var markdown := Header(sourceName, timestamp, listing);
    var files := CollectFiles(cfg, rootPath, root);
    if |files| == 0 {
      return NothingToWrite;
    }
    markdown := AppendSections(cfg.script, markdown + ContentsHeading, SortedFiles(rootPath, files));
    assert markdown == Document(cfg, rootPath, root, timestamp, files);
    var target := OutputTarget(cfg.script, output);
    if target.Some? && writeOk {
      outcome := Written(target.value, markdown);
    } else {
      outcome := WriteFailed;
    }
  }

  /** `collect_files(source_path)` / `collectFiles(absoluteSourceDir)`. */
  method CollectFiles(cfg: Config, rootPath: string, root: Node) returns (files: seq<Found>)
    requires root.Dir?
    ensures files == Collected(cfg, rootPath, root)
  {
    if cfg.script == Py {
      files := CollectFilesPy(cfg, Split(rootPath, '/'), FilesBelow(root.children, []));
    } else {
      files := CollectFilesJs(cfg, root.children, [], 0);
    }
  }

  /** The loop over the sorted files: one section appended per file. */
  method AppendSections(script: Script, head: string, sorted: seq<Found>) returns (markdown: string)
    ensures markdown == head + Concat(Sections(script, sorted))
  {
    markdown := head;
    var section := SectionOf(script);
    var i := 0;
    while i < |sorted|
      invariant 0 <= i <= |sorted|
      invariant markdown == head + Concat(MapSeq(sorted[..i], section))
    {
      ConcatMapStep(head, sorted, section, i, markdown);
      markdown := markdown + section(sorted[i]);
      i := i + 1;
    }
    assert sorted[..i] == sorted;
  }

  // ------------------------------------------------------------ properties of a run

  /** A missing source ends the run with status 1 and writes nothing. */
  lemma MissingSourceFails(cfg: Config, rootPath: string, output: string, timestamp: string, writeOk: bool)
    ensures Run(cfg, rootPath, None, output, timestamp, writeOk) == SourceMissing
  {
  }

  /** With no collected file nothing is written, whatever the output name. */
  lemma NoFilesNoWrite(cfg: Config, rootPath: string, root: Node, output: string, timestamp: string, writeOk: bool)
    requires root.Dir? && Collected(cfg, rootPath, root) == []
    ensures Run(cfg, rootPath, Some(root), output, timestamp, writeOk) == NothingToWrite
  {
  }

  /**
   * A written snapshot lands directly in `snapshots/` under the output's
   * base name, and something was collected.
   */
  lemma WrittenUnderSnapshots(cfg: Config, rootPath: string, source: Option<Node>, output: string,
                              timestamp: string, writeOk: bool)
    requires Run(cfg, rootPath, source, output, timestamp, writeOk).Written?
    ensures var o := Run(cfg, rootPath, source, output, timestamp, writeOk);
      writeOk && source.Some? && source.value.Dir? && Collected(cfg, rootPath, source.value) != []
      && o.path == "snapshots/" + OutputBase(cfg.script, output)
      && '/' !in OutputBase(cfg.script, output)
  {
    NamesHaveNoSlash(output);
  }

  /** A write that fails, or an output name that is a directory, ends with status 1 once files were collected. */
  lemma DirectoryOutputFails(cfg: Config, rootPath: string, root: Node, timestamp: string, writeOk: bool)
    requires root.Dir? && Collected(cfg, rootPath, root) != []
    ensures Run(cfg, rootPath, Some(root), ".", timestamp, writeOk).WriteFailed?
  {
    SplitNoSep(".", '/');
    assert StripTrailingSlashes(".") == ".";
    assert LastComponent(["."], true) == LastComponent([], true);
  }

  /** The document begins with the heading that names the source directory. */
  lemma DocumentStartsWithHeading(cfg: Config, rootPath: string, root: Node, timestamp: string, files: seq<Found>)
    requires root.Dir?
    ensures StartsWith(Document(cfg, rootPath, root, timestamp, files),
                       "# Снапшот папки " + SourceName(cfg.script, rootPath) + "\n\n")
  {
    var d := Document(cfg, rootPath, root, timestamp, files);
    var h := "# Снапшот папки " + SourceName(cfg.script, rootPath) + "\n\n";
    assert d == h + (d[|h|..]);
  }

  // ------------------------------------------------------------ order of the sections

  /**
   * Sorting by the full path is sorting by the relative path: the resolved
   * root is a prefix every key shares.
   */
  lemma SortedByRelativePath(root: string, files: seq<Found>)
    ensures SortedFiles(root, files) == SortBy(files, ByKey(RelPath, LexLe))
  {
    var le1 := ByKey((f: Found) => FullPath(root, f), LexLe);
    var le2 := ByKey(RelPath, LexLe);
    forall a, b ensures le1(a, b) == le2(a, b) {
      assert FullPath(root, a) == (root + "/") + RelPath(a);
      assert FullPath(root, b) == (root + "/") + RelPath(b);
      LexLeCommonPrefix(root + "/", RelPath(a), RelPath(b));
    }
    SortByCongruent(files, le1, le2);
  }

  /** The sections follow the relative paths in code-point order, and every collected file has one. */
  lemma SectionsOrdered(root: string, files: seq<Found>)
    ensures var s := SortedFiles(root, files);
      multiset(s) == multiset(files)
      && forall i, j :: 0 <= i < j < |s| ==> LexLe(RelPath(s[i]), RelPath(s[j]))
  {
    SortedByRelativePath(root, files);
    LexLeTotalOrder();
    ByKeyPreorder(RelPath, LexLe);
    SortBySorted(files, ByKey(RelPath, LexLe));
  }

  /**
   * A written document holds the section of every collected file, the
   * unreadable ones included.
   */
  lemma WrittenHoldsEverySection(cfg: Config, rootPath: string, root: Node, output: string,
                                 timestamp: string, f: Found)
    requires root.Dir?
    requires Run(cfg, rootPath, Some(root), output, timestamp, true).Written?
    requires f in Collected(cfg, rootPath, root)
    ensures Contains(Run(cfg, rootPath, Some(root), output, timestamp, true).markdown, Section(cfg.script, f))
  {
    var files := Collected(cfg, rootPath, root);
    var s := SortedFiles(rootPath, files);
    assert f in multiset(s);
    var k :| 0 <= k < |s| && s[k] == f;
    var secs := Sections(cfg.script, s);
    ConcatHas(secs, k);
    var pre := Header(SourceName(cfg.script, rootPath), timestamp, RootListing(cfg, root)) + ContentsHeading;
    ContainsWithin(pre, Concat(secs), "", Section(cfg.script, f));
    assert pre + Concat(secs) + "" == Document(cfg, rootPath, root, timestamp, files);
  }

  // ------------------------------------------------------------ command line

  /** What `main` does with the command line: show the help (exit 0), refuse it (exit 2), or take a snapshot. */
  datatype Command = Help | UsageError | Snapshot(folder: string, output: string)

  /**
   * Node.js `main`: `-h` or `--help` anywhere shows the help; otherwise an
   * empty or missing first argument means `src`, and an empty or missing
   * second one means `<basename(folder)>-snapshot.md`. Extra arguments are
   * ignored.
   */
  function MainJs(args: seq<string>): (c: Command)
    ensures ("-h" in args || "--help" in args) <==> c == Help
    ensures !c.UsageError?
  {
    if "-h" in args || "--help" in args then Help
    else
      var folder := if |args| >= 1 && args[0] != "" then args[0] else "src";
      var output := if |args| >= 2 && args[1] != "" then args[1] else JsBasename(folder) + "-snapshot.md";
      Snapshot(folder, output)
  }

  /** How `argparse` reads one word of the Python script's command line that comes before any `--`. */
  datatype PyArg = Positional | HelpFlag | BadHelp | UnknownOption

  /** `--h`, `--he`, `--hel` or `--help`: `--help` or an abbreviation of it. */
  predicate LongHelp(a: string) {
    3 <= |a| <= 6 && a == "--help"[..|a|]
  }

  function IndexOfChar(s: string, c: char): (i: int)
    ensures -1 <= i < |s|
    ensures i >= 0 ==> s[i] == c && c !in s[..i]
    ensures i == -1 ==> c !in s
  {
    if s == [] then -1
    else if s[0] == c then 0
    else
      var j := IndexOfChar(s[1..], c);
      assert s == [s[0]] + s[1..];
      if j == -1 then -1 else j + 1
  }

  predicate AllDigits(s: string) {
    forall i :: 0 <= i < |s| ==> IsAsciiDigit(s[i])
  }

  /** `-\d+` or `-\d*\.\d+`: a negative number, which is read as a positional argument. */
  predicate NegativeNumber(a: string) {
    |a| >= 2 && a[0] == '-'
    && ((AllDigits(a[1..]))
        || (exists d :: 1 <= d < |a| - 1 && a[d] == '.' && AllDigits(a[1..d]) && AllDigits(a[d + 1..])))
  }

  /**
   * The class of one word: a word not starting with `-`, or `-` alone, a
   * negative number or a word with a space, is positional; `-h`, `-hh...`
   * and `--help` with its abbreviations ask for help; `-h` glued to other
   * characters, or the long help option with `=value`, is refused on the
   * spot; any other word starting with `-` is an unknown option, reported
   * once the whole line is read.
   */
  function ClassifyPy(a: string): PyArg {
    if a == "" || a[0] != '-' || a == "-" then Positional
    else if a == "-h" || LongHelp(a) then HelpFlag
    else if a[1] == 'h' then (if forall i :: 2 <= i < |a| ==> a[i] == 'h' then HelpFlag else BadHelp)
    else if a[1] == '-' && IndexOfChar(a, '=') >= 2 && a[..IndexOfChar(a, '=')] == "--help"[..Min(6, IndexOfChar(a, '='))] then BadHelp
    else if NegativeNumber(a) then Positional
    else if ' ' in a then Positional
    else UnknownOption
  }

  /** After the whole line: unknown options or a third positional argument are refused; otherwise the defaults apply. */
  function FinishPy(pos: seq<string>, unknown: bool): (c: Command)
    ensures c.Snapshot? <==> !unknown && |pos| <= 2
  {
    if unknown || |pos| > 2 then UsageError
    else
      var folder := if |pos| >= 1 then pos[0] else "src";
      var output := if |pos| >= 2 && pos[1] != "" then pos[1] else PyName(folder) + "-snapshot.md";
      Snapshot(folder, output)
  }

  /**
   * `parser.parse_args()` read left to right: a help flag shows the help at
   * once and a refused word stops at once; unknown options and positional
   * arguments are gathered, and every word after the first `--` is
   * positional.
   */
  function ScanPy(args: seq<string>, pos: seq<string>, unknown: bool): Command
    decreases |args|
  {
    if args == [] then FinishPy(pos, unknown)
    else if args[0] == "--" then FinishPy(pos + args[1..], unknown)
    else
      match ClassifyPy(args[0])
      case HelpFlag => Help
      case BadHelp => UsageError
      case UnknownOption => ScanPy(args[1..], pos, true)
      case Positional => ScanPy(args[1..], pos + [args[0]], unknown)
  }

  /** Python `main`: `argparse` with two optional positional arguments, then the default output name. */
  function MainPy(args: seq<string>): Command {
    ScanPy(args, [], false)
  }

  /** A word that is not `--` and neither asks for help nor is refused on the spot. */
  predicate PassedOver(a: string) {
    a != "--" && (ClassifyPy(a).Positional? || ClassifyPy(a).UnknownOption?)
  }

  lemma {:induction false} ScanHelp(args: seq<string>, pos: seq<string>, unknown: bool, i: int)
    requires 0 <= i < |args| && args[i] != "--" && ClassifyPy(args[i]).HelpFlag?
    requires forall j :: 0 <= j < i ==> PassedOver(args[j])
    ensures ScanPy(args, pos, unknown) == Help
  {
    if i > 0 {
      assert PassedOver(args[0]);
      var pos' := if ClassifyPy(args[0]).Positional? then pos + [args[0]] else pos;
      var unknown' := unknown || ClassifyPy(args[0]).UnknownOption?;
      ScanHelp(args[1..], pos', unknown', i - 1);
    }
  }

  /**
   * `-h`, `--help` or an abbreviation such as `--he` shows the help (exit
   * 0) whatever follows, as long as no earlier word was `--` or refused.
   */
  lemma PyHelpShown(args: seq<string>, i: int)
    requires 0 <= i < |args| && ClassifyPy(args[i]).HelpFlag?
    requires forall j :: 0 <= j < i ==> PassedOver(args[j])
    ensures MainPy(args) == Help
  {
    ScanHelp(args, [], false, i);
  }

  lemma {:induction false} ScanUnknown(args: seq<string>, pos: seq<string>)
    ensures !ScanPy(args, pos, true).Snapshot?
  {
    if args != [] && args[0] != "--" {
      match ClassifyPy(args[0])
      case HelpFlag =>
      case BadHelp =>
      case UnknownOption => ScanUnknown(args[1..], pos);
      case Positional => ScanUnknown(args[1..], pos + [args[0]]);
    }
  }

  lemma {:induction false} ScanPlain(args: seq<string>, pos: seq<string>, unknown: bool)
    requires forall j :: 0 <= j < |args| ==> args[j] != "--" && ClassifyPy(args[j]).Positional?
    ensures ScanPy(args, pos, unknown) == FinishPy(pos + args, unknown)
  {
    if args != [] {
      ScanPlain(args[1..], pos + [args[0]], unknown);
      assert pos + [args[0]] + args[1..] == pos + args;
    }
  }

  /** An unknown option such as `--verbose` before any `--` never leads to a snapshot: usage error (exit 2) or help. */
  lemma PyUnknownOptionRefused(args: seq<string>, i: int)
    requires 0 <= i < |args| && args[i] != "--" && ClassifyPy(args[i]).UnknownOption?
    requires forall j :: 0 <= j < i ==> PassedOver(args[j])
    ensures !MainPy(args).Snapshot?
  {
    var pos, unknown := [], false;
    var k := 0;
    while k < i
      invariant 0 <= k <= i
      invariant ScanPy(args[k..], pos, unknown) == MainPy(args)
    {
      assert args[k..][1..] == args[k + 1..];
      assert PassedOver(args[k]);
      if ClassifyPy(args[k]).Positional? { pos := pos + [args[k]]; } else { unknown := true; }
      k := k + 1;
    }
    assert args[i..][0] == args[i] && args[i..][1..] == args[i + 1..];
    ScanUnknown(args[i + 1..], pos);
  }

  /**
   * A line of plain words takes a snapshot exactly when it has at most two
   * of them, and a third one is a usage error (exit 2).
   */
  lemma PyPlainArguments(args: seq<string>)
    requires forall j :: 0 <= j < |args| ==> args[j] != "--" && ClassifyPy(args[j]).Positional?
    ensures MainPy(args).Snapshot? <==> |args| <= 2
    ensures |args| > 2 ==> MainPy(args) == UsageError
  {
    ScanPlain(args, [], false);
    assert [] + args == args;
  }

  /** Without arguments both scripts snapshot `src` into `src-snapshot.md`. */
  lemma DefaultArguments(src: string)
    requires src == "src"
    ensures MainJs([]) == Snapshot(src, src + "-snapshot.md")
    ensures MainPy([]) == Snapshot(src, src + "-snapshot.md")
  {
    PlainName(src);
  }

  /** A given output name is used as is, and a folder given alone names the default output. */
  lemma GivenArguments(folder: string, output: string)
    requires folder != "" && output != "" && folder != "-h" && folder != "--help"
    requires output != "-h" && output != "--help"
    ensures MainJs([folder, output]) == Snapshot(folder, output)
    ensures MainJs([folder]) == Snapshot(folder, JsBasename(folder) + "-snapshot.md")
  {
  }

  /** The same for the Python script, when neither word starts with `-`. */
  lemma GivenArgumentsPy(folder: string, output: string)
    requires folder != "" && output != "" && folder[0] != '-' && output[0] != '-'
    ensures MainPy([folder, output]) == Snapshot(folder, output)
    ensures MainPy([folder]) == Snapshot(folder, PyName(folder) + "-snapshot.md")
  {
    ScanPlain([folder, output], [], false);
    assert [] + [folder, output] == [folder, output];
    ScanPlain([folder], [], false);
    assert [] + [folder] == [folder];
  }
}
