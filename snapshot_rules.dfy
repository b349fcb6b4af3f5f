/**
 * Which names the two snapshot scripts skip, which files they include, and
 * which fence language they give a file. The Python script
 * (`scripts/create-snapshot.py`) and the Node.js script
 * (`scripts/create-snapshot.js`) share intent but not rules, so every rule
 * takes the script it belongs to.
 */
module SnapshotRules {
  import opened Common

  datatype Script = Py | Js

  // ------------------------------------------------------------ configuration

  const IncludeExtensionsJs: set<string> :=
    {".ts", ".tsx", ".js", ".jsx", ".css", ".scss", ".sass", ".less",
     ".json", ".md", ".txt", ".yml", ".yaml", ".html", ".xml", ".svg",
     ".env", ".gitignore", ".eslintrc"}

  /** The Python list adds `.py` to the Node.js one. */
  const IncludeExtensionsPy: set<string> := IncludeExtensionsJs + {".py"}

  const ExcludeNamesPy: set<string> :=
    {"node_modules", ".git", ".next", "dist", "build", ".turbo", "coverage",
     ".nyc_output", "logs", "__pycache__", ".pytest_cache", "venv", "env",
     ".venv", ".DS_Store", "Thumbs.db"}

  /** The Node.js exclusion patterns, in their configured order. */
  const ExcludePatternsJs: seq<string> :=
    ["node_modules", ".git", ".next", "dist", "build", ".turbo", "coverage",
     ".nyc_output", "logs", "*.log", ".DS_Store", "Thumbs.db", "*.tmp", "*.temp"]

  /** The maximum size of an included file, in bytes (100 KB). */
  const MaxFileSize: nat := 100 * 1024

  /** The maximum directory nesting either script descends to. */
  const MaxDepth: nat := 10

  /**
   * A script's `CONFIG` object, with the script whose rules read it. The
   * walks take it as a parameter; `PyConfig` and `JsConfig` are the values
   * the two scripts define.
   */
  datatype Config = Config(
    script: Script,
    includeExtensions: set<string>,
    excludePatterns: seq<string>,
    maxFileSize: nat,
    maxDepth: nat)

  /** The Python exclusion set, listed in an arbitrary order (only membership is asked). */
  const ExcludeNamesPyList: seq<string> :=
    ["node_modules", ".git", ".next", "dist", "build", ".turbo", "coverage",
     ".nyc_output", "logs", "__pycache__", ".pytest_cache", "venv", "env",
     ".venv", ".DS_Store", "Thumbs.db"]

  const PyConfig: Config := Config(Py, IncludeExtensionsPy, ExcludeNamesPyList, MaxFileSize, MaxDepth)

  const JsConfig: Config := Config(Js, IncludeExtensionsJs, ExcludePatternsJs, MaxFileSize, MaxDepth)

  lemma ExcludeNamesPyListed()
    ensures forall n :: n in ExcludeNamesPyList <==> n in ExcludeNamesPy
  {
  }

  // ------------------------------------------------------------ extensions

  function LastDot(s: string): (r: int)
    ensures -1 <= r < |s|
    ensures r >= 0 ==> s[r] == '.' && '.' !in s[r + 1..]
    ensures r == -1 ==> '.' !in s
  {
    if s == [] then -1
    else if s[|s| - 1] == '.' then |s| - 1
    else
      var r := LastDot(s[..|s| - 1]);
      assert s[..|s| - 1] + [s[|s| - 1]] == s;
      r
  }

  /** `Path(name).suffix`: from the last dot, unless it is the first or the last character. */
  function PySuffix(name: string): (r: string)
    ensures r != "" ==> r[0] == '.' && |r| >= 2 && |r| < |name| && r == name[|name| - |r|..]
  {
    var i := LastDot(name);
    if 0 < i < |name| - 1 then name[i..] else ""
  }

  /**
   * `path.extname(name)` for a bare file name: from the last dot, unless the
   * name has none, starts with its only dot, or is `..`. Unlike Python a
   * trailing dot counts (`"a."` has extension `"."`).
   */
  function JsExtname(name: string): (r: string)
    ensures r != "" ==> |r| < |name| && r[0] == '.' && r == name[|name| - |r|..]
  {
    var i := LastDot(name);
    if i <= 0 || name == ".." then "" else name[i..]
  }

  lemma SuffixesDisagreeOnTrailingDot()
    ensures PySuffix("notes.") == "" && JsExtname("notes.") == "."
  {
    assert LastDot("notes.") == 5;
  }

  lemma DotFilesHaveNoExtension(rest: string)
    requires '.' !in rest
    ensures PySuffix("." + rest) == "" && JsExtname("." + rest) == ""
  {
    var s := "." + rest;
    assert s[1..] == rest;
  }

  // ------------------------------------------------------------ exclusion

  /** Python: a configured name, or any name starting with a dot. */
  predicate ExcludedPy(cfg: Config, name: string) {
    name in cfg.excludePatterns || StartsWith(name, ".")
  }

  /** One element of a regular expression built from a wildcard pattern. */
  datatype Atom = Lit(c: char) | AnyChar | AnyRun

  /** Every `*` of the pattern becomes `.*`, as the Node.js script rewrites it. */
  function StarToDotStar(pattern: string): (r: string)
    ensures '*' !in pattern ==> r == pattern
  {
    if pattern == [] then []
    else (if pattern[0] == '*' then ".*" else [pattern[0]]) + StarToDotStar(pattern[1..])
  }

  /**
   * Reads a regular expression made of literal characters, `.` and `.*`
   * (the only constructs the configured patterns produce).
   */
  function Compile(src: string): seq<Atom>
    decreases |src|
  {
    if src == [] then []
    else if |src| >= 2 && src[0] == '.' && src[1] == '*' then [AnyRun] + Compile(src[2..])
    else if src[0] == '.' then [AnyChar] + Compile(src[1..])
    else [Lit(src[0])] + Compile(src[1..])
  }

  /** The atoms match a prefix of `w` (`.` never matches a line terminator). */
  predicate MatchPrefix(atoms: seq<Atom>, w: string)
    decreases |atoms|, |w|
  {
    if atoms == [] then true
    else match atoms[0]
      case Lit(c) => |w| > 0 && w[0] == c && MatchPrefix(atoms[1..], w[1..])
      case AnyChar => |w| > 0 && !IsLineTerminator(w[0]) && MatchPrefix(atoms[1..], w[1..])
      case AnyRun =>
        MatchPrefix(atoms[1..], w)
        || (|w| > 0 && !IsLineTerminator(w[0]) && MatchPrefix(atoms, w[1..]))
  }

  /** `RegExp.prototype.test`: the expression is not anchored at either end. */
  predicate RegexTest(atoms: seq<Atom>, s: string) {
    MatchPrefix(atoms, s) || (|s| > 0 && RegexTest(atoms, s[1..]))
  }

  /** The expression matches at some starting index of the string. */
  lemma {:induction false} RegexTestIff(atoms: seq<Atom>, s: string)
    ensures RegexTest(atoms, s) <==> exists k :: 0 <= k <= |s| && MatchPrefix(atoms, s[k..])
  {
    assert s[0..] == s;
    if |s| > 0 {
      RegexTestIff(atoms, s[1..]);
      forall k | 0 <= k < |s|
        ensures s[1..][k..] == s[k + 1..]
      {
      }
      if k :| 0 <= k <= |s| && MatchPrefix(atoms, s[k..]) {
        if k > 0 {
          assert s[1..][k - 1..] == s[k..];
        }
      }
    }
  }

  /** One Node.js pattern: a wildcard pattern becomes a regular expression, any other is compared exactly. */
  predicate PatternExcludes(pattern: string, name: string) {
    if '*' in pattern then RegexTest(Compile(StarToDotStar(pattern)), name) else name == pattern
  }

  /** Node.js: some configured pattern excludes the name (there is no dot-file rule). */
  predicate ExcludedJs(cfg: Config, name: string) {
    exists i :: 0 <= i < |cfg.excludePatterns| && PatternExcludes(cfg.excludePatterns[i], name)
  }

  /** `should_exclude` / `shouldExclude` under the configuration's own script. */
  predicate Excluded(cfg: Config, name: string) {
    if cfg.script == Py then ExcludedPy(cfg, name) else ExcludedJs(cfg, name)
  }

  function Lits(x: string): (r: seq<Atom>)
    ensures |r| == |x|
  {
    if x == [] then [] else [Lit(x[0])] + Lits(x[1..])
  }

  lemma {:induction false} CompileLetters(x: string)
    requires forall i :: 0 <= i < |x| ==> x[i] != '.'
    ensures Compile(x) == Lits(x)
  {
    if x != [] {
      CompileLetters(x[1..]);
    }
  }

  lemma {:induction false} MatchLits(x: string, w: string)
    ensures MatchPrefix(Lits(x), w) <==> StartsWith(w, x)
  {
    if x != [] {
      MatchLits(x[1..], if w == [] then [] else w[1..]);
      if |w| > 0 {
        assert (Lits(x))[1..] == Lits(x[1..]);
        if StartsWith(w[1..], x[1..]) && w[0] == x[0] {
          assert w[..|x|] == [w[0]] + w[1..][..|x| - 1];
          assert x == [x[0]] + x[1..];
        }
        if StartsWith(w, x) {
          assert w[1..][..|x| - 1] == w[..|x|][1..];
        }
      }
    }
  }

  /** A leading `.*` can always be taken as matching nothing. */
  lemma {:induction false} AnyRunSkips(rest: seq<Atom>, w: string)
    ensures MatchPrefix(rest, w) ==> MatchPrefix([AnyRun] + rest, w)
  {
    assert ([AnyRun] + rest)[1..] == rest;
  }

  /** A match after a leading `.*` is a match of the rest somewhere further on. */
  lemma {:induction false} AnyRunShifts(rest: seq<Atom>, w: string)
    requires MatchPrefix([AnyRun] + rest, w)
    ensures exists j :: 0 <= j <= |w| && MatchPrefix(rest, w[j..])
    decreases |w|
  {
    var atoms := [AnyRun] + rest;
    assert atoms[1..] == rest;
    if MatchPrefix(rest, w) {
      assert w[0..] == w;
    } else {
      AnyRunShifts(rest, w[1..]);
      var j :| 0 <= j <= |w[1..]| && MatchPrefix(rest, w[1..][j..]);
      assert w[1..][j..] == w[j + 1..];
    }
  }

  /** The atoms a `*.x` pattern compiles to: `.*`, `.`, then the letters of `x`. */
  lemma RewriteStarDot(x: string)
    requires forall i :: 0 <= i < |x| ==> x[i] != '*'
    ensures StarToDotStar("*." + x) == ".*" + ("." + x)
  {
    var pat := "*." + x;
    var q := pat[1..];
    assert pat[0] == '*' && q[0] == '.' && q[1..] == x;
    assert StarToDotStar(q) == "." + StarToDotStar(x);
  }

  lemma CompileRunStep(x: string)
    ensures Compile(".*" + ("." + x)) == [AnyRun] + Compile("." + x)
  {
    CompileAnyRun(".*" + ("." + x));
    assert (".*" + ("." + x))[2..] == "." + x;
  }

  lemma CompileDotStep(x: string)
    requires forall i :: 0 <= i < |x| ==> x[i] != '*'
    ensures Compile("." + x) == [AnyChar] + Compile(x)
  {
    var t := "." + x;
    assert t[0] == '.' && t[1..] == x;
    CompileAnyChar(t);
  }

  lemma CompileAnyRun(src: string)
    requires |src| >= 2 && src[0] == '.' && src[1] == '*'
    ensures Compile(src) == [AnyRun] + Compile(src[2..])
  {
  }

  lemma CompileAnyChar(src: string)
    requires |src| >= 1 && src[0] == '.' && (|src| == 1 || src[1] != '*')
    ensures Compile(src) == [AnyChar] + Compile(src[1..])
  {
  }

  lemma CompileStarDot(x: string)
    requires forall i :: 0 <= i < |x| ==> x[i] != '.' && x[i] != '*'
    ensures Compile(StarToDotStar("*." + x)) == [AnyRun] + ([AnyChar] + Lits(x))
  {
    RewriteStarDot(x);
    CompileRunStep(x);
    CompileDotStep(x);
    CompileLetters(x);
  }

  lemma StarDotMatchFound(x: string, s: string) returns (p: int)
    requires forall i :: 0 <= i < |x| ==> x[i] != '.' && x[i] != '*'
    requires RegexTest([AnyRun] + ([AnyChar] + Lits(x)), s)
    ensures 1 <= p <= |s| && OccursAt(s, x, p) && !IsLineTerminator(s[p - 1])
  {
    var tail := [AnyChar] + Lits(x);
    RegexTestIff([AnyRun] + tail, s);
    var k :| 0 <= k <= |s| && MatchPrefix([AnyRun] + tail, s[k..]);
    AnyRunShifts(tail, s[k..]);
    var j :| 0 <= j <= |s[k..]| && MatchPrefix(tail, s[k..][j..]);
    var w := s[k..][j..];
    assert w == s[k + j..];
    assert tail[1..] == Lits(x);
    assert |w| > 0 && !IsLineTerminator(w[0]) && MatchPrefix(Lits(x), w[1..]);
    MatchLits(x, w[1..]);
    p := k + j + 1;
    assert s[p - 1] == w[0];
    assert s[p..p + |x|] == w[1..][..|x|];
  }

  lemma StarDotMatchMade(x: string, s: string, p: int)
    requires forall i :: 0 <= i < |x| ==> x[i] != '.' && x[i] != '*'
    requires 1 <= p && OccursAt(s, x, p) && !IsLineTerminator(s[p - 1])
    ensures RegexTest([AnyRun] + ([AnyChar] + Lits(x)), s)
  {
    var tail := [AnyChar] + Lits(x);
    var w := s[p - 1..];
    assert w[1..] == s[p..];
    assert StartsWith(w[1..], x);
    MatchLits(x, w[1..]);
    assert tail[1..] == Lits(x);
    assert MatchPrefix(tail, w);
    AnyRunSkips(tail, w);
    assert MatchPrefix([AnyRun] + tail, s[p - 1..]);
    RegexTestIff([AnyRun] + tail, s);
  }

  /**
   * The regular expression a `*.x` pattern becomes (`.*.x`) finds `x` at
   * any index at least 1 whose preceding character is not a line
   * terminator: it is not a test of the name's ending.
   */
  lemma StarDotPattern(x: string, s: string)
    requires forall i :: 0 <= i < |x| ==> x[i] != '.' && x[i] != '*'
    ensures RegexTest(Compile(StarToDotStar("*." + x)), s) <==>
            exists p :: 1 <= p <= |s| && OccursAt(s, x, p) && !IsLineTerminator(s[p - 1])
  {
    CompileStarDot(x);
    if RegexTest([AnyRun] + ([AnyChar] + Lits(x)), s) {
      var p := StarDotMatchFound(x, s);
    }
    if p :| 1 <= p <= |s| && OccursAt(s, x, p) && !IsLineTerminator(s[p - 1]) {
      StarDotMatchMade(x, s, p);
    }
  }

  /** The Node.js patterns without a wildcard, compared exactly. */
  const ExactPatternsJs: set<string> :=
    {"node_modules", ".git", ".next", "dist", "build", ".turbo", "coverage",
     ".nyc_output", "logs", ".DS_Store", "Thumbs.db"}

  /** `x` occurs at an index of at least 1 that follows a character other than a line terminator. */
  predicate FoundAfterFirst(s: string, x: string) {
    exists p :: 1 <= p <= |s| && OccursAt(s, x, p) && !IsLineTerminator(s[p - 1])
  }

  lemma StarDotInstance(x: string, pattern: string, s: string)
    requires pattern == "*." + x
    requires forall i :: 0 <= i < |x| ==> x[i] != '.' && x[i] != '*'
    ensures PatternExcludes(pattern, s) <==> FoundAfterFirst(s, x)
  {
    assert pattern[0] == '*';
    StarDotPattern(x, s);
  }

  lemma ExactPatternAt(i: int)
    requires 0 <= i < |ExcludePatternsJs| && i != 9 && i != 12 && i != 13
    ensures '*' !in ExcludePatternsJs[i] && ExcludePatternsJs[i] in ExactPatternsJs
  {
  }

  lemma ExactPatternIndex(name: string) returns (i: int)
    requires name in ExactPatternsJs
    ensures 0 <= i < |ExcludePatternsJs| && i != 9 && i != 12 && i != 13
    ensures ExcludePatternsJs[i] == name
  {
    var ps := ExcludePatternsJs;
    i := if name == ps[0] then 0 else if name == ps[1] then 1 else if name == ps[2] then 2
      else if name == ps[3] then 3 else if name == ps[4] then 4 else if name == ps[5] then 5
      else if name == ps[6] then 6 else if name == ps[7] then 7 else if name == ps[8] then 8
      else if name == ps[10] then 10 else 11;
  }

  lemma LogPattern(name: string)
    ensures PatternExcludes(ExcludePatternsJs[9], name) <==> FoundAfterFirst(name, "log")
  {
    StarDotInstance("log", ExcludePatternsJs[9], name);
  }

  lemma TmpPattern(name: string)
    ensures PatternExcludes(ExcludePatternsJs[12], name) <==> FoundAfterFirst(name, "tmp")
  {
    StarDotInstance("tmp", ExcludePatternsJs[12], name);
  }

  lemma TempPattern(name: string)
    ensures PatternExcludes(ExcludePatternsJs[13], name) <==> FoundAfterFirst(name, "temp")
  {
    StarDotInstance("temp", ExcludePatternsJs[13], name);
  }

  /** A name some Node.js pattern excludes is an exact name or holds a wildcard's letters. */
  lemma ExcludedJsOnly(name: string, i: int)
    requires 0 <= i < |ExcludePatternsJs| && PatternExcludes(ExcludePatternsJs[i], name)
    ensures name in ExactPatternsJs || FoundAfterFirst(name, "log")
      || FoundAfterFirst(name, "tmp") || FoundAfterFirst(name, "temp")
  {
    if i == 9 {
      LogPattern(name);
    } else if i == 12 {
      TmpPattern(name);
    } else if i == 13 {
      TempPattern(name);
    } else {
      ExactPatternAt(i);
    }
  }

  /** Which pattern excludes a name that is exact or holds a wildcard's letters. */
  lemma ExcludingPattern(name: string) returns (i: int)
    requires name in ExactPatternsJs || FoundAfterFirst(name, "log")
      || FoundAfterFirst(name, "tmp") || FoundAfterFirst(name, "temp")
    ensures 0 <= i < |ExcludePatternsJs| && PatternExcludes(ExcludePatternsJs[i], name)
  {
    if name in ExactPatternsJs {
      i := ExactPatternIndex(name);
      ExactPatternAt(i);
    } else if FoundAfterFirst(name, "log") {
      LogPattern(name);
      i := 9;
    } else if FoundAfterFirst(name, "tmp") {
      TmpPattern(name);
      i := 12;
    } else {
      TempPattern(name);
      i := 13;
    }
  }

  /**
   * What the Node.js exclusion amounts to: one of the exact names, or
   * `log`, `tmp` or `temp` anywhere after the first character.
   */
  lemma ExcludedJsIff(name: string)
    ensures ExcludedJs(JsConfig, name) <==>
      name in ExactPatternsJs || FoundAfterFirst(name, "log")
      || FoundAfterFirst(name, "tmp") || FoundAfterFirst(name, "temp")
  {
    assert JsConfig.excludePatterns == ExcludePatternsJs;
    if ExcludedJs(JsConfig, name) {
      var i :| 0 <= i < |ExcludePatternsJs| && PatternExcludes(ExcludePatternsJs[i], name);
      ExcludedJsOnly(name, i);
    }
    if name in ExactPatternsJs || FoundAfterFirst(name, "log")
      || FoundAfterFirst(name, "tmp") || FoundAfterFirst(name, "temp") {
      var i := ExcludingPattern(name);
    }
  }

  /** `catalog.ts` is skipped by the Node.js script: it holds `log` after its first character. */
  lemma CatalogSourceExcludedByJs(name: string)
    requires name == "catalog.ts"
    ensures ExcludedJs(JsConfig, name)
  {
    assert name[4..7] == "log";
    assert OccursAt(name, "log", 4);
    assert FoundAfterFirst(name, "log");
    ExcludedJsIff(name);
  }

  /** The Python script keeps `catalog.ts`. */
  lemma CatalogSourceKeptByPy(name: string)
    requires name == "catalog.ts"
    ensures !ExcludedPy(PyConfig, name)
  {
    assert name[0] == 'c';
    assert |name| == 10;
  }

  // ------------------------------------------------------------ inclusion

  /** Python `str.isupper()`: some cased character, and no lower-case one. */
  predicate IsUpperPy(s: string) {
    (exists i :: 0 <= i < |s| && IsUpperChar(s[i]))
    && (forall i :: 0 <= i < |s| ==> !IsLowerChar(s[i]))
  }

  /** The Node.js test `/^[A-Z][A-Z_]*[A-Z]?$/`: a capital, then capitals and underscores. */
  predicate IsUpperSnakeJs(s: string) {
    |s| >= 1 && IsAsciiUpper(s[0]) && forall i :: 1 <= i < |s| ==> IsAsciiUpper(s[i]) || s[i] == '_'
  }

  function Extension(script: Script, name: string): string {
    Lower(if script == Py then PySuffix(name) else JsExtname(name))
  }

  /** A listed extension, or no extension and an all-capitals name (README, LICENSE). */
  predicate Included(cfg: Config, name: string) {
    var ext := Extension(cfg.script, name);
    if cfg.script == Py then (ext == "" && IsUpperPy(name)) || ext in cfg.includeExtensions
    else (ext == "" && IsUpperSnakeJs(name)) || ext in cfg.includeExtensions
  }

  // ------------------------------------------------------------ languages

  function LanguageOfExtension(script: Script, ext: string): string {
    if ext == ".ts" then "typescript"
    else if ext == ".tsx" then "tsx"
    else if ext == ".js" then "javascript"
    else if ext == ".jsx" then "jsx"
    else if ext == ".py" && script == Py then "python"
    else if ext == ".css" then "css"
    else if ext == ".scss" then "scss"
    else if ext == ".sass" then "sass"
    else if ext == ".less" then "less"
    else if ext == ".json" then "json"
    else if ext == ".md" then "markdown"
    else if ext == ".html" then "html"
    else if ext == ".xml" || ext == ".svg" then "xml"
    else if ext == ".yml" || ext == ".yaml" then "yaml"
    else "text"
  }

  /**
   * The code-fence language. Without an extension Python looks for
   * substrings of the lower-cased name; Node.js compares the whole name for
   * `dockerfile` and `makefile`, and names `gitignore` files `gitignore`.
   */
  function Language(script: Script, name: string): (r: string)
    ensures Extension(script, name) != "" ==> r == LanguageOfExtension(script, Extension(script, name))
  {
    var ext := Extension(script, name);
    var base := Lower(name);
    if ext != "" then LanguageOfExtension(script, ext)
    else if script == Py then
      if Contains(base, "dockerfile") then "dockerfile"
      else if Contains(base, "makefile") then "makefile"
      else if Contains(base, "gitignore") then "gitignore"
      else if Contains(base, "eslintrc") then "json"
      else "text"
    else
      if base == "dockerfile" then "dockerfile"
      else if base == "makefile" then "makefile"
      else if Contains(base, "gitignore") then "gitignore"
      else if Contains(base, "eslintrc") then "json"
      else "text"
  }

  /** Every language either script can produce comes from a fixed list. */
  lemma LanguageIsKnown(script: Script, name: string)
    ensures Language(script, name) in
      {"typescript", "tsx", "javascript", "jsx", "python", "css", "scss", "sass", "less",
       "json", "markdown", "html", "xml", "yaml", "text", "dockerfile", "makefile", "gitignore"}
  {
  }
}
