/**
 * The files whose contents a snapshot includes: `collect_files` in
 * `scripts/create-snapshot.py` (a walk with `rglob('*')` filtered on the
 * whole absolute path) and `collectFiles` in `scripts/create-snapshot.js`
 * (a depth-bounded recursive walk that does not enter excluded
 * directories).
 */
module SnapshotCollect {
  import opened Common
  import opened SnapshotFs
  import opened SnapshotRules

  // ------------------------------------------------------------ Python

  /**
   * Some component of the file's absolute path is excluded: the components
   * of the resolved snapshot root (`sourceParts`), the directories below it,
   * or the file name.
   */
  predicate PathExcludedPy(cfg: Config, sourceParts: seq<string>, f: Found) {
    exists p :: p in sourceParts + f.dirs + [f.name] && Excluded(cfg, p)
  }

  /** The three tests `collect_files` applies to each file `rglob` yields. */
  predicate KeptPy(cfg: Config, sourceParts: seq<string>, f: Found) {
    !PathExcludedPy(cfg, sourceParts, f) && Included(cfg, f.name) && f.size <= cfg.maxFileSize
  }

  /** The files of the enumeration `found` that `collect_files` keeps, in enumeration order. */
  function CollectedPy(cfg: Config, sourceParts: seq<string>, found: seq<Found>): seq<Found> {
    Filter(found, (f: Found) => KeptPy(cfg, sourceParts, f))
  }

  /**
   * `collect_files`: appends every file of the enumeration that passes the
   * three tests. `found` is what `rglob('*')` yields once directories are
   * skipped; it is not bounded by `max_depth`.
   */
  method CollectFilesPy(cfg: Config, sourceParts: seq<string>, found: seq<Found>)
    returns (files: seq<Found>)
    ensures files == CollectedPy(cfg, sourceParts, found)
  {
    files := [];
    var i := 0;
    while i < |found|
      invariant 0 <= i <= |found|
      invariant files == CollectedPy(cfg, sourceParts, found[..i])
    {
      var item := found[i];
      var excluded := AnyExcluded(cfg, sourceParts + item.dirs + [item.name]);
      assert found[..i + 1] == found[..i] + [item];
      FilterAppend(found[..i], item, (f: Found) => KeptPy(cfg, sourceParts, f));
      if !excluded && Included(cfg, item.name) && item.size <= cfg.maxFileSize {
        files := files + [item];
      }
      i := i + 1;
    }
    assert found[..i] == found;
  }

  /** `any(should_exclude(part, True) for part in parts)`. */
  method AnyExcluded(cfg: Config, parts: seq<string>) returns (excluded: bool)
    ensures excluded <==> exists p :: p in parts && Excluded(cfg, p)
  {
    excluded := false;
    var j := 0;
    while j < |parts| && !excluded
      invariant 0 <= j <= |parts|
      invariant excluded <==> exists k :: 0 <= k < j && Excluded(cfg, parts[k])
    {
      excluded := Excluded(cfg, parts[j]);
      if !excluded {
        assert forall k :: 0 <= k < j + 1 && Excluded(cfg, parts[k]) ==> k < j;
      }
      j := j + 1;
    }
    if excluded {
      var k :| 0 <= k < j && Excluded(cfg, parts[k]);
      assert parts[k] in parts;
    } else {
      assert forall p :: p in parts ==> exists k :: 0 <= k < |parts| && parts[k] == p;
    }
  }

  /** A file is collected exactly when it was enumerated and passes the three tests; depth plays no part. */
  lemma CollectedPyIff(cfg: Config, sourceParts: seq<string>, found: seq<Found>, f: Found)
    ensures f in CollectedPy(cfg, sourceParts, found) <==>
      f in found
      && (forall p :: p in sourceParts + f.dirs + [f.name] ==> !Excluded(cfg, p))
      && Included(cfg, f.name) && f.size <= cfg.maxFileSize
  {
  }

  /**
   * An excluded component above the snapshot root (a source directory
   * inside `build/` or under a dot-directory, say) leaves nothing to collect.
   */
  lemma ExcludedAncestorHidesAll(cfg: Config, sourceParts: seq<string>, found: seq<Found>, i: int)
    requires 0 <= i < |sourceParts| && Excluded(cfg, sourceParts[i])
    ensures CollectedPy(cfg, sourceParts, found) == []
  {
    var keep := (f: Found) => KeptPy(cfg, sourceParts, f);
    forall f | f in found
      ensures !keep(f)
    {
      assert sourceParts[i] in sourceParts + f.dirs + [f.name];
    }
    FilterNone(found, keep);
  }

  // ------------------------------------------------------------ Node.js

  /**
   * `collectFiles(dir, depth)` for a directory with entries `children`
   * reached through `dirs`: nothing past the depth limit, otherwise the files
   * of its entries in listing order.
   */
  function CollectJs(cfg: Config, children: seq<Node>, dirs: seq<string>, depth: int): seq<Found>
    decreases children, 1
  {
    if depth > cfg.maxDepth then [] else CollectItems(cfg, children, dirs, depth)
  }

  /** The files the loop of `collectFiles` gathers from `children`. */
  function CollectItems(cfg: Config, children: seq<Node>, dirs: seq<string>, depth: int): seq<Found>
    decreases children, 0
  {
    if children == [] then []
    else ItemFiles(cfg, children[0], dirs, depth) + CollectItems(cfg, children[1..], dirs, depth)
  }

  /** One entry: skipped when excluded, expanded one level deeper when a directory, kept when an included file small enough. */
  function ItemFiles(cfg: Config, n: Node, dirs: seq<string>, depth: int): seq<Found>
    decreases n, 2
  {
    if Excluded(cfg, n.name) then []
    else match n
      case Dir(name, cs) => CollectJs(cfg, cs, dirs + [name], depth + 1)
      case File(name, size, c) =>
        if Included(cfg, name) && size <= cfg.maxFileSize then [Found(dirs, name, size, c)] else []
  }

  /** `collectFiles`: the recursive walk, pushing each entry's files in turn. */
  method CollectFilesJs(cfg: Config, children: seq<Node>, dirs: seq<string>, depth: int)
    returns (files: seq<Found>)
    ensures files == CollectJs(cfg, children, dirs, depth)
    decreases children, 1
  {
    if depth > cfg.maxDepth {
      return [];
    }
    files := [];
    var i := 0;
    while i < |children|
      invariant 0 <= i <= |children|
      invariant files + CollectItems(cfg, children[i..], dirs, depth) == CollectItems(cfg, children, dirs, depth)
    {
      var more := EntryFiles(cfg, children, i, dirs, depth);
      assert children[i..][1..] == children[i + 1..];
      files := files + more;
      i := i + 1;
    }
    assert files + [] == files;
  }

  /** The files of entry `k`, recursing into a directory. */
  method EntryFiles(cfg: Config, children: seq<Node>, k: nat, dirs: seq<string>, depth: int)
    returns (more: seq<Found>)
    requires k < |children|
    ensures more == ItemFiles(cfg, children[k], dirs, depth)
    decreases children, 0
  {
    var item := children[k];
    assert item in children;
    if Excluded(cfg, item.name) {
      more := [];
    } else if item.Dir? {
      more := CollectFilesJs(cfg, item.children, dirs + [item.name], depth + 1);
    } else if Included(cfg, item.name) && item.size <= cfg.maxFileSize {
      more := [Found(dirs, item.name, item.size, item.content)];
    } else {
      more := [];
    }
  }

  /**
   * What the walk keeps from below `dirs` when it starts at nesting `depth`:
   * the file's own directory is within the depth limit, no directory below
   * `dirs` on its path is excluded, and the file itself passes the tests.
   */
  predicate KeptJsBelow(cfg: Config, f: Found, k: nat, depth: int) {
    depth + |f.dirs| - k <= cfg.maxDepth
    && (forall i :: k <= i < |f.dirs| ==> !Excluded(cfg, f.dirs[i]))
    && !Excluded(cfg, f.name) && Included(cfg, f.name) && f.size <= cfg.maxFileSize
  }

  /** The Node.js tests from the snapshot root. */
  predicate KeptJs(cfg: Config, f: Found) {
    KeptJsBelow(cfg, f, 0, 0)
  }

  lemma {:induction false} CollectItemsIff(cfg: Config, children: seq<Node>, dirs: seq<string>, depth: int, f: Found)
    requires depth <= cfg.maxDepth
    ensures f in CollectItems(cfg, children, dirs, depth) <==>
            f in FilesBelow(children, dirs) && KeptJsBelow(cfg, f, |dirs|, depth)
    decreases children
  {
    if children != [] {
      CollectItemsIff(cfg, children[1..], dirs, depth, f);
      var n := children[0];
      assert n in children;
      var below := match n
        case File(name, sz, c) => [Found(dirs, name, sz, c)]
        case Dir(name, cs) => FilesBelow(cs, dirs + [name]);
      assert FilesBelow(children, dirs) == below + FilesBelow(children[1..], dirs);
      assert CollectItems(cfg, children, dirs, depth)
          == ItemFiles(cfg, n, dirs, depth) + CollectItems(cfg, children[1..], dirs, depth);
      assert f in ItemFiles(cfg, n, dirs, depth) <==> f in below && KeptJsBelow(cfg, f, |dirs|, depth) by {
        ItemFilesIff(cfg, n, dirs, depth, f);
      }
    }
  }

  lemma {:induction false} ItemFilesIff(cfg: Config, n: Node, dirs: seq<string>, depth: int, f: Found)
    requires depth <= cfg.maxDepth
    ensures f in ItemFiles(cfg, n, dirs, depth) <==>
            f in (match n
                  case File(name, sz, c) => [Found(dirs, name, sz, c)]
                  case Dir(name, cs) => FilesBelow(cs, dirs + [name]))
            && KeptJsBelow(cfg, f, |dirs|, depth)
    decreases n
  {
    if n.Dir? {
      DirFilesIff(cfg, n, dirs, depth, f);
    }
  }

  lemma {:induction false} DirFilesIff(cfg: Config, n: Node, dirs: seq<string>, depth: int, f: Found)
    requires depth <= cfg.maxDepth && n.Dir?
    ensures f in ItemFiles(cfg, n, dirs, depth) <==>
            f in FilesBelow(n.children, dirs + [n.name]) && KeptJsBelow(cfg, f, |dirs|, depth)
    decreases n, 0
  {
    var below := FilesBelow(n.children, dirs + [n.name]);
    if f in below {
      KeptJsBelowStep(cfg, f, dirs, n.name, depth);
    }
    if !Excluded(cfg, n.name) && depth + 1 <= cfg.maxDepth {
      CollectItemsIff(cfg, n.children, dirs + [n.name], depth + 1, f);
    }
  }

  /** Passing the tests below `dirs` is passing them for the next directory and below it. */
  lemma KeptJsBelowStep(cfg: Config, f: Found, dirs: seq<string>, name: string, depth: int)
    requires |dirs| + 1 <= |f.dirs| && f.dirs[..|dirs| + 1] == dirs + [name]
    ensures KeptJsBelow(cfg, f, |dirs|, depth) <==>
            !Excluded(cfg, name) && KeptJsBelow(cfg, f, |dirs| + 1, depth + 1)
  {
    var k := |dirs|;
    assert f.dirs[k] == (f.dirs[..k + 1])[k] == name;
    if !Excluded(cfg, name) && KeptJsBelow(cfg, f, k + 1, depth + 1) {
      forall i | k <= i < |f.dirs|
        ensures !Excluded(cfg, f.dirs[i])
      {
        if i > k {
          assert k + 1 <= i;
        }
      }
    }
  }

  /**
   * A file is collected by the Node.js walk exactly when it lies in the
   * tree, at most `maxDepth` directories down, with no excluded directory
   * on its path, and passes the file tests.
   */
  lemma CollectedJsIff(cfg: Config, root: Node, f: Found)
    requires root.Dir?
    ensures f in CollectJs(cfg, root.children, [], 0) <==> f in FilesBelow(root.children, []) && KeptJs(cfg, f)
  {
    CollectItemsIff(cfg, root.children, [], 0, f);
  }
}
