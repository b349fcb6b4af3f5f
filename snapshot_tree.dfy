/**
 * The "file structure" block of a snapshot: `create_file_tree` in
 * `scripts/create-snapshot.py` and `createFileTree` in
 * `scripts/create-snapshot.js`, plus the root listing both
 * `create_snapshot` functions write before it.
 */
module SnapshotTree {
  import opened Common
  import opened Sorting
  import opened SnapshotFs
  import opened SnapshotRules

  function Connector(isLast: bool): string {
    if isLast then "└── " else "├── "
  }

  /** The prefix added below an entry: blank under a last entry, a bar otherwise. */
  function Indent(isLast: bool): string {
    if isLast then "    " else "│   "
  }

  /** An entry appears in the tree: its name is not excluded and, for a file, it is included. */
  predicate Shown(cfg: Config, n: Node) {
    !Excluded(cfg, n.name) && (n.File? ==> Included(cfg, n.name))
  }

  /** The Python order: directories before files, then by lower-cased name. */
  predicate TreeOrder(a: Node, b: Node) {
    (a.Dir? && b.File?) || (a.Dir? == b.Dir? && LexLe(Lower(a.name), Lower(b.name)))
  }

  lemma TreeOrderPreorder()
    ensures Total(TreeOrder) && Transitive(TreeOrder)
  {
    LexLeTotalOrder();
  }

  /**
   * The entries of a directory that the tree lists, in the order it lists
   * them: Python sorts them, Node.js keeps the directory listing order.
   */
  function Listed(cfg: Config, children: seq<Node>): (r: seq<Node>)
    ensures forall x :: x in r <==> x in children && Shown(cfg, x)
  {
    var kept := Filter(children, (n: Node) => Shown(cfg, n));
    if cfg.script == Py then
      SortByMembers(kept, TreeOrder);
      SortBy(kept, TreeOrder)
    else kept
  }

  /** The Python listing is sorted: directories first, then names without regard to case. */
  lemma ListedPySorted(cfg: Config, children: seq<Node>)
    requires cfg.script == Py
    ensures SortedBy(Listed(cfg, children), TreeOrder)
  {
    TreeOrderPreorder();
    SortBySorted(Filter(children, (n: Node) => Shown(cfg, n)), TreeOrder);
  }

  /** The Node.js listing is the directory listing with the hidden entries removed. */
  lemma ListedJsKeepsOrder(cfg: Config, children: seq<Node>)
    requires cfg.script == Js
    ensures Listed(cfg, children) == Filter(children, (n: Node) => Shown(cfg, n))
  {
  }

  /**
   * The lines for directory `d` at nesting `depth`: nothing past the depth
   * limit or for an excluded name, otherwise `d/` after the connector and
   * then its listed entries one level further in.
   */
  function Tree(cfg: Config, d: Node, prefix: string, isLast: bool, depth: int): (r: string)
    requires d.Dir?
    ensures r == "" <==> depth > cfg.maxDepth || Excluded(cfg, d.name)
    ensures r != "" ==> StartsWith(r, prefix + Connector(isLast) + d.name + "/\n")
    decreases d, 1
  {
    if depth > cfg.maxDepth || Excluded(cfg, d.name) then ""
    else
      var head := prefix + Connector(isLast) + d.name + "/\n";
      var r := head + Entries(cfg, d, Listed(cfg, d.children), 0, prefix + Indent(isLast), depth);
      assert r[..|head|] == head;
      r
  }

  /**
   * The lines for `items[k..]`, the listed entries of `d`: a directory is
   * drawn by `Tree` one level deeper, a file is one line; only the last
   * entry gets the closing connector.
   */
  function Entries(cfg: Config, d: Node, items: seq<Node>, k: nat, newPrefix: string, depth: int): string
    requires d.Dir? && k <= |items|
    requires forall x :: x in items ==> x in d.children
    decreases d, 0, |items| - k
  {
    if k == |items| then ""
    else
      assert items[k] in d.children;
      EntryLine(cfg, items[k], newPrefix, k == |items| - 1, depth + 1)
        + Entries(cfg, d, items, k + 1, newPrefix, depth)
  }

  /** The text of one listed entry at nesting `depth`. */
  function EntryLine(cfg: Config, n: Node, newPrefix: string, last: bool, depth: int): string
    decreases n, 2
  {
    if n.Dir? then Tree(cfg, n, newPrefix, last, depth)
    else newPrefix + Connector(last) + n.name + "\n"
  }

  /**
   * The listing under the root line: root entries have no prefix, and its
   * directories start at depth 1.
   */
  function RootListing(cfg: Config, root: Node): string
    requires root.Dir?
  {
    Entries(cfg, root, Listed(cfg, root.children), 0, "", 0)
  }

  /**
   * `create_file_tree` / `createFileTree`: the header line of `d`, then the
   * text of each listed entry appended in turn.
   */
  method CreateFileTree(cfg: Config, d: Node, prefix: string, isLast: bool, depth: int)
    returns (tree: string)
    requires d.Dir?
    ensures tree == Tree(cfg, d, prefix, isLast, depth)
    decreases d, 1
  {
    if depth > cfg.maxDepth || Excluded(cfg, d.name) {
      return "";
    }
    tree := prefix + Connector(isLast) + d.name + "/\n";
    var items := Listed(cfg, d.children);
    var newPrefix := prefix + Indent(isLast);
    ghost var head := tree;
    var i := 0;
    while i < |items|
      invariant 0 <= i <= |items|
      invariant tree + Entries(cfg, d, items, i, newPrefix, depth)
             == head + Entries(cfg, d, items, 0, newPrefix, depth)
    {
      var line := EntryText(cfg, d, items, i, newPrefix, depth);
      EntriesStep(cfg, d, items, i, newPrefix, depth, line, tree);
      tree := tree + line;
      i := i + 1;
    }
    TreeUnfold(cfg, d, prefix, isLast, depth);
  }

  /** The text of the `k`-th listed entry: a subtree for a directory, one line for a file. */
  method EntryText(cfg: Config, d: Node, items: seq<Node>, k: nat, newPrefix: string, depth: int)
    returns (line: string)
    requires d.Dir? && k < |items|
    requires forall x :: x in items ==> x in d.children
    ensures line == EntryLine(cfg, items[k], newPrefix, k == |items| - 1, depth + 1)
    decreases d, 0
  {
    assert items[k] in d.children;
    if items[k].Dir? {
      line := CreateFileTree(cfg, items[k], newPrefix, k == |items| - 1, depth + 1);
    } else {
      line := newPrefix + Connector(k == |items| - 1) + items[k].name + "\n";
    }
  }

  /** The root part of `create_snapshot` / `createSnapshot` that lists the source directory. */
  method ListRoot(cfg: Config, root: Node) returns (listing: string)
    requires root.Dir?
    ensures listing == RootListing(cfg, root)
  {
    var items := Listed(cfg, root.children);
    ghost var whole := RootListing(cfg, root);
    assert Entries(cfg, root, items, 0, "", 0) == whole;
    listing := "";
    var i := 0;
    while i < |items|
      invariant 0 <= i <= |items|
      invariant listing + Entries(cfg, root, items, i, "", 0) == whole
    {
      var line := EntryText(cfg, root, items, i, "", 0);
      EntriesStep(cfg, root, items, i, "", 0, line, listing);
      listing := listing + line;
      i := i + 1;
    }
  }

  /** An entry the filters keep is drawn as a header line followed by its entries. */
  lemma TreeUnfold(cfg: Config, d: Node, prefix: string, isLast: bool, depth: int)
    requires d.Dir? && !(depth > cfg.maxDepth || Excluded(cfg, d.name))
    ensures Tree(cfg, d, prefix, isLast, depth)
         == (prefix + Connector(isLast) + d.name + "/\n")
            + Entries(cfg, d, Listed(cfg, d.children), 0, prefix + Indent(isLast), depth)
            + Entries(cfg, d, Listed(cfg, d.children), |Listed(cfg, d.children)|, prefix + Indent(isLast), depth)
  {
  }

  /** Appending the line of entry `k` leaves the lines of the entries after it to come. */
  lemma EntriesStep(cfg: Config, d: Node, items: seq<Node>, k: nat, newPrefix: string, depth: int,
                    line: string, acc: string)
    requires d.Dir? && k < |items|
    requires forall x :: x in items ==> x in d.children
    requires line == EntryLine(cfg, items[k], newPrefix, k == |items| - 1, depth + 1)
    ensures (acc + line) + Entries(cfg, d, items, k + 1, newPrefix, depth)
         == acc + Entries(cfg, d, items, k, newPrefix, depth)
  {
    assert Entries(cfg, d, items, k, newPrefix, depth)
        == line + Entries(cfg, d, items, k + 1, newPrefix, depth);
  }

  /** A directory below the depth limit contributes nothing, however much it holds. */
  lemma TooDeepIsEmpty(cfg: Config, d: Node, prefix: string, isLast: bool, depth: int)
    requires d.Dir? && depth > cfg.maxDepth
    ensures Tree(cfg, d, prefix, isLast, depth) == ""
  {
  }

  lemma NodeModulesExcluded(cfg: Config, name: string)
    requires cfg == PyConfig || cfg == JsConfig
    requires name == "node_modules"
    ensures Excluded(cfg, name)
  {
    if cfg == JsConfig {
      assert name in ExactPatternsJs;
      ExcludedJsIff(name);
    } else {
      assert name == PyConfig.excludePatterns[0];
    }
  }

  /** An excluded directory (such as `node_modules`) contributes nothing in either script. */
  lemma NodeModulesHidden(cfg: Config, d: Node, prefix: string, isLast: bool, depth: int)
    requires cfg == PyConfig || cfg == JsConfig
    requires d.Dir? && d.name == "node_modules"
    ensures Tree(cfg, d, prefix, isLast, depth) == ""
  {
    NodeModulesExcluded(cfg, d.name);
  }
}
