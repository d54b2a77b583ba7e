/** The file tree service: the JSON tree of a directory, built recursively, each directory's
    children listed folders first and then files, by lower-cased name, with hidden and noise
    entries left out. */
module FileTree {
  import opened Text
  import opened SeqUtil
  import opened Sorting

  /** A path on disk as `os.scandir` reports it: its name, whether it is a directory, whether it
      can be listed, and the entries listing it yields, in the order it yields them. */
  datatype FsNode = FsNode(name: string, isDir: bool, readable: bool, entries: seq<FsNode>)

  /** A node of the JSON tree; only directories carry `children`. */
  datatype Tree =
    | FileNode(name: string, path: string)
    | DirNode(name: string, path: string, children: seq<Tree>)

  /** The node's "type" field. */
  function Kind(t: Tree): string
  {
    if t.DirNode? then "directory" else "file"
  }

  /** `os.path.join(path, name)` for a plain name. */
  function JoinPath(path: string, name: string): string
  {
    if path == "" || path[|path| - 1] == '/' then path + name else path + "/" + name
  }

  /** Entries the tree leaves out: hidden ones and common noise. */
  predicate Hidden(name: string)
  {
    StartsWith(name, ".") || name in {"__pycache__", "venv", "node_modules", "wiki_docs"}
  }

  predicate Shown(e: FsNode)
  {
    !Hidden(e.name)
  }

  // ---------------------------------------------------------------- ordering

  /** The sort key `(not e.is_dir(), e.name.lower())`: directories first, then by lower-cased name. */
  predicate KeyLess(a: FsNode, b: FsNode)
  {
    (a.isDir && !b.isDir) || (a.isDir == b.isDir && LexLess(Lower(a.name), Lower(b.name)))
  }

  lemma KeyLessTransitive(a: FsNode, b: FsNode, c: FsNode)
    requires KeyLess(a, b) && KeyLess(b, c)
    ensures KeyLess(a, c)
  {
    if a.isDir == b.isDir && b.isDir == c.isDir {
      LexLessTransitive(Lower(a.name), Lower(b.name), Lower(c.name));
    }
  }

  lemma KeyLessIrreflexive(a: FsNode)
    ensures !KeyLess(a, a)
  {
    LexLessIrreflexive(Lower(a.name));
  }

  predicate KeySorted(s: seq<FsNode>)
  {
    forall i, j :: 0 <= i < j < |s| ==> !KeyLess(s[j], s[i])
  }

  /** An entry below the first of a sorted list is below none of it. */
  lemma BelowHead(x: FsNode, s: seq<FsNode>)
    requires KeySorted(s) && |s| > 0 && KeyLess(x, s[0])
    ensures forall j :: 0 <= j < |s| ==> !KeyLess(s[j], x)
  {
    forall j | 0 <= j < |s|
      ensures !KeyLess(s[j], x)
    {
      if KeyLess(s[j], x) {
        KeyLessTransitive(s[j], x, s[0]);
        KeyLessIrreflexive(s[0]);
      }
    }
  }

  /** What remains after the first of a sorted list, with an entry not below that first one
      added, holds nothing below it. */
  lemma NoneBelowHead(s: seq<FsNode>, x: FsNode, rest: seq<FsNode>)
    requires KeySorted(s) && |s| > 0 && !KeyLess(x, s[0])
    requires multiset(rest) == multiset(s[1..]) + multiset{x}
    ensures forall j :: 0 <= j < |rest| ==> !KeyLess(rest[j], s[0])
  {
    forall j | 0 <= j < |rest|
      ensures !KeyLess(rest[j], s[0])
    {
      assert rest[j] in multiset(rest);
      if rest[j] != x {
        assert rest[j] in s[1..];
        var k :| 0 <= k < |s[1..]| && s[1..][k] == rest[j];
        assert s[k + 1] == rest[j];
      }
    }
  }

  /** `x` put after every element of `s` it is not below, so that equal keys keep their order. */
  function InsertEntry(x: FsNode, s: seq<FsNode>): (r: seq<FsNode>)
    requires KeySorted(s)
    ensures KeySorted(r) && multiset(r) == multiset(s) + multiset{x}
  {
    if |s| == 0 then [x]
    else if KeyLess(x, s[0]) then
      BelowHead(x, s);
      [x] + s
    else
      var rest := InsertEntry(x, s[1..]);
      assert s == [s[0]] + s[1..];
      NoneBelowHead(s, x, rest);
      [s[0]] + rest
  }

  /** `entries.sort(key=...)`: ordered by the key, the same entries. */
  function SortEntries(s: seq<FsNode>): (r: seq<FsNode>)
    ensures KeySorted(r) && |r| == |s|
    ensures forall e :: e in r <==> e in s
  {
    if |s| == 0 then []
    else
      assert s == s[..|s| - 1] + [s[|s| - 1]];
      var r := InsertEntry(s[|s| - 1], SortEntries(s[..|s| - 1]));
      assert forall e :: e in r <==> e in multiset(r);
      assert |r| == |multiset(r)|;
      r
  }

  /** Sorting only reorders: each entry occurs as often as before. */
  lemma {:induction false} SortEntriesPermutes(s: seq<FsNode>)
    ensures multiset(SortEntries(s)) == multiset(s)
  {
    if |s| > 0 {
      SortEntriesPermutes(s[..|s| - 1]);
      assert s == s[..|s| - 1] + [s[|s| - 1]];
    }
  }

  /** Leaving entries out keeps the rest in key order. */
  lemma {:induction false} FilterKeySorted(s: seq<FsNode>)
    requires KeySorted(s)
    ensures KeySorted(Filter(s, Shown))
  {
    if |s| > 0 {
      var init := s[..|s| - 1];
      FilterKeySorted(init);
      var f := Filter(init, Shown);
      var last := s[|s| - 1];
      var r := Filter(s, Shown);
      assert r == f + if Shown(last) then [last] else [];
      forall i, j | 0 <= i < j < |r|
        ensures !KeyLess(r[j], r[i])
      {
        if j >= |f| {
          assert r[i] in f;
          var k :| 0 <= k < |init| && init[k] == r[i];
          assert s[k] == r[i];
        }
      }
    }
  }

  // ---------------------------------------------------------------- the tree

  /** `_build_tree(path, name)` on the path `node`. */
  function TreeOf(path: string, name: string, node: FsNode): (r: Tree)
    ensures r.name == name && r.path == path
    ensures Kind(r) == "directory" <==> node.isDir
    ensures r.DirNode? && !node.readable ==> r.children == []
    decreases node, 1
  {
    if !node.isDir then FileNode(name, path)
    else if !node.readable then DirNode(name, path, [])
    else
      var shown := Filter(SortEntries(node.entries), Shown);
      DirNode(name, path, ChildrenOf(path, node, shown))
  }

  /** The nodes of the entries `es` of `node`, in order. */
  function ChildrenOf(path: string, node: FsNode, es: seq<FsNode>): (r: seq<Tree>)
    requires forall e :: e in es ==> e in node.entries
    ensures |r| == |es|
    decreases node, 0, |es|
  {
    if |es| == 0 then []
    else
      var e := es[|es| - 1];
      assert e < node by {
        assert e in es;
        var k :| 0 <= k < |node.entries| && node.entries[k] == e;
      }
      ChildrenOf(path, node, es[..|es| - 1]) + [TreeOf(JoinPath(path, e.name), e.name, e)]
  }

  lemma ChildrenOfSnoc(path: string, node: FsNode, es: seq<FsNode>, e: FsNode)
    requires forall x :: x in es + [e] ==> x in node.entries
    ensures ChildrenOf(path, node, es + [e]) == ChildrenOf(path, node, es) + [TreeOf(JoinPath(path, e.name), e.name, e)]
  {
    assert (es + [e])[..|es|] == es;
  }

  /** Each child is built by the same rule from its entry, under the joined path. */
  lemma {:induction false} ChildrenOfEach(path: string, node: FsNode, es: seq<FsNode>)
    requires forall e :: e in es ==> e in node.entries
    ensures forall k :: 0 <= k < |es| ==>
      ChildrenOf(path, node, es)[k] == TreeOf(JoinPath(path, es[k].name), es[k].name, es[k])
  {
    if |es| > 0 {
      var init := es[..|es| - 1];
      assert forall e :: e in init ==> e in es;
      ChildrenOfEach(path, node, init);
      var cs := ChildrenOf(path, node, es);
      assert cs[..|init|] == ChildrenOf(path, node, init);
      forall k | 0 <= k < |es|
        ensures cs[k] == TreeOf(JoinPath(path, es[k].name), es[k].name, es[k])
      {
        if k < |init| {
          assert cs[k] == cs[..|init|][k];
          assert es[k] == init[k];
        }
      }
    }
  }

  /** `get_file_tree`: the tree of the root, named after the last component of its path. */
  function GetFileTree(rootPath: string, root: FsNode): (r: Tree)
    ensures r.name == Basename(rootPath) && r.path == rootPath
    ensures forall k :: 0 <= k < |r.name| ==> r.name[k] != '/'
  {
    HeadAndBase(rootPath);
    TreeOf(rootPath, Basename(rootPath), root)
  }

  /** `FileTreeService._build_tree`. */
  method BuildTree(path: string, name: string, node: FsNode) returns (t: Tree)
    ensures t == TreeOf(path, name, node)
    decreases node, 2
  {
    if !node.isDir {
      return FileNode(name, path);
    }
    var children: seq<Tree> := [];
    if node.readable {
      var sorted := SortEntries(node.entries);
      children := BuildEach(path, node, sorted);
    }
    t := DirNode(name, path, children);
  }

  /** The loop over a directory's sorted entries. */
  method BuildEach(path: string, node: FsNode, es: seq<FsNode>) returns (children: seq<Tree>)
    requires forall e :: e in es ==> e in node.entries
    ensures children == ChildrenOf(path, node, Filter(es, Shown))
    decreases node, 1
  {
    children := [];
    ghost var shown: seq<FsNode> := [];
    for i := 0 to |es|
      invariant shown == Filter(es[..i], Shown)
      invariant forall x :: x in shown ==> x in node.entries
      invariant children == ChildrenOf(path, node, shown)
    {
      var e := es[i];
      ShownStep(node, es, i);
      children := AddChild(path, node, shown, children, e);
      shown := shown + if Shown(e) then [e] else [];
    }
    assert es[..|es|] == es;
  }

  /** The entries shown among the first `i + 1`: those among the first `i`, then the next one
      unless it is hidden. */
  lemma ShownStep(node: FsNode, es: seq<FsNode>, i: nat)
    requires i < |es| && forall e :: e in es ==> e in node.entries
    ensures es[i] in node.entries
    ensures Filter(es[..i + 1], Shown) == Filter(es[..i], Shown) + if Shown(es[i]) then [es[i]] else []
  {
    assert es[..i + 1] == es[..i] + [es[i]];
    FilterSnoc(es[..i], es[i], Shown);
  }

  /** One turn of the loop: a hidden entry is skipped, any other appended as its own tree. */
  method AddChild(path: string, node: FsNode, ghost shown: seq<FsNode>, children: seq<Tree>, e: FsNode)
    returns (next: seq<Tree>)
    requires e in node.entries && forall x :: x in shown ==> x in node.entries
    requires children == ChildrenOf(path, node, shown)
    ensures next == ChildrenOf(path, node, shown + if Shown(e) then [e] else [])
    decreases node, 0
  {
    if Hidden(e.name) {
      assert shown + [] == shown;
      return children;
    }
    ChildrenOfSnoc(path, node, shown, e);
    assert e < node by {
      var k :| 0 <= k < |node.entries| && node.entries[k] == e;
    }
    var child := BuildTree(JoinPath(path, e.name), e.name, e);
    next := children + [child];
  }

  /** The order of the tree's children: directories first, then by lower-cased name. */
  predicate TreeKeyLess(a: Tree, b: Tree)
  {
    (a.DirNode? && !b.DirNode?) || (a.DirNode? == b.DirNode? && LexLess(Lower(a.name), Lower(b.name)))
  }

  /** A listed directory's children are the nodes of its shown entries, every one of them, each
      built by the same rule, and ordered directories first and then by lower-cased name. */
  lemma ChildrenListed(path: string, name: string, node: FsNode)
    requires node.isDir && node.readable
    ensures var cs := TreeOf(path, name, node).children;
      (forall i, j :: 0 <= i < j < |cs| ==> !TreeKeyLess(cs[j], cs[i]))
      && (forall c :: c in cs ==> !Hidden(c.name))
      && (forall c :: c in cs <==>
            exists e :: e in node.entries && Shown(e) && c == TreeOf(JoinPath(path, e.name), e.name, e))
  {
    var sorted := SortEntries(node.entries);
    var shown := Filter(sorted, Shown);
    FilterKeySorted(sorted);
    var cs := ChildrenOf(path, node, shown);
    ChildrenOfEach(path, node, shown);
    assert TreeOf(path, name, node).children == cs;
    forall i, j | 0 <= i < j < |cs|
      ensures !TreeKeyLess(cs[j], cs[i])
    {
      assert !KeyLess(shown[j], shown[i]);
    }
    forall c | c in cs
      ensures exists e :: e in node.entries && Shown(e) && c == TreeOf(JoinPath(path, e.name), e.name, e)
    {
      var k :| 0 <= k < |cs| && cs[k] == c;
      assert shown[k] in shown;
    }
    forall e | e in node.entries && Shown(e)
      ensures TreeOf(JoinPath(path, e.name), e.name, e) in cs
    {
      var k :| 0 <= k < |shown| && shown[k] == e;
      assert cs[k] == TreeOf(JoinPath(path, e.name), e.name, e);
    }
  }
}
