/** The repository as the technology scanners see it: the paths `Path.rglob("*")` yields under
    the root, in that order, with what `pathlib` says about each; and the dictionaries the
    scanners report, with their keys in insertion order. */
module RepoFiles {
  import opened Wrappers
  import opened Text
  import opened SeqUtil

  /** One path under the root: its components below the root, whether it is a regular file, its
      text when it can be read (None for directories and unreadable files) and its size in bytes. */
  datatype FsEntry = FsEntry(rel: seq<string>, isFile: bool, text: Option<string>, size: nat)

  /** A repository: the components of its root path and the paths found under it. */
  datatype Repo = Repo(root: seq<string>, entries: seq<FsEntry>)

  /** `path.parts`. */
  function Parts(root: seq<string>, e: FsEntry): seq<string>
  {
    root + e.rel
  }

  /** `str(path)`: the components joined with "/". An absolute root is a leading "" component, so
      it gives a doubled "//" where the source's path would give a single "/". */
  function PathString(root: seq<string>, e: FsEntry): string
  {
    Join(root + e.rel, "/")
  }

  /** The last component of a path, "" for an empty one. */
  function LastPart(parts: seq<string>): string
  {
    if |parts| == 0 then "" else parts[|parts| - 1]
  }

  /** `path.name`. */
  function Name(root: seq<string>, e: FsEntry): string
  {
    LastPart(root + e.rel)
  }

  /** `path.parent`, as components. */
  function ParentParts(root: seq<string>, e: FsEntry): seq<string>
  {
    var parts := root + e.rel;
    if |parts| == 0 then [] else parts[..|parts| - 1]
  }

  /** `PurePath.suffix` of a name: from its last '.' on, unless that dot leads the name or ends it. */
  function Suffix(name: string): (r: string)
    ensures r == "" || (|r| >= 2 && r[0] == '.' && EndsWith(name, r) && |r| < |name|)
    ensures r != "" ==> forall k :: 1 <= k < |r| ==> r[k] != '.'
  {
    match LastIndexOf(name, '.')
      case None => ""
      case Some(i) => if 0 < i < |name| - 1 then name[i..] else ""
  }

  /** A path skipped by a scanner's `_iter_repo_files`: one of its components is on the denylist. */
  predicate Denied(parts: seq<string>, denylist: seq<string>)
  {
    exists p :: p in denylist && p in parts
  }

  /** `f` of each entry of `es` that satisfies `p`, in order: what a scan loop appends to one of
      its lists. */
  function Collect<U(==,!new)>(es: seq<FsEntry>, p: FsEntry -> bool, f: FsEntry -> U): (r: seq<U>)
    ensures |r| <= |es|
    ensures forall x :: x in r <==> exists k :: 0 <= k < |es| && p(es[k]) && x == f(es[k])
  {
    if |es| == 0 then []
    else
      var init := es[..|es| - 1];
      assert forall k :: 0 <= k < |init| ==> init[k] == es[k];
      Collect(init, p, f) + if p(es[|es| - 1]) then [f(es[|es| - 1])] else []
  }

  /** Nothing is collected exactly when no entry satisfies the predicate. */
  lemma CollectEmpty<U(!new)>(es: seq<FsEntry>, p: FsEntry -> bool, f: FsEntry -> U)
    ensures Collect(es, p, f) == [] <==> forall e :: e in es ==> !p(e)
  {
    var r := Collect(es, p, f);
    if r != [] {
      assert r[0] in r;
    } else {
      forall e | e in es
        ensures !p(e)
      {
        var k :| 0 <= k < |es| && es[k] == e;
        assert f(es[k]) !in r;
      }
    }
  }

  /** One more entry adds at most its own value. */
  lemma CollectSnoc<U(!new)>(es: seq<FsEntry>, e: FsEntry, p: FsEntry -> bool, f: FsEntry -> U)
    ensures Collect(es + [e], p, f) == Collect(es, p, f) + if p(e) then [f(e)] else []
  {
    assert (es + [e])[..|es|] == es;
  }

  /** The path strings of the entries of `es` that satisfy `p`, in order. */
  function PathsWhere(root: seq<string>, es: seq<FsEntry>, p: FsEntry -> bool): (r: seq<string>)
    ensures |r| <= |es|
    ensures forall x :: x in r <==> exists k :: 0 <= k < |es| && p(es[k]) && x == PathString(root, es[k])
  {
    Collect(es, p, e => PathString(root, e))
  }

  lemma PathsWhereEmpty(root: seq<string>, es: seq<FsEntry>, p: FsEntry -> bool)
    ensures PathsWhere(root, es, p) == [] <==> forall e :: e in es ==> !p(e)
  {
    CollectEmpty(es, p, e => PathString(root, e));
  }

  lemma PathsWhereSnoc(root: seq<string>, es: seq<FsEntry>, e: FsEntry, p: FsEntry -> bool)
    ensures PathsWhere(root, es + [e], p) == PathsWhere(root, es, p) + if p(e) then [PathString(root, e)] else []
  {
    CollectSnoc(es, e, p, e => PathString(root, e));
  }

  lemma PathsWhereLast(root: seq<string>, es: seq<FsEntry>, p: FsEntry -> bool)
    requires |es| > 0
    ensures PathsWhere(root, es, p) ==
      PathsWhere(root, es[..|es| - 1], p) + if p(es[|es| - 1]) then [PathString(root, es[|es| - 1])] else []
  {
  }

  /** When no entry satisfies both predicates and no two entries share a path string, no path is
      listed under both. */
  lemma DisjointPaths(root: seq<string>, es: seq<FsEntry>, p: FsEntry -> bool, q: FsEntry -> bool, x: string)
    requires forall i, j :: 0 <= i < j < |es| ==> PathString(root, es[i]) != PathString(root, es[j])
    requires forall e :: e in es ==> !(p(e) && q(e))
    ensures !(x in PathsWhere(root, es, p) && x in PathsWhere(root, es, q))
  {
  }

  /** A value of a scanner's result dictionary: a string, or a bucket
      `{"detected": ..., <listKey>: [...], "count": ...}`. */
  datatype Value =
    | Str(s: string)
    | Bucket(detected: bool, listKey: string, items: seq<string>, count: nat)

  /** A scanner's result dictionary, its keys in insertion order. */
  type Entry = seq<(string, Value)>

  /** A bucket as every scanner builds it from a list: detected iff the list is non-empty, and
      `count` its length. */
  function ListBucket(listKey: string, items: seq<string>): (v: Value)
    ensures v.Bucket? && v.listKey == listKey && v.items == items
    ensures v.detected <==> |items| > 0
    ensures v.count == |items|
  {
    Bucket(|items| > 0, listKey, items, |items|)
  }
}
