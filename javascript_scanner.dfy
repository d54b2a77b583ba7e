/** The JavaScript/TypeScript scanner: every path under the root (no denylist, directories
    included) whose suffix is exactly ".js" or exactly ".ts". */
module JavaScriptScanner {
  import opened RepoFiles
  import opened Wrappers

  predicate IsJs(root: seq<string>, e: FsEntry)
  {
    Suffix(Name(root, e)) == ".js"
  }

  predicate IsTs(root: seq<string>, e: FsEntry)
  {
    Suffix(Name(root, e)) == ".ts"
  }

  function JsFiles(repo: Repo): seq<string>
  {
    PathsWhere(repo.root, repo.entries, e => IsJs(repo.root, e))
  }

  function TsFiles(repo: Repo): seq<string>
  {
    PathsWhere(repo.root, repo.entries, e => IsTs(repo.root, e))
  }

  /** The dictionary `scan` returns for the two lists, or None when both are empty. */
  function Report(js: seq<string>, ts: seq<string>): Option<Entry>
  {
    if js == [] && ts == [] then None
    else Some([("language", Str("javascript/typescript")),
               ("javascript", ListBucket("files", js)),
               ("typescript", ListBucket("files", ts))])
  }

  /** `JavaScriptScanner.scan`. */
  method Scan(repo: Repo) returns (r: Option<Entry>)
    ensures r == Report(JsFiles(repo), TsFiles(repo))
  {
    var js: seq<string> := [];
    var ts: seq<string> := [];
    var root := repo.root;
    for i := 0 to |repo.entries|
      invariant js == PathsWhere(root, repo.entries[..i], e => IsJs(root, e))
      invariant ts == PathsWhere(root, repo.entries[..i], e => IsTs(root, e))
    {
      var e := repo.entries[i];
      PathsWhereSnoc(root, repo.entries[..i], e, e => IsJs(root, e));
      PathsWhereSnoc(root, repo.entries[..i], e, e => IsTs(root, e));
      assert repo.entries[..i + 1] == repo.entries[..i] + [e];
      var suffix := Suffix(Name(root, e));
      if suffix == ".js" {
        js := js + [PathString(root, e)];
      } else if suffix == ".ts" {
        ts := ts + [PathString(root, e)];
      }
    }
    assert repo.entries[..|repo.entries|] == repo.entries;
    r := Report(js, ts);
  }

  /** `scan` finds nothing exactly when no path has the suffix ".js" or ".ts". */
  lemma NoneIff(repo: Repo)
    ensures Report(JsFiles(repo), TsFiles(repo)).None? <==>
      forall e :: e in repo.entries ==> !IsJs(repo.root, e) && !IsTs(repo.root, e)
  {
    PathsWhereEmpty(repo.root, repo.entries, e => IsJs(repo.root, e));
    PathsWhereEmpty(repo.root, repo.entries, e => IsTs(repo.root, e));
  }

  /** Paths found once each land in at most one of the two lists. */
  lemma NoPathInBoth(repo: Repo, x: string)
    requires forall i, j :: 0 <= i < j < |repo.entries| ==>
      PathString(repo.root, repo.entries[i]) != PathString(repo.root, repo.entries[j])
    ensures !(x in JsFiles(repo) && x in TsFiles(repo))
  {
  }
}
