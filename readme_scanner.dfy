/** `scan_readme`: every regular file under the root whose upper-cased name starts with "README"
    and whose text is readable and not blank, with its first line as its title. */
module ReadmeScanner {
  import opened Wrappers
  import opened Text
  import opened RepoFiles

  /** What is recorded for one README. */
  datatype Readme = Readme(path: string, filename: string, extension: string, sizeBytes: nat, title: string)

  datatype ReadmeReport = ReadmeReport(hasReadme: bool, readmes: seq<Readme>)

  /** A file that is recorded: a regular file named README-something in any case, readable, and
      not only whitespace. */
  predicate Recorded(root: seq<string>, e: FsEntry)
  {
    e.isFile && StartsWith(Upper(Name(root, e)), "README") && e.text.Some? && Strip(e.text.value) != ""
  }

  /** The first line of a text, "" for an empty one. */
  function FirstLineOf(s: string): string
  {
    var lines := SplitLines(s);
    if |lines| == 0 then "" else lines[0]
  }

  /** The record of a file: its path relative to the root, its name, its lower-cased suffix, its
      size and the first line of its stripped text. */
  function Info(root: seq<string>, e: FsEntry): Readme
  {
    var name := Name(root, e);
    var text := if e.text.Some? then e.text.value else "";
    Readme(Join(e.rel, "/"), name, Lower(Suffix(name)), e.size, FirstLineOf(Strip(text)))
  }

  /** The records of the README files among `es`, in scan order. */
  function Readmes(root: seq<string>, es: seq<FsEntry>): seq<Readme>
  {
    Collect(es, e => Recorded(root, e), e => Info(root, e))
  }

  /** `scan_readme`. */
  method ScanReadme(repo: Repo) returns (r: ReadmeReport)
    ensures r.readmes == Readmes(repo.root, repo.entries)
    ensures r.hasReadme <==> exists e :: e in repo.entries && Recorded(repo.root, e)
  {
    var readmes: seq<Readme> := [];
    var root := repo.root;
    for i := 0 to |repo.entries|
      invariant readmes == Readmes(root, repo.entries[..i])
    {
      var e := repo.entries[i];
      CollectSnoc(repo.entries[..i], e, e => Recorded(root, e), e => Info(root, e));
      assert repo.entries[..i + 1] == repo.entries[..i] + [e];
      if !e.isFile || !StartsWith(Upper(Name(root, e)), "README") {
        continue;
      }
      if e.text.None? || Strip(e.text.value) == "" {
        continue;
      }
      readmes := readmes + [Info(root, e)];
    }
    assert repo.entries[..|repo.entries|] == repo.entries;
    CollectEmpty(repo.entries, e => Recorded(root, e), e => Info(root, e));
    r := ReadmeReport(|readmes| > 0, readmes);
  }

  /** The title of a recorded README is its first line: non-empty, free of line breaks, and the
      start of the stripped text, which either ends there or goes on with a line break. */
  lemma TitleIsFirstLine(root: seq<string>, e: FsEntry)
    requires Recorded(root, e)
    ensures var s := Strip(e.text.value); var t := Info(root, e).title;
      t != "" && StartsWith(s, t) && (forall k :: 0 <= k < |t| ==> !IsLineBreak(t[k]))
      && (|t| == |s| || IsLineBreak(s[|t|]))
  {
    var s := Strip(e.text.value);
    FirstLine(s);
    assert !IsLineBreak(s[0]) by {
      assert !IsSpace(s[0]);
    }
  }
}
