/** The technology scanner: opens a repository, runs the Python, JavaScript, Docker and database
    scanners in that order, keeps what they found, and renders it as a plain-text summary in
    which file paths are reduced to names. */
module TechnologyScanner {
  import opened Wrappers
  import opened Text
  import opened SeqUtil
  import opened Sorting
  import opened RepoFiles
  import PythonScanner
  import JavaScriptScanner
  import DockerScanner
  import DatabaseScanner

  /** `TechnologyScanner(repo_path)`: the repository when its path exists, FileNotFoundError
      otherwise. */
  function Open(repoPath: string, pathExists: bool, repo: Repo): (r: Result<Repo>)
    ensures r.Ok? <==> pathExists
    ensures r.Ok? ==> r.value == repo
    ensures r.Err? ==> r.error == "Repository path not found: " + repoPath
  {
    if pathExists then Ok(repo) else Err("Repository path not found: " + repoPath)
  }

  // ---------------------------------------------------------------- scan

  /** What each scanner gives, in the order `scan` runs them: a result, None, or an exception.
      Only the Python scanner can raise. */
  function Outcomes(repo: Repo, toml: PythonScanner.TomlLoader): seq<Result<Option<Entry>>>
  {
    [PythonScanner.ScanOf(repo, toml),
     Ok(JavaScriptScanner.Report(JavaScriptScanner.JsFiles(repo), JavaScriptScanner.TsFiles(repo))),
     Ok(DockerScanner.Report(DockerScanner.Dockerfiles(repo), DockerScanner.ComposeList(repo), DockerScanner.IgnoreList(repo))),
     Ok(DatabaseScanner.Report(DatabaseScanner.Binaries(repo), DatabaseScanner.Scripts(repo),
                               DatabaseScanner.Configs(repo), DatabaseScanner.DirHits(repo.root, repo.entries)))]
  }

  /** A scanner outcome that `scan` keeps: no exception, and a non-empty dictionary. */
  predicate Truthy(o: Result<Option<Entry>>)
  {
    o.Ok? && o.value.Some? && |o.value.value| > 0
  }

  /** The dictionaries of the kept outcomes, in order. */
  function Kept(outcomes: seq<Result<Option<Entry>>>): (r: seq<Entry>)
    ensures |r| <= |outcomes|
    ensures forall x :: x in r <==> exists k :: 0 <= k < |outcomes| && Truthy(outcomes[k]) && outcomes[k].value.value == x
  {
    if |outcomes| == 0 then []
    else
      var init := outcomes[..|outcomes| - 1];
      var last := outcomes[|outcomes| - 1];
      assert forall k :: 0 <= k < |init| ==> init[k] == outcomes[k];
      Kept(init) + if Truthy(last) then [last.value.value] else []
  }

  /** `TechnologyScanner.scan`: the scanners run in turn; an exception is logged and that
      scanner's result dropped. */
  method Scan(repo: Repo, toml: PythonScanner.TomlLoader) returns (results: seq<Entry>)
    ensures results == Kept(Outcomes(repo, toml))
  {
    var python := PythonScanner.Scan(repo, toml);
    var javascript := JavaScriptScanner.Scan(repo);
    var docker := DockerScanner.Scan(repo);
    var database := DatabaseScanner.Scan(repo);
    var outcomes := [python, Ok(javascript), Ok(docker), Ok(database)];
    assert outcomes == Outcomes(repo, toml);
    results := KeepTruthy(outcomes);
  }

  /** The loop of `scan` over the scanners' outcomes: a raised exception is skipped, and so is an
      empty or missing dictionary. */
  method KeepTruthy(outcomes: seq<Result<Option<Entry>>>) returns (results: seq<Entry>)
    ensures results == Kept(outcomes)
  {
    results := [];
    for i := 0 to |outcomes|
      invariant results == Kept(outcomes[..i])
    {
      assert outcomes[..i + 1][..i] == outcomes[..i];
      var o := outcomes[i];
      if o.Err? {
        continue;
      }
      if o.value.Some? && |o.value.value| > 0 {
        results := results + [o.value.value];
      }
    }
    assert outcomes[..|outcomes|] == outcomes;
  }

  /** Nothing is kept exactly when no outcome is truthy. */
  lemma KeptEmpty(outcomes: seq<Result<Option<Entry>>>)
    ensures Kept(outcomes) == [] <==> forall k :: 0 <= k < |outcomes| ==> !Truthy(outcomes[k])
  {
    var r := Kept(outcomes);
    if r != [] {
      assert r[0] in r;
    }
    forall k | 0 <= k < |outcomes| && Truthy(outcomes[k])
      ensures outcomes[k].value.value in r
    {
    }
  }

  /** A first outcome that is not kept changes nothing. */
  lemma {:induction false} KeptSkipsHead(outcomes: seq<Result<Option<Entry>>>)
    requires |outcomes| > 0 && !Truthy(outcomes[0])
    ensures Kept(outcomes) == Kept(outcomes[1..])
  {
    if |outcomes| > 1 {
      var init := outcomes[..|outcomes| - 1];
      KeptSkipsHead(init);
      assert init[1..] == outcomes[1..][..|outcomes[1..]| - 1];
    }
  }

  /** The scan finds nothing exactly when every scanner raised or found nothing; when the Python
      scanner raises, the others' results are still kept. */
  lemma ScanKeepsOthers(repo: Repo, toml: PythonScanner.TomlLoader)
    ensures Kept(Outcomes(repo, toml)) == [] <==> forall k :: 0 <= k < 4 ==> !Truthy(Outcomes(repo, toml)[k])
    ensures PythonScanner.ScanOf(repo, toml).Err? ==> Kept(Outcomes(repo, toml)) == Kept(Outcomes(repo, toml)[1..])
  {
    var os := Outcomes(repo, toml);
    KeptEmpty(os);
    if os[0].Err? {
      KeptSkipsHead(os);
    }
  }

  // ---------------------------------------------------------------- format_for_llm

  const NoResults: string :=
    "No specific technologies " + "detected by automated scanners."
  const Header: string := "### Detected Technology Stack ###"

  /** `entry.get(key)`: the value of the first pair with that key. */
  function Lookup(entry: Entry, key: string): (r: Option<Value>)
    ensures r.Some? <==> exists k :: 0 <= k < |entry| && entry[k].0 == key
    ensures r.Some? ==> exists k :: 0 <= k < |entry| && entry[k] == (key, r.value)
  {
    if |entry| == 0 then None
    else if entry[0].0 == key then Some(entry[0].1)
    else
      var r := Lookup(entry[1..], key);
      assert forall k :: 0 <= k < |entry[1..]| ==> entry[1..][k] == entry[k + 1];
      r
  }

  /** `entry.get("name", "unknown")`. */
  function EcosystemName(entry: Entry): string
  {
    match Lookup(entry, "name")
      case Some(Str(s)) => s
      case _ => "unknown"
  }

  /** `s.split(c)`: the pieces between the occurrences of `c`. */
  function SplitOn(s: string, c: char): (r: seq<string>)
    ensures |r| >= 1
    ensures forall i, k :: 0 <= i < |r| && 0 <= k < |r[i]| ==> r[i][k] != c
  {
    if |s| == 0 then [""]
    else
      var rest := SplitOn(s[1..], c);
      if s[0] == c then [""] + rest
      else [[s[0]] + rest[0]] + rest[1..]
  }

  /** Splitting and joining back with the separator gives the string again. */
  lemma {:induction false} SplitOnJoin(s: string, c: char)
    ensures Join(SplitOn(s, c), [c]) == s
  {
    if |s| > 0 {
      var rest := SplitOn(s[1..], c);
      SplitOnJoin(s[1..], c);
      if s[0] == c {
        assert s == [c] + s[1..];
      } else if |rest| > 1 {
        assert Join(rest, [c]) == rest[0] + [c] + Join(rest[1..], [c]);
        assert ([[s[0]] + rest[0]] + rest[1..])[1..] == rest[1..];
        assert s == [s[0]] + s[1..];
      } else {
        assert s == [s[0]] + s[1..];
      }
    }
  }

  /** `Path(item).name`: the last component, with empty and "." components dropped. */
  function PathName(item: string): (r: string)
    ensures forall k :: 0 <= k < |r| ==> r[k] != '/'
  {
    var parts := Filter(SplitOn(item, '/'), (p: string) => p != "" && p != ".");
    if |parts| == 0 then "" else
      assert parts[|parts| - 1] in SplitOn(item, '/');
      parts[|parts| - 1]
  }

  /** An item as listed: a path, meaning an item with '/' or '\', reduced to its name. */
  function Clean(item: string): (r: string)
    ensures forall k :: 0 <= k < |r| ==> r[k] != '/'
    ensures ('/' !in item && '\\' !in item) ==> r == item
  {
    if '/' in item || '\\' in item then PathName(item) else item
  }

  /** The items listed for a bucket: the distinct cleaned items, ascending, at most 15. */
  function ListedItems(items: seq<string>): (r: seq<string>)
    ensures Sorted(r) && Distinct(r) && |r| <= 15
    ensures forall x :: x in r ==> (exists item :: item in items && x == Clean(item)) && forall k :: 0 <= k < |x| ==> x[k] != '/'
    ensures |SetList(Map(items, Clean))| <= 15 ==> forall item :: item in items ==> Clean(item) in r
  {
    var all := SetList(Map(items, Clean));
    MapHas(items, Clean);
    TakeSortedDistinct(all, 15);
    Take(all, 15)
  }

  /** The list under the keys `format_for_llm` looks for: "items", "files", then "paths". */
  function RawItems(v: Value): seq<string>
  {
    if v.Bucket? && v.listKey in {"items", "files", "paths"} then v.items else []
  }

  /** The line one key of an entry gives: none for "type" and "name", for a string, and for a
      bucket not detected or with nothing listed. */
  function FieldLine(key: string, v: Value): (r: Option<string>)
    ensures r.Some? <==> key != "type" && key != "name" && v.Bucket? && v.detected && RawItems(v) != []
  {
    if key == "type" || key == "name" then None
    else if v.Str? || !v.detected then None
    else
      var raw := RawItems(v);
      if raw == [] then None
      else Some("  - " + Capitalize(ReplaceAll(key, "_", " ")) + ": " + Join(ListedItems(raw), ", "))
  }

  /** The values `f` gives for the elements of `xs`, in order, None dropped. */
  function Somes<T(!new)>(xs: seq<T>, f: T -> Option<string>): (r: seq<string>)
    ensures |r| <= |xs|
    ensures forall x :: x in r <==> exists k :: 0 <= k < |xs| && f(xs[k]) == Some(x)
  {
    if |xs| == 0 then []
    else
      var init := xs[..|xs| - 1];
      assert forall k :: 0 <= k < |init| ==> init[k] == xs[k];
      Somes(init, f) + if f(xs[|xs| - 1]).Some? then [f(xs[|xs| - 1]).value] else []
  }

  lemma SomesSnoc<T(!new)>(xs: seq<T>, x: T, f: T -> Option<string>)
    ensures Somes(xs + [x], f) == Somes(xs, f) + if f(x).Some? then [f(x).value] else []
  {
    assert (xs + [x])[..|xs|] == xs;
  }

  /** The field lines of an entry, in key order. */
  function FieldLines(fields: seq<(string, Value)>): (r: seq<string>)
    ensures |r| <= |fields|
    ensures forall x :: x in r <==> exists k :: 0 <= k < |fields| && FieldLine(fields[k].0, fields[k].1) == Some(x)
  {
    Somes(fields, (p: (string, Value)) => FieldLine(p.0, p.1))
  }

  /** The lines one entry adds: its ecosystem, then its field lines. */
  function EntryLines(entry: Entry): (r: seq<string>)
    ensures |r| >= 1 && r[0] == "\nEcosystem: " + Upper(EcosystemName(entry))
  {
    ["\nEcosystem: " + Upper(EcosystemName(entry))] + FieldLines(entry)
  }

  /** All the lines of a summary, header first. */
  function AllLines(results: seq<Entry>): (r: seq<string>)
    ensures |r| >= 1 && r[0] == Header
  {
    if |results| == 0 then [Header]
    else AllLines(results[..|results| - 1]) + EntryLines(results[|results| - 1])
  }

  /** `format_for_llm`: a fixed message when nothing was found, otherwise the lines joined with
      line breaks. */
  function Formatted(results: seq<Entry>): (r: string)
    ensures results == [] <==> r == NoResults
    ensures results != [] ==> StartsWith(r, Header + "\n" + "\nEcosystem: ")
  {
    if results == [] then NoResults
    else
      var r := Join(AllLines(results), "\n");
      JoinedStartsWith(results);
      assert r[0] == (Header + "\n" + "\nEcosystem: ")[0] == Header[0] == '#';
      assert NoResults[0] == 'N';
      r
  }

  /** The joined elements start with the first element. */
  lemma JoinHead(xs: seq<string>, sep: string)
    requires |xs| >= 1
    ensures StartsWith(Join(xs, sep), xs[0])
  {
  }

  lemma StartsWithTrans(s: string, t: string, u: string)
    requires StartsWith(s, t) && StartsWith(t, u)
    ensures StartsWith(s, u)
  {
    assert s[..|u|] == s[..|t|][..|u|];
  }

  lemma StartsWithAfter(a: string, s: string, t: string)
    requires StartsWith(s, t)
    ensures StartsWith(a + s, a + t)
  {
    assert (a + s)[..|a + t|] == a + s[..|t|];
  }

  /** A non-empty summary starts with the header and then the first entry's ecosystem line. */
  lemma JoinedStartsWith(results: seq<Entry>)
    requires results != []
    ensures StartsWith(Join(AllLines(results), "\n"), Header + "\n" + "\nEcosystem: ")
  {
    var lines := AllLines(results);
    var first := AllLinesHead(results);
    var rest := Join(lines[1..], "\n");
    assert lines[1..][0] == first;
    JoinHead(lines[1..], "\n");
    assert StartsWith(first, "\nEcosystem: ");
    StartsWithTrans(rest, first, "\nEcosystem: ");
    assert Join(lines, "\n") == lines[0] + "\n" + rest;
    StartsWithAfter(Header + "\n", rest, "\nEcosystem: ");
  }

  /** The line after the header is the first entry's ecosystem line. */
  lemma {:induction false} AllLinesHead(results: seq<Entry>) returns (first: string)
    requires results != []
    ensures |AllLines(results)| >= 2 && AllLines(results)[1] == first
    ensures first == "\nEcosystem: " + Upper(EcosystemName(results[0]))
  {
    if |results| == 1 {
      first := "\nEcosystem: " + Upper(EcosystemName(results[0]));
    } else {
      first := AllLinesHead(results[..|results| - 1]);
    }
  }

  /** `TechnologyScanner.format_for_llm`. */
  method FormatForLlm(results: seq<Entry>) returns (s: string)
    ensures s == Formatted(results)
  {
    if results == [] {
      return NoResults;
    }
    var lines := [Header];
    for i := 0 to |results|
      invariant lines == AllLines(results[..i])
    {
      AllLinesNext(results, i);
      var entry := results[i];
      lines := lines + ["\nEcosystem: " + Upper(EcosystemName(entry))];
      var fieldLines := FormatFields(entry);
      lines := lines + fieldLines;
    }
    assert results[..|results|] == results;
    s := Join(lines, "\n");
    assert Formatted(results) == Join(AllLines(results), "\n");
  }

  /** The lines of one more entry. */
  lemma AllLinesNext(results: seq<Entry>, i: nat)
    requires i < |results|
    ensures AllLines(results[..i + 1]) ==
      AllLines(results[..i]) + ["\nEcosystem: " + Upper(EcosystemName(results[i]))] + FieldLines(results[i])
  {
    assert results[..i + 1][..i] == results[..i];
  }

  /** The inner loop of `format_for_llm` over one entry's keys. */
  method FormatFields(entry: Entry) returns (lines: seq<string>)
    ensures lines == FieldLines(entry)
  {
    lines := [];
    for i := 0 to |entry|
      invariant lines == FieldLines(entry[..i])
    {
      SomesSnoc(entry[..i], entry[i], (p: (string, Value)) => FieldLine(p.0, p.1));
      assert entry[..i + 1] == entry[..i] + [entry[i]];
      var (key, v) := entry[i];
      if key == "type" || key == "name" {
        continue;
      }
      if v.Bucket? && v.detected {
        var raw := RawItems(v);
        if raw == [] {
          continue;
        }
        var clean := CleanAll(raw);
        var unique := SetList(clean);
        lines := lines + ["  - " + Capitalize(ReplaceAll(key, "_", " ")) + ": " + Join(Take(unique, 15), ", ")];
      }
    }
    assert entry[..|entry|] == entry;
  }

  /** The cleanup loop: every raw item, cleaned, in order. */
  method CleanAll(raw: seq<string>) returns (clean: seq<string>)
    ensures clean == Map(raw, Clean)
  {
    clean := [];
    for j := 0 to |raw|
      invariant clean == Map(raw[..j], Clean)
    {
      clean := clean + [Clean(raw[j])];
    }
    assert raw[..|raw|] == raw;
  }

  /** An entry without a "name" key is listed under the ecosystem UNKNOWN. */
  lemma Unnamed(entry: Entry)
    requires forall k :: 0 <= k < |entry| ==> entry[k].0 != "name"
    ensures "\nEcosystem: " + Upper(EcosystemName(entry)) == "\nEcosystem: UNKNOWN"
  {
    var u := Upper("unknown");
    assert u[0] == 'U' && u[1] == 'N' && u[2] == 'K' && u[3] == 'N' && u[4] == 'O' && u[5] == 'W' && u[6] == 'N';
  }

  /** The Python and JavaScript results carry no "name" key, so they are listed under the
      ecosystem UNKNOWN. */
  lemma PythonAndJavaScriptUnnamed(st: PythonScanner.PyState, js: seq<string>, ts: seq<string>)
    requires PythonScanner.Report(st).Some? && JavaScriptScanner.Report(js, ts).Some?
    ensures EntryLines(PythonScanner.Report(st).value)[0] == "\nEcosystem: UNKNOWN"
    ensures EntryLines(JavaScriptScanner.Report(js, ts).value)[0] == "\nEcosystem: UNKNOWN"
  {
    var p := PythonScanner.Report(st).value;
    assert |p| == 4 && |p[0].0| == 8 && |p[1].0| == 6 && |p[2].0| == 7 && |p[3].0| == 10;
    Unnamed(p);
    var j := JavaScriptScanner.Report(js, ts).value;
    assert |j| == 3 && |j[0].0| == 8 && |j[1].0| == 10 && |j[2].0| == 10;
    Unnamed(j);
  }

  /** The Docker result is listed under the ecosystem DOCKER. */
  lemma DockerNamed(dockerfiles: seq<string>, compose: seq<string>, ignore: seq<string>)
    requires DockerScanner.Report(dockerfiles, compose, ignore).Some?
    ensures EntryLines(DockerScanner.Report(dockerfiles, compose, ignore).value)[0] == "\nEcosystem: DOCKER"
  {
    var d := DockerScanner.Report(dockerfiles, compose, ignore).value;
    assert d[0].0 != "name" by {
      assert |d[0].0| == 4 && d[0].0[0] == 't';
    }
    assert Lookup(d, "name") == Some(Str("docker"));
    assert EcosystemName(d) == "docker";
    UpperDocker();
  }

  lemma UpperDocker()
    ensures Upper("docker") == "DOCKER"
  {
    var u := Upper("docker");
    assert u[0] == 'D' && u[1] == 'O' && u[2] == 'C' && u[3] == 'K' && u[4] == 'E' && u[5] == 'R';
  }
}
