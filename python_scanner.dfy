/** The Python scanner: `.py` and `.ipynb` paths outside virtual environments, caches and editor
    directories, and the frameworks named by `requirements.txt`, `pyproject.toml` and known
    config files. `tomllib.loads` is a parameter. */
module PythonScanner {
  import opened Wrappers
  import opened Text
  import opened SeqUtil
  import opened Sorting
  import opened JsonValues
  import opened RepoFiles

  const Skipped := ["__pycache__", "venv", ".venv", "env", ".env", "site-packages", ".git", ".idea", ".vscode"]

  /** The version specifiers and markers a requirement is cut at, in the order they are tried. */
  const Specifiers := ["==", ">=", "<=", "~=", "!=", ">", "<", ";", " "]

  /** `FRAMEWORK_DEPENDENCIES`: each framework and the package names that reveal it. */
  const FrameworkDependencies: seq<(string, set<string>)> :=
    [("django", {"django"}), ("flask", {"flask"}), ("fastapi", {"fastapi"}), ("pyramid", {"pyramid"}),
     ("bottle", {"bottle"}), ("tornado", {"tornado"}), ("aiohttp", {"aiohttp"}), ("pandas", {"pandas"}),
     ("numpy", {"numpy"}), ("scikit-learn", {"scikit-learn"}), ("tensorflow", {"tensorflow"}),
     ("pytorch", {"torch"}), ("celery", {"celery"}), ("sqlalchemy", {"sqlalchemy"}),
     ("pydantic", {"pydantic"}), ("pytest", {"pytest"}), ("scrapy", {"scrapy"}),
     ("streamlit", {"streamlit"}), ("dash", {"dash"})]

  /** `FRAMEWORK_CONFIGS`: each framework and the file names that reveal it. */
  const FrameworkConfigs: seq<(string, set<string>)> :=
    [("django", {"manage.py"}), ("scrapy", {"scrapy.cfg"}), ("streamlit", {".streamlit/config.toml"})]

  /** `tomllib.loads`: the document as a table, or None when it raises. */
  type TomlLoader = string -> Option<Json>

  // ---------------------------------------------------------------- package names

  /** `s.split(seps[0])[0].split(seps[1])[0]...`. */
  function CutAll(s: string, seps: seq<string>): string
    requires forall k :: 0 <= k < |seps| ==> seps[k] != ""
  {
    if |seps| == 0 then s else CutAll(BeforeFirst(s, seps[0]), seps[1..])
  }

  /** Cutting at each separator in turn leaves a prefix free of all of them, which is the whole
      string or is followed in it by one of the separators. */
  lemma {:induction false} CutAllSpec(s: string, seps: seq<string>)
    requires forall k :: 0 <= k < |seps| ==> seps[k] != ""
    ensures StartsWith(s, CutAll(s, seps))
    ensures forall k :: 0 <= k < |seps| ==> !Contains(CutAll(s, seps), seps[k])
    ensures CutAll(s, seps) == s || exists k :: 0 <= k < |seps| && StartsWith(s[|CutAll(s, seps)|..], seps[k])
    decreases |seps|
  {
    if |seps| > 0 {
      var b := BeforeFirst(s, seps[0]);
      var r := CutAll(b, seps[1..]);
      CutAllSpec(b, seps[1..]);
      assert s[..|r|] == b[..|r|];
      BeforeFirstFree(s, seps[0]);
      PrefixKeepsFree(b, |r|, seps[0]);
      assert b[..|r|] == r;
      forall k | 1 <= k < |seps|
        ensures !Contains(r, seps[k])
      {
        assert seps[k] == seps[1..][k - 1];
      }
      if r != b {
        var k :| 0 <= k < |seps[1..]| && StartsWith(b[|r|..], seps[1..][k]);
        var n := |seps[k + 1]|;
        assert seps[1..][k] == seps[k + 1];
        assert |r| + n <= |b| <= |s|;
        assert s[..|b|] == b;
        assert s[|r|..][..n] == s[..|b|][|r|..|r| + n];
        assert s[|r|..][..n] == b[|r|..][..n];
        assert StartsWith(s[|r|..], seps[k + 1]);
      } else if b != s {
        assert StartsWith(s[|b|..], seps[0]);
      }
    }
  }

  /** The package name of a requirement: cut at every specifier, stripped, lower-cased. */
  function PackageName(requirement: string): string
  {
    Lower(Strip(CutAll(requirement, Specifiers)))
  }

  /** The package name is the lower-cased, stripped start of the requirement up to the first
      specifier that survives the successive cuts: no specifier is left in it. */
  lemma PackageNameSpec(requirement: string)
    ensures var cut := CutAll(requirement, Specifiers);
      StartsWith(requirement, cut) && PackageName(requirement) == Lower(Strip(cut))
      && (forall k :: 0 <= k < |Specifiers| ==> !Contains(cut, Specifiers[k]))
      && (cut == requirement || exists k :: 0 <= k < |Specifiers| && StartsWith(requirement[|cut|..], Specifiers[k]))
  {
    CutAllSpec(requirement, Specifiers);
  }

  // ---------------------------------------------------------------- requirements.txt

  /** A stripped line that names a requirement: not blank, not a comment, not an option. */
  predicate IsRequirement(line: string)
  {
    line != "" && !StartsWith(line, "#") && !StartsWith(line, "-")
  }

  /** `name` of each requirement line of `lines`, stripped. */
  function RequirementNames(lines: seq<string>, name: string -> string): set<string>
  {
    set l | l in lines && IsRequirement(Strip(l)) :: name(Strip(l))
  }

  lemma RequirementNamesNext(lines: seq<string>, i: nat, name: string -> string)
    requires i < |lines|
    ensures RequirementNames(lines[..i + 1], name) ==
      RequirementNames(lines[..i], name) + if IsRequirement(Strip(lines[i])) then {name(Strip(lines[i]))} else {}
  {
    assert lines[..i + 1] == lines[..i] + [lines[i]];
  }

  /** The package names a requirements file lists. */
  function PackagesOf(content: string): set<string>
  {
    RequirementNames(SplitLines(content), PackageName)
  }

  /** The package loop of `_detect_frameworks_from_requirements`. */
  method RequirementPackages(content: string) returns (found: set<string>)
    ensures found == PackagesOf(content)
  {
    var lines := SplitLines(content);
    found := {};
    for i := 0 to |lines|
      invariant found == RequirementNames(lines[..i], PackageName)
    {
      RequirementNamesNext(lines, i, PackageName);
      var line := Strip(lines[i]);
      if line == "" || StartsWith(line, "#") {
        continue;
      }
      if StartsWith(line, "-") {
        continue;
      }
      found := found + {PackageName(line)};
    }
    assert lines[..|lines|] == lines;
  }

  // ---------------------------------------------------------------- framework tables

  /** The frameworks of `table`, in table order, whose names meet `found`. */
  function Matched(table: seq<(string, set<string>)>, found: set<string>): (r: seq<string>)
    ensures forall f :: f in r <==> exists k :: 0 <= k < |table| && table[k].0 == f && table[k].1 * found != {}
  {
    if |table| == 0 then []
    else
      var init := table[..|table| - 1];
      assert forall k :: 0 <= k < |init| ==> init[k] == table[k];
      Matched(init, found) + if table[|table| - 1].1 * found != {} then [table[|table| - 1].0] else []
  }

  /** A loop over a framework table adding every framework whose names meet `found`. */
  method MatchTable(table: seq<(string, set<string>)>, found: set<string>) returns (frameworks: seq<string>)
    ensures frameworks == Matched(table, found)
  {
    frameworks := [];
    for i := 0 to |table|
      invariant frameworks == Matched(table[..i], found)
    {
      assert table[..i + 1][..i] == table[..i];
      if table[i].1 * found != {} {
        frameworks := frameworks + [table[i].0];
      }
    }
    assert table[..|table|] == table;
  }

  /** A file name has no '/', so the Streamlit entry of the config table never matches one. */
  lemma StreamlitConfigNeverMatches(name: string)
    requires forall k :: 0 <= k < |name| ==> name[k] != '/'
    ensures "streamlit" !in Matched(FrameworkConfigs, {name})
  {
    assert ".streamlit/config.toml"[10] == '/';
    assert |name| <= 10 || name[10] != '/';
  }

  // ---------------------------------------------------------------- pyproject.toml

  /** Python's `x.get(key, default)`: defined on dicts only. */
  function Get(x: Json, key: string, default: Json): Result<Json>
  {
    if x.JObj? then Ok(GetOr(x.fields, key, default))
    else Err("'" + TypeName(x) + "' object has no attribute 'get'")
  }

  /** The names `for dep in deps` parses: the strings of a list, the characters of a string, the
      keys of a table; anything else is not iterable. */
  function DependencyNames(deps: Json): Result<set<string>>
  {
    match deps
      case JArr(items) => Ok(StringsNamed(items, PackageName))
      case JStr(s) => Ok(StringsNamed(Characters(s), PackageName))
      case JObj(fields) => Ok(KeysNamed(fields, PackageName))
      case _ => Err("'" + TypeName(deps) + "' object is not iterable")
  }

  /** The packages of a parsed `pyproject.toml`: `project.dependencies` parsed like requirements,
      plus the lower-cased keys of `tool.poetry.dependencies` when it is a table. A section of
      the wrong type raises. */
  function PyprojectPackagesOf(data: Json): Result<set<string>>
  {
    match Get(data, "project", JObj(map[]))
      case Err(e) => Err(e)
      case Ok(project) =>
        match Get(project, "dependencies", JArr([]))
          case Err(e) => Err(e)
          case Ok(deps) =>
            match DependencyNames(deps)
              case Err(e) => Err(e)
              case Ok(listed) =>
                match Get(data, "tool", JObj(map[]))
                  case Err(e) => Err(e)
                  case Ok(tool) =>
                    match Get(tool, "poetry", JObj(map[]))
                      case Err(e) => Err(e)
                      case Ok(poetry) =>
                        match Get(poetry, "dependencies", JObj(map[]))
                          case Err(e) => Err(e)
                          case Ok(poetryDeps) =>
                            Ok(listed + if poetryDeps.JObj? then KeysNamed(poetryDeps.fields, Lower) else {})
  }

  /** The package collection of `_detect_frameworks_from_pyproject`. */
  method PyprojectPackages(data: Json) returns (r: Result<set<string>>)
    ensures r == PyprojectPackagesOf(data)
  {
    var project := Get(data, "project", JObj(map[]));
    if project.Err? {
      return Err(project.error);
    }
    var deps := Get(project.value, "dependencies", JArr([]));
    if deps.Err? {
      return Err(deps.error);
    }
    var found: set<string>;
    match deps.value {
      case JObj(fields) =>
        found := KeysNamed(fields, PackageName);
      case JArr(_) =>
        found := ListedPackages(deps.value.items, PackageName);
      case JStr(s) =>
        found := ListedPackages(Characters(s), PackageName);
      case _ =>
        return Err("'" + TypeName(deps.value) + "' object is not iterable");
    }
    // `data` is a table here, since its `get` already succeeded.
    var tool := Get(data, "tool", JObj(map[]));
    var poetry := Get(tool.value, "poetry", JObj(map[]));
    if poetry.Err? {
      return Err(poetry.error);
    }
    var poetryDeps := Get(poetry.value, "dependencies", JObj(map[]));
    if poetryDeps.Err? {
      return Err(poetryDeps.error);
    }
    ghost var listed := found;
    if poetryDeps.value.JObj? {
      found := found + KeysNamed(poetryDeps.value.fields, Lower);
    }
    assert found == listed + if poetryDeps.value.JObj? then KeysNamed(poetryDeps.value.fields, Lower) else {};
    r := Ok(found);
  }

  /** `name` of every key of a table. */
  function KeysNamed(fields: map<string, Json>, name: string -> string): set<string>
  {
    set key | key in fields :: name(key)
  }

  /** What iterating over a string yields: its characters, each a string of its own. */
  function Characters(s: string): seq<Json>
  {
    seq(|s|, k requires 0 <= k < |s| => JStr([s[k]]))
  }

  /** `name` of every string of a list. */
  function StringsNamed(items: seq<Json>, name: string -> string): set<string>
  {
    set k | 0 <= k < |items| && items[k].JStr? :: name(items[k].s)
  }

  /** The loop over a dependency list: the package name of every string in it. */
  method ListedPackages(items: seq<Json>, name: string -> string) returns (found: set<string>)
    ensures found == StringsNamed(items, name)
  {
    found := {};
    for i := 0 to |items|
      invariant found == StringsNamed(items[..i], name)
    {
      assert items[..i + 1] == items[..i] + [items[i]];
      if items[i].JStr? {
        found := found + {name(items[i].s)};
      }
    }
    assert items[..|items|] == items;
  }

  // ---------------------------------------------------------------- one path

  /** `_detect_frameworks_from_requirements`: the frameworks a readable `requirements.txt`
      reveals. */
  function RequirementsFrameworks(root: seq<string>, e: FsEntry): seq<string>
  {
    if Name(root, e) == "requirements.txt" && e.text.Some? then Matched(FrameworkDependencies, PackagesOf(e.text.value))
    else []
  }

  method FromRequirements(root: seq<string>, e: FsEntry) returns (frameworks: seq<string>)
    ensures frameworks == RequirementsFrameworks(root, e)
  {
    if Name(root, e) != "requirements.txt" {
      return [];
    }
    if e.text.None? {
      return [];
    }
    var found := RequirementPackages(e.text.value);
    frameworks := MatchTable(FrameworkDependencies, found);
  }

  /** `_detect_frameworks_from_pyproject`: the frameworks a `pyproject.toml` that reads and parses
      reveals; a section of the wrong type raises. */
  function PyprojectFrameworks(root: seq<string>, toml: TomlLoader, e: FsEntry): Result<seq<string>>
  {
    if Name(root, e) != "pyproject.toml" || e.text.None? || toml(e.text.value).None? then Ok([])
    else match PyprojectPackagesOf(toml(e.text.value).value)
      case Err(err) => Err(err)
      case Ok(found) => Ok(Matched(FrameworkDependencies, found))
  }

  method FromPyproject(root: seq<string>, toml: TomlLoader, e: FsEntry) returns (r: Result<seq<string>>)
    ensures r == PyprojectFrameworks(root, toml, e)
  {
    if Name(root, e) != "pyproject.toml" {
      return Ok([]);
    }
    if e.text.None? {
      return Ok([]);
    }
    var data := toml(e.text.value);
    if data.None? {
      return Ok([]);
    }
    var found := PyprojectPackages(data.value);
    if found.Err? {
      return Err(found.error);
    }
    var frameworks := MatchTable(FrameworkDependencies, found.value);
    r := Ok(frameworks);
  }

  /** `_detect_frameworks_from_config`: the frameworks a regular file reveals by its name. */
  function ConfigFrameworks(root: seq<string>, e: FsEntry): seq<string>
  {
    if e.isFile then Matched(FrameworkConfigs, {Name(root, e)}) else []
  }

  method FromConfig(root: seq<string>, e: FsEntry) returns (frameworks: seq<string>)
    ensures frameworks == ConfigFrameworks(root, e)
  {
    if !e.isFile {
      return [];
    }
    frameworks := MatchTable(FrameworkConfigs, {Name(root, e)});
  }

  // ---------------------------------------------------------------- the scan

  /** The scan's three collections; the framework set as the list of its additions. */
  datatype PyState = PyState(py: seq<string>, ipynb: seq<string>, frameworks: seq<string>)

  predicate IsPython(root: seq<string>, e: FsEntry)
  {
    !Denied(Parts(root, e), Skipped) && Suffix(Name(root, e)) == ".py"
  }

  predicate IsNotebook(root: seq<string>, e: FsEntry)
  {
    !Denied(Parts(root, e), Skipped) && Suffix(Name(root, e)) == ".ipynb"
  }

  /** One path of the scan loop: skipped when denylisted, otherwise its language list and the
      frameworks its requirements, pyproject and name reveal. */
  function Step(root: seq<string>, toml: TomlLoader, st: PyState, e: FsEntry): Result<PyState>
  {
    if Denied(Parts(root, e), Skipped) then Ok(st) else Detect(root, toml, st, e)
  }

  /** The loop body for a path outside the denylisted directories. */
  function Detect(root: seq<string>, toml: TomlLoader, st: PyState, e: FsEntry): Result<PyState>
  {
    match PyprojectFrameworks(root, toml, e)
      case Err(err) => Err(err)
      case Ok(fromToml) => Ok(Advance(root, st, e, fromToml))
  }

  /** A path outside the denylisted directories whose pyproject, if any, did not raise. */
  function Advance(root: seq<string>, st: PyState, e: FsEntry, fromToml: seq<string>): PyState
  {
    var suffix := Suffix(Name(root, e));
    var path := PathString(root, e);
    PyState(st.py + (if suffix == ".py" then [path] else []),
            st.ipynb + (if suffix == ".ipynb" then [path] else []),
            st.frameworks + RequirementsFrameworks(root, e) + fromToml + ConfigFrameworks(root, e))
  }

  /** The scan loop over `es`; the first exception ends it. */
  function Fold(root: seq<string>, toml: TomlLoader, es: seq<FsEntry>): Result<PyState>
  {
    if |es| == 0 then Ok(PyState([], [], []))
    else match Fold(root, toml, es[..|es| - 1])
      case Err(err) => Err(err)
      case Ok(st) => Step(root, toml, st, es[|es| - 1])
  }

  /** The dictionary `scan` returns, or None when no Python file or notebook was found. It has no
      "name" key. */
  function Report(st: PyState): Option<Entry>
  {
    if st.py == [] && st.ipynb == [] then None
    else Some([("language", Str("python")),
               ("python", ListBucket("files", st.py)),
               ("jupyter", ListBucket("files", st.ipynb)),
               ("frameworks", ListBucket("items", SetList(st.frameworks)))])
  }

  function ScanOf(repo: Repo, toml: TomlLoader): Result<Option<Entry>>
  {
    match Fold(repo.root, toml, repo.entries)
      case Err(err) => Err(err)
      case Ok(st) => Ok(Report(st))
  }

  /** The body of `scan`'s loop: `_detect_language_files` and the three framework detectors. */
  method DetectAll(root: seq<string>, toml: TomlLoader, st: PyState, e: FsEntry) returns (r: Result<PyState>)
    ensures r == Detect(root, toml, st, e)
  {
    var py, ipynb := st.py, st.ipynb;
    var suffix := Suffix(Name(root, e));
    if suffix == ".py" {
      py := py + [PathString(root, e)];
    } else if suffix == ".ipynb" {
      ipynb := ipynb + [PathString(root, e)];
    }
    var fromRequirements := FromRequirements(root, e);
    var fromPyproject := FromPyproject(root, toml, e);
    if fromPyproject.Err? {
      return Err(fromPyproject.error);
    }
    var fromConfig := FromConfig(root, e);
    var next := PyState(py, ipynb, st.frameworks + fromRequirements + fromPyproject.value + fromConfig);
    assert next == Advance(root, st, e, fromPyproject.value);
    r := Ok(next);
  }

  /** `PythonScanner.scan`. */
  method Scan(repo: Repo, toml: TomlLoader) returns (r: Result<Option<Entry>>)
    ensures r == ScanOf(repo, toml)
  {
    var st := PyState([], [], []);
    var root := repo.root;
    for i := 0 to |repo.entries|
      invariant Fold(root, toml, repo.entries[..i]) == Ok(st)
    {
      var e := repo.entries[i];
      FoldNext(root, toml, repo.entries, i);
      if Denied(Parts(root, e), Skipped) {
        assert Step(root, toml, st, e) == Ok(st);
        continue;
      }
      var next := DetectAll(root, toml, st, e);
      assert Step(root, toml, st, e) == next;
      if next.Err? {
        FoldStops(root, toml, repo.entries, i + 1);
        return Err(next.error);
      }
      st := next.value;
    }
    assert repo.entries[..|repo.entries|] == repo.entries;
    if st.py == [] && st.ipynb == [] {
      return Ok(None);
    }
    r := Ok(Report(st));
  }

  lemma FoldSnoc(root: seq<string>, toml: TomlLoader, es: seq<FsEntry>, e: FsEntry)
    ensures Fold(root, toml, es + [e]) ==
      if Fold(root, toml, es).Err? then Fold(root, toml, es) else Step(root, toml, Fold(root, toml, es).value, e)
  {
    assert (es + [e])[..|es|] == es;
  }

  lemma FoldNext(root: seq<string>, toml: TomlLoader, es: seq<FsEntry>, i: nat)
    requires i < |es|
    ensures Fold(root, toml, es[..i + 1]) ==
      if Fold(root, toml, es[..i]).Err? then Fold(root, toml, es[..i]) else Step(root, toml, Fold(root, toml, es[..i]).value, es[i])
  {
    assert es[..i + 1][..i] == es[..i];
  }

  /** Once the loop has raised on the first `n` paths, the scan raises that exception. */
  lemma {:induction false} FoldStops(root: seq<string>, toml: TomlLoader, es: seq<FsEntry>, n: nat)
    requires n <= |es| && Fold(root, toml, es[..n]).Err?
    ensures Fold(root, toml, es) == Fold(root, toml, es[..n])
    decreases |es| - n
  {
    if n < |es| {
      assert es[..n + 1][..n] == es[..n];
      FoldStops(root, toml, es, n + 1);
    } else {
      assert es[..n] == es;
    }
  }

  /** The Python files listed are the paths, in scan order, that end in ".py" outside the
      denylisted directories. */
  lemma {:induction false} FilesListed(root: seq<string>, toml: TomlLoader, es: seq<FsEntry>)
    requires Fold(root, toml, es).Ok?
    ensures Fold(root, toml, es).value.py == PathsWhere(root, es, e => IsPython(root, e))
  {
    if |es| > 0 {
      var init := es[..|es| - 1];
      var e := es[|es| - 1];
      FilesListed(root, toml, init);
      StepFiles(root, toml, Fold(root, toml, init).value, e);
      PathsWhereLast(root, es, e => IsPython(root, e));
    }
  }

  /** The notebooks listed are the paths, in scan order, that end in ".ipynb" outside the
      denylisted directories. */
  lemma {:induction false} NotebooksListed(root: seq<string>, toml: TomlLoader, es: seq<FsEntry>)
    requires Fold(root, toml, es).Ok?
    ensures Fold(root, toml, es).value.ipynb == PathsWhere(root, es, e => IsNotebook(root, e))
  {
    if |es| > 0 {
      var init := es[..|es| - 1];
      var e := es[|es| - 1];
      NotebooksListed(root, toml, init);
      StepFiles(root, toml, Fold(root, toml, init).value, e);
      PathsWhereLast(root, es, e => IsNotebook(root, e));
    }
  }

  /** One path adds itself to the Python files or the notebooks by its suffix, unless it is in a
      denylisted directory. */
  lemma StepFiles(root: seq<string>, toml: TomlLoader, st: PyState, e: FsEntry)
    requires Step(root, toml, st, e).Ok?
    ensures Step(root, toml, st, e).value.py == st.py + if IsPython(root, e) then [PathString(root, e)] else []
    ensures Step(root, toml, st, e).value.ipynb == st.ipynb + if IsNotebook(root, e) then [PathString(root, e)] else []
  {
  }

  /** A path on which the loop raises: a `pyproject.toml` outside the denylisted directories
      whose sections have the wrong types. */
  predicate Raises(root: seq<string>, toml: TomlLoader, e: FsEntry)
  {
    !Denied(Parts(root, e), Skipped) && PyprojectFrameworks(root, toml, e).Err?
  }

  /** A framework a path reveals: by its requirements, its pyproject or its name. */
  predicate Reveals(root: seq<string>, toml: TomlLoader, e: FsEntry, f: string)
  {
    !Denied(Parts(root, e), Skipped) && PyprojectFrameworks(root, toml, e).Ok?
    && (f in RequirementsFrameworks(root, e) || f in PyprojectFrameworks(root, toml, e).value || f in ConfigFrameworks(root, e))
  }

  /** The scan raises exactly when some path raises; otherwise its frameworks are those the paths
      reveal. */
  lemma {:induction false} FrameworksFound(root: seq<string>, toml: TomlLoader, es: seq<FsEntry>)
    ensures Fold(root, toml, es).Err? <==> exists e :: e in es && Raises(root, toml, e)
    ensures Fold(root, toml, es).Ok? ==>
      forall f :: f in Fold(root, toml, es).value.frameworks <==> exists e :: e in es && Reveals(root, toml, e, f)
  {
    if |es| > 0 {
      var init := es[..|es| - 1];
      var e := es[|es| - 1];
      FrameworksFound(root, toml, init);
      assert es == init + [e];
      FoldSnoc(root, toml, init, e);
      assert forall x :: x in es <==> x in init || x == e;
      if Fold(root, toml, init).Ok? {
        StepFrameworks(root, toml, Fold(root, toml, init).value, e);
      }
    }
  }

  /** One path raises exactly when it `Raises`, and otherwise adds what it reveals. */
  lemma StepFrameworks(root: seq<string>, toml: TomlLoader, st: PyState, e: FsEntry)
    ensures Step(root, toml, st, e).Err? <==> Raises(root, toml, e)
    ensures Step(root, toml, st, e).Ok? ==>
      forall f :: f in Step(root, toml, st, e).value.frameworks <==> f in st.frameworks || Reveals(root, toml, e, f)
  {
  }

  /** `scan` returns None exactly when no path outside the denylisted directories has the suffix
      ".py" or ".ipynb". */
  lemma NoneIff(repo: Repo, toml: TomlLoader)
    requires ScanOf(repo, toml).Ok?
    ensures ScanOf(repo, toml).value.None? <==>
      forall e :: e in repo.entries ==> !IsPython(repo.root, e) && !IsNotebook(repo.root, e)
  {
    FilesListed(repo.root, toml, repo.entries);
    NotebooksListed(repo.root, toml, repo.entries);
    PathsWhereEmpty(repo.root, repo.entries, e => IsPython(repo.root, e));
    PathsWhereEmpty(repo.root, repo.entries, e => IsNotebook(repo.root, e));
  }

  /** The framework items are the distinct frameworks found, ascending; `count` is their number
      and `detected` holds iff one was found. */
  lemma FrameworksReported(st: PyState)
    requires Report(st).Some?
    ensures var v := Report(st).value[3].1;
      v.Bucket? && v.listKey == "items" && Sorted(v.items) && Distinct(v.items) && v.count == |v.items|
      && (v.detected <==> |st.frameworks| > 0)
      && forall f :: f in v.items <==> f in st.frameworks
  {
    if |st.frameworks| > 0 {
      assert st.frameworks[0] in SetList(st.frameworks);
    }
  }
}
