/** The documentation service: mines the project's Python files in batches, has the architect
    plan the navigation, flattens the plan into its pages, and has the scribe write each page from
    the modules its id and title point to. Files, the client factory and the agents' I/O are given
    as inputs. */
module DocumentationService {
  import opened Wrappers
  import opened Text
  import opened SeqUtil
  import opened Facts
  import opened Wiki
  import Sorting
  import Grouping
  import AA = ArchitectAgent
  import SA = ScribeAgent
  import Tok = Tokenizer

  const ArchitectureOverview := "architecture_overview"
  const ModuleReference := "module_reference"
  const BatchSize := 5
  const MaxTargets := 5
  const MissingPlan := "Architect failed to generate a navigation plan."
  const Success := "success"
  const Failure := "failed"

  // ---------------------------------------------------------------------------
  // The client factory

  /** `LLMFactory.get_client`: only the "ollama" provider is known. */
  function ClientError(provider: string): (r: Option<string>)
    ensures r.None? <==> Lower(provider) == "ollama"
    ensures r.Some? ==> r.value == "Unsupported LLM provider: " + Lower(provider)
  {
    if Lower(provider) == "ollama" then None else Some("Unsupported LLM provider: " + Lower(provider))
  }

  /** The service asks for the "openai" provider, which the factory refuses. */
  lemma OpenAiRefused()
    ensures ClientError("openai") == Some("Unsupported LLM provider: openai")
  {
    var o := "openai";
    assert Lower(o) == o by {
      forall k | 0 <= k < |o|
        ensures Lower(o)[k] == o[k]
      {
        assert !('A' <= o[k] <= 'Z');
      }
    }
    assert o != "ollama" by {
      assert o[1] != "ollama"[1];
    }
    assert "Unsupported LLM provider: " + o == "Unsupported LLM provider: openai";
  }

  // ---------------------------------------------------------------------------
  // Page types

  predicate OverviewPage(pageId: string, caption: string)
  {
    Contains(pageId, "overview") || Contains(Lower(caption), "architecture") || Contains(Lower(caption), "intro")
  }

  /** `_determine_page_type`. */
  function PageType(pageId: string, caption: string): (r: string)
    ensures r == ArchitectureOverview || r == ModuleReference
    ensures r == ArchitectureOverview <==> OverviewPage(pageId, caption)
  {
    if OverviewPage(pageId, caption) then ArchitectureOverview else ModuleReference
  }

  lemma {:induction false} ModuleReferenceHasNoOverview()
    ensures !Contains(Lower(ModuleReference), "overview")
  {
    var s := Lower(ModuleReference);
    assert s == ModuleReference;
    forall i | 0 <= i <= |s|
      ensures !StartsWith(s[i..], "overview")
    {
      if i + 8 <= |s| {
        assert s[i..][..8] != "overview" by {
          assert s[i..][0] != 'o' || s[i..][1] != 'v';
        }
      }
    }
    NoStartNoContains(s);
  }

  lemma {:induction false} NoStartNoContains(s: string)
    requires forall i :: 0 <= i <= |s| ==> !StartsWith(s[i..], "overview")
    ensures !Contains(s, "overview")
    decreases |s|
  {
    assert s[0..] == s;
    if |s| > 0 {
      forall i | 0 <= i <= |s[1..]|
        ensures !StartsWith(s[1..][i..], "overview")
      {
        assert s[1..][i..] == s[i + 1..];
      }
      NoStartNoContains(s[1..]);
    }
  }

  /** The scribe picks its architecture prompt exactly for the pages this rule calls overviews. */
  lemma ScribePromptFollowsPageType(pageId: string, caption: string)
    ensures SA.UsesArchitecturePrompt(PageType(pageId, caption), caption) <==> OverviewPage(pageId, caption)
  {
    if OverviewPage(pageId, caption) {
      assert Lower(ArchitectureOverview) == ArchitectureOverview;
      ContainsAt(ArchitectureOverview, "overview", 13);
    } else {
      ModuleReferenceHasNoOverview();
    }
  }

  // ---------------------------------------------------------------------------
  // Collecting the files to mine

  /** A file of a directory listed by the walk: its name, its path relative to the project root,
      and its text, or None when reading it fails. */
  datatype FileEntry = FileEntry(name: string, relPath: string, content: Option<string>)

  /** One directory of `os.walk`: its path and its files. */
  datatype WalkDir = WalkDir(root: string, files: seq<FileEntry>)

  /** A mined file: its relative path and its text. */
  datatype Source = Source(path: string, text: string)

  /** Directories whose path holds one of these markers are not mined. */
  predicate SkippedRoot(root: string)
  {
    Contains(root, "__pycache__") || Contains(root, ".venv") || Contains(root, "tests") || Contains(root, ".git")
  }

  /** A Python file other than a package's `__init__.py`, readable and not blank. */
  predicate Mined(f: FileEntry)
  {
    EndsWith(f.name, ".py") && f.name != "__init__.py" && f.content.Some? && Strip(f.content.value) != ""
  }

  function SourceOf(f: FileEntry): Source
    requires f.content.Some?
  {
    Source(f.relPath, f.content.value)
  }

  function MinedIn(files: seq<FileEntry>): seq<Source>
  {
    if |files| == 0 then []
    else
      var f := files[|files| - 1];
      MinedIn(files[..|files| - 1]) + (if Mined(f) then [SourceOf(f)] else [])
  }

  function Collected(walk: seq<WalkDir>): seq<Source>
  {
    if |walk| == 0 then []
    else
      var d := walk[|walk| - 1];
      Collected(walk[..|walk| - 1]) + (if SkippedRoot(d.root) then [] else MinedIn(d.files))
  }

  lemma {:induction false} MinedInMembers(files: seq<FileEntry>)
    ensures forall f :: f in files && Mined(f) ==> SourceOf(f) in MinedIn(files)
    ensures forall s :: s in MinedIn(files) ==> exists f :: f in files && Mined(f) && s == SourceOf(f)
  {
    if |files| > 0 {
      var init := files[..|files| - 1];
      MinedInMembers(init);
      assert files == init + [files[|files| - 1]];
    }
  }

  /** Every mined file of a directory that is not skipped is collected ... */
  lemma {:induction false} CollectedHoldsEach(walk: seq<WalkDir>)
    ensures forall d, f :: d in walk && !SkippedRoot(d.root) && f in d.files && Mined(f) ==> SourceOf(f) in Collected(walk)
  {
    if |walk| > 0 {
      var init := walk[..|walk| - 1];
      var last := walk[|walk| - 1];
      CollectedHoldsEach(init);
      MinedInMembers(last.files);
      assert walk == init + [last];
    }
  }

  /** ... and nothing else is. */
  lemma {:induction false} CollectedOnlyMined(walk: seq<WalkDir>)
    ensures forall s :: s in Collected(walk) ==>
      exists d, f :: d in walk && !SkippedRoot(d.root) && f in d.files && Mined(f) && s == SourceOf(f)
  {
    if |walk| > 0 {
      var init := walk[..|walk| - 1];
      var last := walk[|walk| - 1];
      CollectedOnlyMined(init);
      MinedInMembers(last.files);
      assert walk == init + [last];
      forall s | s in Collected(walk)
        ensures exists d, f :: d in walk && !SkippedRoot(d.root) && f in d.files && Mined(f) && s == SourceOf(f)
      {
        if s in Collected(init) {
          var d, f :| d in init && !SkippedRoot(d.root) && f in d.files && Mined(f) && s == SourceOf(f);
          assert d in walk;
        } else {
          var f :| f in last.files && Mined(f) && s == SourceOf(f);
          assert last in walk;
        }
      }
    }
  }

  /** `_process_single_file`: appends the file when it is readable and not blank. */
  method ProcessSingleFile(f: FileEntry, collected: seq<Source>) returns (out: seq<Source>)
    requires EndsWith(f.name, ".py") && f.name != "__init__.py"
    ensures out == collected + (if Mined(f) then [SourceOf(f)] else [])
  {
    out := collected;
    if f.content.Some? && Strip(f.content.value) != "" {
      out := out + [Source(f.relPath, f.content.value)];
    }
  }

  /** `_collect_files`. */
  method CollectFiles(walk: seq<WalkDir>) returns (collected: seq<Source>)
    ensures collected == Collected(walk)
  {
    collected := [];
    for i := 0 to |walk|
      invariant collected == Collected(walk[..i])
    {
      assert walk[..i + 1][..i] == walk[..i];
      var d := walk[i];
      if SkippedRoot(d.root) {
        continue;
      }
      ghost var before := collected;
      for j := 0 to |d.files|
        invariant collected == before + MinedIn(d.files[..j])
      {
        assert d.files[..j + 1][..j] == d.files[..j];
        var f := d.files[j];
        if EndsWith(f.name, ".py") && f.name != "__init__.py" {
          collected := ProcessSingleFile(f, collected);
        }
      }
      assert d.files[..|d.files|] == d.files;
    }
    assert walk[..|walk|] == walk;
  }

  // ---------------------------------------------------------------------------
  // Mining in batches

  /** `miner.analyze_batch`: the results of a batch, None for a falsy result, or the exception. */
  type BatchAnalyzer = seq<Source> -> Result<Option<seq<FileFacts>>>

  datatype MinerOutput = MinerOutput(totalFiles: nat, results: seq<FileFacts>)

  function BatchCount(n: nat): nat
  {
    (n + BatchSize - 1) / BatchSize
  }

  /** The `k`-th slice of five files. */
  function Batch(files: seq<Source>, k: nat): (b: seq<Source>)
    requires k < BatchCount(|files|)
    ensures 0 < |b| <= BatchSize
  {
    var lo := BatchSize * k;
    var hi := if lo + BatchSize < |files| then lo + BatchSize else |files|;
    files[lo..hi]
  }

  function Batches(files: seq<Source>): (r: seq<seq<Source>>)
    ensures |r| == BatchCount(|files|)
  {
    seq(BatchCount(|files|), k requires 0 <= k < BatchCount(|files|) => Batch(files, k))
  }

  function Flatten(bs: seq<seq<Source>>): seq<Source>
  {
    if |bs| == 0 then [] else Flatten(bs[..|bs| - 1]) + bs[|bs| - 1]
  }

  /** The batches are consecutive slices of at most five files that together give all files in order. */
  lemma BatchesPartition(files: seq<Source>)
    ensures Flatten(Batches(files)) == files
    ensures forall k :: 0 <= k < |Batches(files)| ==> 0 < |Batches(files)[k]| <= BatchSize
  {
    var bs := Batches(files);
    forall j | 0 <= j <= |bs|
      ensures Flatten(bs[..j]) == files[..if BatchSize * j < |files| then BatchSize * j else |files|]
    {
      FlattenPrefix(files, j);
    }
    assert bs[..|bs|] == bs;
  }

  lemma {:induction false} FlattenPrefix(files: seq<Source>, j: nat)
    requires j <= BatchCount(|files|)
    ensures Flatten(Batches(files)[..j]) == files[..if BatchSize * j < |files| then BatchSize * j else |files|]
  {
    var bs := Batches(files);
    if j > 0 {
      FlattenPrefix(files, j - 1);
      assert bs[..j][..j - 1] == bs[..j - 1];
      assert BatchSize * (j - 1) < |files|;
    }
  }

  /** The results of the batches in order, or the first exception. */
  function MineBatches(analyze: BatchAnalyzer, bs: seq<seq<Source>>): Result<seq<FileFacts>>
  {
    if |bs| == 0 then Ok([])
    else
      var prev := MineBatches(analyze, bs[..|bs| - 1]);
      if prev.Err? then prev
      else match analyze(bs[|bs| - 1])
        case Err(e) => Err(e)
        case Ok(None) => prev
        case Ok(Some(found)) => Ok(prev.value + found)
  }

  /** An exception in one batch is the outcome whatever the later batches do. */
  lemma {:induction false} FirstErrorWins(analyze: BatchAnalyzer, bs: seq<seq<Source>>, k: nat)
    requires k < |bs| && MineBatches(analyze, bs[..k]).Ok? && analyze(bs[k]).Err?
    ensures MineBatches(analyze, bs) == Err(analyze(bs[k]).error)
    decreases |bs| - k
  {
    if k == |bs| - 1 {
      assert bs[..|bs| - 1] == bs[..k];
    } else {
      assert bs[..|bs| - 1][..k] == bs[..k] && bs[..|bs| - 1][k] == bs[k];
      FirstErrorWins(analyze, bs[..|bs| - 1], k);
    }
  }

  /** Batches that all succeed give their results concatenated. */
  lemma {:induction false} AllBatchesMined(analyze: BatchAnalyzer, bs: seq<seq<Source>>, found: seq<seq<FileFacts>>)
    requires |found| == |bs| && forall k :: 0 <= k < |bs| ==> analyze(bs[k]) == Ok(Some(found[k]))
    ensures MineBatches(analyze, bs) == Ok(ConcatFacts(found))
  {
    if |bs| > 0 {
      AllBatchesMined(analyze, bs[..|bs| - 1], found[..|found| - 1]);
    }
  }

  function ConcatFacts(xs: seq<seq<FileFacts>>): seq<FileFacts>
  {
    if |xs| == 0 then [] else ConcatFacts(xs[..|xs| - 1]) + xs[|xs| - 1]
  }

  /** `_run_miner`: every collected file is counted; the results are those of the batches. */
  function MinerRun(analyze: BatchAnalyzer, walk: seq<WalkDir>): Result<MinerOutput>
  {
    var files := Collected(walk);
    match MineBatches(analyze, Batches(files))
      case Err(e) => Err(e)
      case Ok(results) => Ok(MinerOutput(|files|, results))
  }

  method RunMiner(analyze: BatchAnalyzer, walk: seq<WalkDir>) returns (r: Result<MinerOutput>)
    ensures r == MinerRun(analyze, walk)
    ensures r.Ok? ==> r.value.totalFiles == |Collected(walk)|
  {
    var files := CollectFiles(walk);
    ghost var bs := Batches(files);
    var all: seq<FileFacts> := [];
    var i := 0;
    var k := 0;
    while i < |files|
      invariant i == BatchSize * k && k <= |bs|
      invariant i < |files| <==> k < |bs|
      invariant MineBatches(analyze, bs[..k]) == Ok(all)
    {
      var chunk := files[i..if i + BatchSize < |files| then i + BatchSize else |files|];
      assert chunk == bs[k];
      assert bs[..k + 1][..k] == bs[..k];
      var batch := analyze(chunk);
      if batch.Err? {
        FirstErrorWins(analyze, bs, k);
        return Err(batch.error);
      }
      if batch.value.Some? {
        all := all + batch.value.value;
      }
      i := i + BatchSize;
      k := k + 1;
    }
    assert bs[..k] == bs;
    r := Ok(MinerOutput(|files|, all));
  }

  // ---------------------------------------------------------------------------
  // Pages of the plan

  predicate IsPage(n: NavNode)
  {
    n.kind == "page"
  }

  /** Every node of the tree in pre-order: a node, then its subtree, then its later siblings. */
  function PreOrder(nodes: seq<NavNode>): seq<NavNode>
    decreases nodes
  {
    if |nodes| == 0 then [] else [nodes[0]] + PreOrder(nodes[0].children) + PreOrder(nodes[1..])
  }

  /** The page nodes of the tree in pre-order. */
  function PagesOf(nodes: seq<NavNode>): seq<NavNode>
  {
    Filter(PreOrder(nodes), IsPage)
  }

  lemma {:induction false} PreOrderSnoc(nodes: seq<NavNode>, x: NavNode)
    ensures PreOrder(nodes + [x]) == PreOrder(nodes) + [x] + PreOrder(x.children)
    decreases nodes
  {
    if |nodes| == 0 {
      assert PreOrder([x]) == [x] + PreOrder(x.children) + PreOrder([]);
    } else {
      assert (nodes + [x])[0] == nodes[0] && (nodes + [x])[1..] == nodes[1..] + [x];
      PreOrderSnoc(nodes[1..], x);
    }
  }

  /** The traversal holds every top-level node and, with each node, all of its children. */
  lemma {:induction false} PreOrderClosed(nodes: seq<NavNode>)
    ensures forall n :: n in nodes ==> n in PreOrder(nodes)
    ensures forall n, c :: n in PreOrder(nodes) && c in n.children ==> c in PreOrder(nodes)
    decreases nodes
  {
    if |nodes| > 0 {
      PreOrderClosed(nodes[0].children);
      PreOrderClosed(nodes[1..]);
      assert nodes == [nodes[0]] + nodes[1..];
    }
  }

  /** Pages are exactly the page nodes of the traversal, so a page under a page is a page too. */
  lemma PagesOfMembers(nodes: seq<NavNode>)
    ensures forall n :: n in PagesOf(nodes) <==> n in PreOrder(nodes) && IsPage(n)
    ensures forall n, c :: n in PreOrder(nodes) && c in n.children && IsPage(c) ==> c in PagesOf(nodes)
  {
    PreOrderClosed(nodes);
  }

  lemma PagesOfSnoc(nodes: seq<NavNode>, i: nat)
    requires i < |nodes|
    ensures PagesOf(nodes[..i + 1]) == PagesOf(nodes[..i]) + (if IsPage(nodes[i]) then [nodes[i]] else []) + PagesOf(nodes[i].children)
  {
    var node := nodes[i];
    assert nodes[..i + 1] == nodes[..i] + [node];
    PreOrderSnoc(nodes[..i], node);
    FilterAppend(PreOrder(nodes[..i]) + [node], PreOrder(node.children), IsPage);
    FilterAppend(PreOrder(nodes[..i]), [node], IsPage);
    assert Filter([node], IsPage) == if IsPage(node) then [node] else [] by {
      assert [node][..0] == [];
    }
  }

  /** `_collect_pages(nodes, pages)`: appends the page nodes of the tree to `pages`. */
  method CollectPages(nodes: seq<NavNode>, pages: seq<NavNode>) returns (out: seq<NavNode>)
    ensures out == pages + PagesOf(nodes)
    decreases nodes
  {
    out := pages;
    for i := 0 to |nodes|
      invariant out == pages + PagesOf(nodes[..i])
    {
      var node := nodes[i];
      PagesOfSnoc(nodes, i);
      if node.kind == "page" {
        out := out + [node];
      }
      if |node.children| > 0 {
        out := CollectPages(node.children, out);
      } else {
        assert PagesOf(node.children) == [];
      }
    }
    assert nodes[..|nodes|] == nodes;
  }

  // ---------------------------------------------------------------------------
  // Modules and page targets

  /** `_get_unique_modules`: the distinct non-empty parent directories of the result files. */
  function UniqueModules(results: seq<FileFacts>): (r: seq<string>)
    ensures Distinct(r)
    ensures forall m :: m in r ==> m != "" && exists k :: 0 <= k < |results| && Dirname(results[k].file) == m
    ensures forall k :: 0 <= k < |results| && Dirname(results[k].file) != "" ==> Dirname(results[k].file) in r
  {
    ParentDirsMembers(results);
    Sorting.SetList(ParentDirs(results))
  }

  /** The non-empty parent directories of the result files, in order, repeats included. */
  function ParentDirs(results: seq<FileFacts>): seq<string>
  {
    if |results| == 0 then []
    else
      var d := Dirname(results[|results| - 1].file);
      ParentDirs(results[..|results| - 1]) + (if d != "" then [d] else [])
  }

  lemma {:induction false} ParentDirsMembers(results: seq<FileFacts>)
    ensures forall m :: m in ParentDirs(results) ==> m != "" && exists k :: 0 <= k < |results| && Dirname(results[k].file) == m
    ensures forall k :: 0 <= k < |results| && Dirname(results[k].file) != "" ==> Dirname(results[k].file) in ParentDirs(results)
  {
    if |results| > 0 {
      var init := results[..|results| - 1];
      ParentDirsMembers(init);
      forall m | m in ParentDirs(results)
        ensures m != "" && exists k :: 0 <= k < |results| && Dirname(results[k].file) == m
      {
        if m in ParentDirs(init) {
          var k :| 0 <= k < |init| && Dirname(init[k].file) == m;
          assert results[k] == init[k];
        }
      }
      forall k | 0 <= k < |results| && Dirname(results[k].file) != ""
        ensures Dirname(results[k].file) in ParentDirs(results)
      {
        if k < |results| - 1 {
          assert results[k] == init[k];
        }
      }
    }
  }

  /** The words of the id (hyphens read as spaces) and of the title, lower-cased, longer than two. */
  function Keywords(pageId: string, title: string): (r: seq<string>)
    ensures forall k :: k in r ==> |k| > 2
  {
    Filter(Words(Lower(ReplaceAll(pageId, "-", " "))) + Words(Lower(title)), k => |k| > 2)
  }

  predicate MatchesAny(m: string, keywords: seq<string>)
  {
    exists k :: k in keywords && Contains(Lower(m), k)
  }

  /** The modules naming some keyword, in module order. */
  function Matching(modules: seq<string>, keywords: seq<string>): (r: seq<string>)
    ensures |r| <= |modules|
    ensures forall m :: m in r ==> m in modules && MatchesAny(m, keywords)
    ensures forall m :: m in modules && MatchesAny(m, keywords) ==> m in r
  {
    if |modules| == 0 then []
    else
      var m := modules[|modules| - 1];
      Matching(modules[..|modules| - 1], keywords) + (if MatchesAny(m, keywords) then [m] else [])
  }

  lemma MatchingSnoc(modules: seq<string>, keywords: seq<string>, i: nat)
    requires i < |modules|
    ensures Matching(modules[..i + 1], keywords) == Matching(modules[..i], keywords) + (if MatchesAny(modules[i], keywords) then [modules[i]] else [])
  {
    assert modules[..i + 1][..i] == modules[..i];
  }

  /** `_resolve_target_modules`: the first five modules naming a keyword, in module order; with
      none, "app" (or the first module) for a backend page, and nothing otherwise. */
  function ResolvedTargets(pageId: string, title: string, modules: seq<string>): seq<string>
  {
    var keywords := Keywords(pageId, title);
    var matched := Matching(modules, keywords);
    if |matched| == 0 && "backend" in keywords then
      if "app" in modules then ["app"] else Take(modules, 1)
    else Take(matched, MaxTargets)
  }

  /** At most five modules, all known; outside the fallback each names a keyword, and when no more
      than five match, all of them are taken. */
  lemma ResolvedTargetsSpec(pageId: string, title: string, modules: seq<string>)
    ensures var r := ResolvedTargets(pageId, title, modules);
      |r| <= MaxTargets && forall m :: m in r ==> m in modules
    ensures var keywords := Keywords(pageId, title);
      (exists m :: m in modules && MatchesAny(m, keywords)) ==>
        forall m :: m in ResolvedTargets(pageId, title, modules) ==> MatchesAny(m, keywords)
    ensures var keywords := Keywords(pageId, title);
      |Matching(modules, keywords)| <= MaxTargets ==>
        forall m :: m in modules && MatchesAny(m, keywords) ==> m in ResolvedTargets(pageId, title, modules)
    ensures var keywords := Keywords(pageId, title);
      (forall m :: m in modules ==> !MatchesAny(m, keywords)) ==>
        ResolvedTargets(pageId, title, modules)
          == (if "backend" !in keywords then [] else if "app" in modules then ["app"] else Take(modules, 1))
  {
    var keywords := Keywords(pageId, title);
    var matched := Matching(modules, keywords);
    assert |matched| > 0 ==> matched[0] in matched;
    if |modules| > 0 {
      assert modules[0] in modules;
    }
  }

  /** The target loop of `_resolve_target_modules`. */
  method ResolveTargetModules(pageId: string, title: string, modules: seq<string>) returns (targets: seq<string>)
    ensures targets == ResolvedTargets(pageId, title, modules)
  {
    var keywords := Keywords(pageId, title);
    var found: seq<string> := [];
    for i := 0 to |modules|
      invariant found == Matching(modules[..i], keywords)
    {
      MatchingSnoc(modules, keywords, i);
      if MatchesAny(modules[i], keywords) {
        found := found + [modules[i]];
      }
    }
    assert modules[..|modules|] == modules;
    if |found| == 0 && "backend" in keywords {
      targets := if "app" in modules then ["app"] else Take(modules, 1);
    } else {
      targets := Take(found, MaxTargets);
    }
  }

  // ---------------------------------------------------------------------------
  // The service

  /** `os.path.join(a, b)`. */
  function JoinPath(a: string, b: string): string
  {
    if StartsWith(b, "/") then b
    else if a == "" || EndsWith(a, "/") then a + b
    else a + "/" + b
  }

  datatype PageStatus = PageStatus(id: string, status: string)

  datatype Report =
    | Completed(projectId: string, docsPath: string, totalPages: nat, pages: seq<PageStatus>)
    | Failed(projectId: string, error: string)

  /** The agents a working client gives: the miner's batch analysis, and the architect's and the
      scribe's collaborators. */
  datatype Agents = Agents(analyze: BatchAnalyzer, architect: AA.Setup, scribe: SA.Setup)

  /** The status of a page: "success" exactly when the scribe wrote it. */
  function StatusOf(pageId: string, page: Option<WikiPage>): (s: PageStatus)
    ensures s.id == pageId
    ensures s.status == Success <==> page.Some?
    ensures s.status == Failure <==> page.None?
  {
    PageStatus(pageId, if page.Some? then Success else Failure)
  }

  /** What the scribe writes for a page of the plan, once the encoding is known. */
  function PageOutcome(setup: SA.Setup, enc: Tok.Encoding, node: NavNode, modules: seq<string>, results: seq<FileFacts>): Option<WikiPage>
  {
    SA.PageOf(setup, enc, node.id, PageType(node.id, node.caption), node.caption,
              ResolvedTargets(node.id, node.caption, modules), results)
  }

  /** What the scribe makes of each page of the plan. */
  type PageWriter = NavNode -> Option<WikiPage>

  function Writer(setup: SA.Setup, enc: Tok.Encoding, modules: seq<string>, results: seq<FileFacts>): PageWriter
  {
    node => PageOutcome(setup, enc, node, modules, results)
  }

  /** The statuses recorded so far: one per page of a prefix of the plan, in page order, each
      carrying the page's id and saying whether the page was written. */
  ghost predicate Records(write: PageWriter, pages: seq<NavNode>, statuses: seq<PageStatus>)
  {
    |statuses| <= |pages|
    && forall k :: 0 <= k < |statuses| ==> statuses[k] == StatusOf(pages[k].id, write(pages[k]))
  }

  /** Recording the next page's status keeps the statuses in page order. */
  lemma RecordsSnoc(write: PageWriter, pages: seq<NavNode>, statuses: seq<PageStatus>, s: PageStatus)
    requires Records(write, pages, statuses)
    requires |statuses| < |pages|
    requires s == StatusOf(pages[|statuses|].id, write(pages[|statuses|]))
    ensures Records(write, pages, statuses + [s])
  {
  }

  /** What `generate_documentation` reports once the miner has run and the architect has answered
      with `plan`: no plan is the failed report; otherwise, unless the tokenizer failed while the
      scribe wrote the first page, the completed report holds one status per page of the plan, in
      pre-order, each "success" exactly when the scribe wrote that page. */
  ghost predicate PlanReported(r: Report, projectId: string, docsPath: string, plan: Option<Navigation>,
                               scribe: SA.Setup, enc: Option<Tok.Encoding>, modules: seq<string>, results: seq<FileFacts>)
  {
    match plan
      case None => r == Failed(projectId, MissingPlan)
      case Some(nav) =>
        var pages := PagesOf(nav.tree);
        match r
          case Failed(id, _) => id == projectId && |pages| > 0 && enc.None?
          case Completed(id, path, total, statuses) =>
            id == projectId && path == docsPath && total == |pages| && |statuses| == |pages|
            && (|pages| > 0 ==> enc.Some? && Records(Writer(scribe, enc.value, modules, results), pages, statuses))
  }

  class Service {
    const outputDir: string

    constructor (outputDir: string)
      ensures this.outputDir == outputDir
    {
      this.outputDir := outputDir;
    }

    /** One page of the loop of `generate_documentation`. */
    method WriteOne(scribe: SA.Scribe, page: NavNode, modules: seq<string>, results: seq<FileFacts>)
      returns (r: Result<PageStatus>)
      modifies scribe.tok
      ensures r.Ok? <==> scribe.tok.encoding.Some?
      ensures old(scribe.tok.encoding).Some? ==> scribe.tok.encoding == old(scribe.tok.encoding)
      ensures r.Ok? ==> r.value == StatusOf(page.id, Writer(scribe.setup, scribe.tok.encoding.value, modules, results)(page))
    {
      var targets := ResolveTargetModules(page.id, page.caption, modules);
      var pageType := PageType(page.id, page.caption);
      var written := scribe.WritePage(page.id, pageType, page.caption, targets, results);
      if written.Err? {
        return Err(written.error);
      }
      r := Ok(StatusOf(page.id, written.value));
    }

    /** The page loop of `generate_documentation`: one status per page, in page order; a tokenizer
        failure raises out of the loop. */
    method WritePages(scribe: SA.Scribe, pages: seq<NavNode>, modules: seq<string>, results: seq<FileFacts>)
      returns (r: Result<seq<PageStatus>>)
      modifies scribe.tok
      ensures r.Err? ==> scribe.tok.encoding.None? && |pages| > 0
      ensures old(scribe.tok.encoding).Some? ==> scribe.tok.encoding == old(scribe.tok.encoding)
      ensures r.Ok? ==> |r.value| == |pages|
      ensures r.Ok? && |pages| > 0 ==> scribe.tok.encoding.Some?
      ensures r.Ok? && |pages| > 0 ==> Records(Writer(scribe.setup, scribe.tok.encoding.value, modules, results), pages, r.value)
    {
      var statuses: seq<PageStatus> := [];
      ghost var enc: Tok.Encoding := *;
      for i := 0 to |pages|
        invariant old(scribe.tok.encoding).Some? ==> scribe.tok.encoding == old(scribe.tok.encoding)
        invariant |statuses| == i
        invariant i > 0 ==> scribe.tok.encoding == Some(enc)
        invariant Records(Writer(scribe.setup, enc, modules, results), pages, statuses)
      {
        var status := WriteOne(scribe, pages[i], modules, results);
        if status.Err? {
          return Err(status.error);
        }
        enc := scribe.tok.encoding.value;
        RecordsSnoc(Writer(scribe.setup, enc, modules, results), pages, statuses, status.value);
        statuses := statuses + [status.value];
      }
      r := Ok(statuses);
    }

    /** `generate_documentation` with the client the factory gave, or the factory's error. */
    method Generate(projectId: string, walk: seq<WalkDir>, client: Result<Agents>, tok: Tok.Tokenizer) returns (r: Report)
      modifies tok
      ensures r.projectId == projectId
      ensures client.Err? ==> r == Failed(projectId, client.error)
      ensures client.Ok? && MinerRun(client.value.analyze, walk).Err? ==> r == Failed(projectId, MinerRun(client.value.analyze, walk).error)
      ensures r.Completed? ==> r.docsPath == JoinPath(outputDir, projectId) && r.totalPages == |r.pages|
      ensures r.Completed? ==> forall k :: 0 <= k < |r.pages| ==> r.pages[k].status == Success || r.pages[k].status == Failure
      ensures client.Ok? && MinerRun(client.value.analyze, walk).Ok? ==>
        var results := MinerRun(client.value.analyze, walk).value.results;
        exists groups :: Grouping.IsGrouping(groups, results, ModuleOf)
          && PlanReported(r, projectId, JoinPath(outputDir, projectId), AA.PlanOf(client.value.architect, groups),
                          client.value.scribe, tok.encoding, UniqueModules(results), results)
    {
      if client.Err? {
        return Failed(projectId, client.error);
      }
      var agents := client.value;
      var architect := new AA.Architect(agents.architect);
      var scribe := new SA.Scribe(agents.scribe, tok);
      var mined := RunMiner(agents.analyze, walk);
      if mined.Err? {
        return Failed(projectId, mined.error);
      }
      var results := mined.value.results;
      var plan := architect.PlanNavigation(results);
      ghost var groups :| Grouping.IsGrouping(groups, results, ModuleOf) && plan == AA.PlanOf(agents.architect, groups);
      if plan.None? {
        return Failed(projectId, MissingPlan);
      }
      var modules := UniqueModules(results);
      var pages := CollectPages(plan.value.tree, []);
      var docsPath := JoinPath(outputDir, projectId);
      var statuses := WritePages(scribe, pages, modules, results);
      if statuses.Err? {
        return Failed(projectId, statuses.error);
      }
      r := Completed(projectId, docsPath, |pages|, statuses.value);
    }
  }
}
