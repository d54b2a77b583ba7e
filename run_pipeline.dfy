/** The command-line pipeline: loads the miner's saved output, plans the navigation (or reuses
    the saved plan), flattens the plan into pages, and has the scribe write each page, logging a
    failure and going on with the next. The plan goes through its JSON form either way, so the
    page nodes are decoded dictionaries. */
module RunPipeline {
  import opened Wrappers
  import opened JsonValues
  import opened Text
  import opened SeqUtil
  import opened Grouping
  import opened Facts
  import opened Wiki
  import Sorting
  import DS = DocumentationService
  import AA = ArchitectAgent
  import SA = ScribeAgent
  import Tok = Tokenizer

  const OutputDir := "wiki_docs"
  const PlanFile := "wiki_plan.json"
  const SidebarFile := "wiki_docs/sidebar.json"
  const MaxTargets := 5
  const MissingKey := "OPENAI_API_KEY not found."
  const MissingMinerOutput := "miner_output.json not found. Run miner first."
  const PlanFailed := "Architect failed to plan."

  // ---------------------------------------------------------------------------
  // Target modules

  /** A page whose id names a repository or a storage layer. */
  predicate StorageRelated(pageId: string)
  {
    Contains(pageId, "repository") || Contains(pageId, "storage")
  }

  /** The keywords of `resolve_target_modules`: the id's and the title's long words, and for a
      storage-related page both "storage" and "repository". */
  function KeywordList(pageId: string, title: string): (r: seq<string>)
    ensures forall k :: k in r ==> |k| > 2
  {
    DS.Keywords(pageId, title) + (if StorageRelated(pageId) then ["storage", "repository"] else [])
  }

  /** `resolve_target_modules`: the first five modules naming a keyword, in module order; with
      none and "backend" among the keywords, "app" whether or not it is a module. */
  function Resolved(pageId: string, title: string, modules: seq<string>): seq<string>
  {
    var keywords := KeywordList(pageId, title);
    var matched := DS.Matching(modules, keywords);
    if |matched| == 0 && "backend" in keywords then ["app"] else Take(matched, MaxTargets)
  }

  /** At most five targets; outside the fallback, known modules naming a keyword, all of them when
      no more than five match; the fallback is exactly a backend page that matches nothing. */
  lemma ResolvedSpec(pageId: string, title: string, modules: seq<string>)
    ensures |Resolved(pageId, title, modules)| <= MaxTargets
    ensures var keywords := KeywordList(pageId, title);
      (exists m :: m in modules && DS.MatchesAny(m, keywords)) ==>
        forall m :: m in Resolved(pageId, title, modules) ==> m in modules && DS.MatchesAny(m, keywords)
    ensures var keywords := KeywordList(pageId, title);
      |DS.Matching(modules, keywords)| <= MaxTargets ==>
        forall m :: m in modules && DS.MatchesAny(m, keywords) ==> m in Resolved(pageId, title, modules)
    ensures var keywords := KeywordList(pageId, title);
      (forall m :: m in modules ==> !DS.MatchesAny(m, keywords)) ==>
        Resolved(pageId, title, modules) == (if "backend" in keywords then ["app"] else [])
  {
    var keywords := KeywordList(pageId, title);
    var matched := DS.Matching(modules, keywords);
    assert |matched| > 0 ==> matched[0] in matched;
  }

  /** A storage or repository page finds the modules named after storage or repositories, even
      when neither word is in its id or title as a word of its own. */
  lemma StoragePagesFindRepositories(pageId: string, title: string, modules: seq<string>, m: string)
    requires StorageRelated(pageId)
    requires m in modules
    requires Contains(Lower(m), "storage") || Contains(Lower(m), "repository")
    ensures |Resolved(pageId, title, modules)| > 0
    ensures |DS.Matching(modules, KeywordList(pageId, title))| <= MaxTargets ==> m in Resolved(pageId, title, modules)
  {
    var keywords := KeywordList(pageId, title);
    assert "storage" in keywords && "repository" in keywords;
    assert DS.MatchesAny(m, keywords);
    ResolvedSpec(pageId, title, modules);
  }

  /** Where nothing matches a backend page, the script answers "app" even when there is no such
      module, while the documentation service answers "app" only when it is a module, and the
      first module otherwise. */
  lemma FallbackDiffersFromService(pageId: string, title: string, modules: seq<string>)
    requires "backend" in DS.Keywords(pageId, title)
    requires forall m :: m in modules ==> !DS.MatchesAny(m, KeywordList(pageId, title))
    ensures Resolved(pageId, title, modules) == ["app"]
    ensures DS.ResolvedTargets(pageId, title, modules) == if "app" in modules then ["app"] else Take(modules, 1)
  {
    var keywords := KeywordList(pageId, title);
    ResolvedSpec(pageId, title, modules);
    forall m | m in modules
      ensures !DS.MatchesAny(m, DS.Keywords(pageId, title))
    {
      assert !DS.MatchesAny(m, keywords);
    }
    DS.ResolvedTargetsSpec(pageId, title, modules);
  }

  /** The keyword set and the target loop of `resolve_target_modules`. */
  method ResolveTargetModules(pageId: string, title: string, modules: seq<string>) returns (targets: seq<string>)
    ensures targets == Resolved(pageId, title, modules)
  {
    var words := DS.Keywords(pageId, title);
    var keywords: set<string> := set k | k in words;
    if Contains(pageId, "repository") || Contains(pageId, "storage") {
      keywords := keywords + {"storage", "repository"};
    }
    ghost var spec := KeywordList(pageId, title);
    assert forall k :: k in keywords <==> k in spec;
    var found := MatchModules(modules, keywords, spec);
    if |found| == 0 && "backend" in keywords {
      return ["app"];
    }
    targets := Take(found, MaxTargets);
  }

  /** The module loop of `resolve_target_modules`: the modules whose lower-cased name contains a
      keyword, in module order. */
  method MatchModules(modules: seq<string>, keywords: set<string>, ghost spec: seq<string>) returns (found: seq<string>)
    requires forall k :: k in keywords <==> k in spec
    ensures found == DS.Matching(modules, spec)
  {
    found := [];
    for i := 0 to |modules|
      invariant found == DS.Matching(modules[..i], spec)
    {
      DS.MatchingSnoc(modules, spec, i);
      if exists k :: k in keywords && Contains(Lower(modules[i]), k) {
        found := found + [modules[i]];
      }
    }
    assert modules[..|modules|] == modules;
  }

  // ---------------------------------------------------------------------------
  // Page type

  /** The script's overview rule: "overview" in the id, or "architecture" in the lower-cased label. */
  predicate ScriptOverview(pageId: string, caption: string)
  {
    Contains(pageId, "overview") || Contains(Lower(caption), "architecture")
  }

  function ScriptPageType(pageId: string, caption: string): (r: string)
    ensures r == DS.ArchitectureOverview || r == DS.ModuleReference
  {
    if ScriptOverview(pageId, caption) then DS.ArchitectureOverview else DS.ModuleReference
  }

  /** The script and the documentation service disagree exactly on the pages whose label says
      "intro" and nothing else makes an overview: the service calls them overviews. */
  lemma ScriptPageTypeAgainstService(pageId: string, caption: string)
    ensures ScriptPageType(pageId, caption) == DS.ArchitectureOverview <==> ScriptOverview(pageId, caption)
    ensures ScriptPageType(pageId, caption) != DS.PageType(pageId, caption) <==>
      !ScriptOverview(pageId, caption) && Contains(Lower(caption), "intro")
  {
  }

  /** The scribe picks its architecture prompt exactly for the pages the script calls overviews. */
  lemma ScriptPromptFollowsPageType(pageId: string, caption: string)
    ensures SA.UsesArchitecturePrompt(ScriptPageType(pageId, caption), caption) <==> ScriptOverview(pageId, caption)
  {
    if ScriptOverview(pageId, caption) {
      assert Lower(DS.ArchitectureOverview) == DS.ArchitectureOverview;
      ContainsAt(DS.ArchitectureOverview, "overview", 13);
    } else {
      DS.ModuleReferenceHasNoOverview();
    }
  }

  // ---------------------------------------------------------------------------
  // Flattening the plan

  /** The message of Python's AttributeError for `x.attr`. */
  function NoAttribute(x: Json, attr: string): string
  {
    "'" + TypeName(x) + "' object has no attribute '" + attr + "'"
  }

  /** The message of Python's TypeError for `for _ in x`. */
  function NotIterable(x: Json): string
  {
    "'" + TypeName(x) + "' object is not iterable"
  }

  /** `traverse(nodes)`: the page nodes in pre-order. Iterating a string or a dict visits strings,
      whose `type` attribute does not exist; other scalars cannot be iterated. */
  function Traverse(nodes: Json): Result<seq<Json>>
    decreases nodes, 1, 0
  {
    match nodes
      case JArr(_) => TraverseFrom(nodes, 0)
      case JStr(s) => if |s| == 0 then Ok([]) else Err(NoAttribute(JStr([s[0]]), "type"))
      case JObj(fields) => if |fields| == 0 then Ok([]) else Err(NoAttribute(JStr(""), "type"))
      case _ => Err(NotIterable(nodes))
  }

  /** The loop of `traverse` from the `i`-th node of a list on. */
  function TraverseFrom(list: Json, i: nat): Result<seq<Json>>
    requires list.JArr? && i <= |list.items|
    decreases list, 0, |list.items| - i
  {
    if i == |list.items| then Ok([])
    else
      match Visit(list.items[i])
        case Err(e) => Err(e)
        case Ok(here) =>
          match TraverseFrom(list, i + 1)
            case Err(e) => Err(e)
            case Ok(rest) => Ok(here + rest)
  }

  /** One node: itself when its type is "page", then the pages under its children when it has
      any (a missing "children" reads as the empty list). */
  function Visit(node: Json): Result<seq<Json>>
    decreases node, 2, 0
  {
    match node
      case JObj(fields) =>
        var here := if GetOr(fields, "type", JNull) == JStr("page") then [node] else [];
        if "children" in fields && Truthy(fields["children"]) then
          match Traverse(fields["children"])
            case Err(e) => Err(e)
            case Ok(below) => Ok(here + below)
        else Ok(here)
      case _ => Err(NoAttribute(node, "type"))
  }

  /** `traverse(plan_data.get("tree", []))`, or the AttributeError of `plan_data.tree` when the
      plan is not a dict. */
  function PlanPages(plan: Json): Result<seq<Json>>
  {
    match plan
      case JObj(fields) => Traverse(GetOr(fields, "tree", JArr([])))
      case _ => Err(NoAttribute(plan, "tree"))
  }

  /** `model_dump()` of a navigation node. */
  function NodeJson(n: NavNode): Json
    decreases n
  {
    JObj(map["id" := JStr(n.id), "label" := JStr(n.caption), "type" := JStr(n.kind),
             "children" := JArr(seq(|n.children|, k requires 0 <= k < |n.children| => NodeJson(n.children[k])))])
  }

  function NodesJson(nodes: seq<NavNode>): (r: seq<Json>)
    ensures |r| == |nodes| && forall k :: 0 <= k < |nodes| ==> r[k] == NodeJson(nodes[k])
  {
    seq(|nodes|, k requires 0 <= k < |nodes| => NodeJson(nodes[k]))
  }

  /** `plan.model_dump()`. */
  function PlanJson(plan: Navigation): Json
  {
    JObj(map["tree" := JArr(NodesJson(plan.tree))])
  }

  lemma NodesJsonAppend(a: seq<NavNode>, b: seq<NavNode>)
    ensures NodesJson(a + b) == NodesJson(a) + NodesJson(b)
  {
  }

  /** Pre-order pages of a non-empty forest: the first node, the pages under it, the rest. */
  lemma PagesOfCons(nodes: seq<NavNode>)
    requires |nodes| > 0
    ensures DS.PagesOf(nodes) == (if DS.IsPage(nodes[0]) then [nodes[0]] else []) + DS.PagesOf(nodes[0].children) + DS.PagesOf(nodes[1..])
  {
    var x := nodes[0];
    assert DS.PreOrder(nodes) == [x] + DS.PreOrder(x.children) + DS.PreOrder(nodes[1..]);
    FilterAppend([x] + DS.PreOrder(x.children), DS.PreOrder(nodes[1..]), DS.IsPage);
    FilterAppend([x], DS.PreOrder(x.children), DS.IsPage);
    assert Filter([x], DS.IsPage) == if DS.IsPage(x) then [x] else [] by {
      assert [x][..0] == [];
    }
  }

  /** Visiting a dumped node gives the dumps of the node, when a page, and of the pages under it. */
  lemma {:induction false} VisitDumped(n: NavNode)
    ensures Visit(NodeJson(n)) == Ok(NodesJson((if DS.IsPage(n) then [n] else []) + DS.PagesOf(n.children)))
    decreases n, 1
  {
    var fields := NodeJson(n).fields;
    var here := if DS.IsPage(n) then [n] else [];
    assert (GetOr(fields, "type", JNull) == JStr("page")) == DS.IsPage(n);
    assert NodesJson(here) == if GetOr(fields, "type", JNull) == JStr("page") then [NodeJson(n)] else [];
    NodesJsonAppend(here, DS.PagesOf(n.children));
    if |n.children| == 0 {
      assert !Truthy(fields["children"]);
      assert DS.PagesOf(n.children) == [] by {
        assert DS.PreOrder(n.children) == [];
      }
      assert here + [] == here;
    } else {
      assert fields["children"] == JArr(NodesJson(n.children));
      TraverseFromDumped(n, 0);
      assert n.children[0..] == n.children;
    }
  }

  /** Traversing the dumped children of `parent` from the `i`-th on gives the dumps of their pages. */
  lemma {:induction false} TraverseFromDumped(parent: NavNode, i: nat)
    requires i <= |parent.children|
    ensures TraverseFrom(JArr(NodesJson(parent.children)), i) == Ok(NodesJson(DS.PagesOf(parent.children[i..])))
    decreases parent, 0, |parent.children| - i
  {
    var list := JArr(NodesJson(parent.children));
    if i == |parent.children| {
      assert parent.children[i..] == [];
    } else {
      var x := parent.children[i];
      VisitDumped(x);
      TraverseFromDumped(parent, i + 1);
      PagesOfCons(parent.children[i..]);
      assert parent.children[i..][1..] == parent.children[i + 1..];
      NodesJsonAppend((if DS.IsPage(x) then [x] else []) + DS.PagesOf(x.children), DS.PagesOf(parent.children[i + 1..]));
    }
  }

  /** A freshly made plan, dumped and traversed, gives the dumps of its pages in pre-order: the
      same pages, in the same order, as the documentation service collects from the plan itself. */
  lemma FreshPlanPages(plan: Navigation)
    ensures PlanPages(PlanJson(plan)) == Ok(NodesJson(DS.PagesOf(plan.tree)))
  {
    var root := NavNode("", "", "", plan.tree);
    TraverseFromDumped(root, 0);
    assert plan.tree[0..] == plan.tree;
  }

  // ---------------------------------------------------------------------------
  // The module list

  /** The module-list loop: the distinct non-empty parent directories of the result files, the
      same list the documentation service builds. */
  method ModuleList(results: seq<FileFacts>) returns (modules: seq<string>)
    ensures modules == DS.UniqueModules(results)
  {
    var dirs: set<string> := {};
    for i := 0 to |results|
      invariant forall d :: d in dirs <==> d in DS.ParentDirs(results[..i])
    {
      assert results[..i + 1][..i] == results[..i];
      var parent := Dirname(results[i].file);
      if parent != "" {
        dirs := dirs + {parent};
      }
    }
    assert results[..|results|] == results;
    var listed := SetToList(dirs);
    modules := Sorting.SetList(listed);
    Sorting.SortedListUnique(modules, DS.UniqueModules(results));
  }

  /** `list(s)`: every element once, in the ascending order this model gives sets. */
  method SetToList(s: set<string>) returns (r: seq<string>)
    ensures forall x :: x in r <==> x in s
  {
    r := [];
    var rest := s;
    while rest != {}
      invariant forall x :: x in s <==> x in r || x in rest
      invariant forall x :: x in r ==> x in s
      decreases |rest|
    {
      var x :| x in rest;
      r := r + [x];
      rest := rest - {x};
    }
  }

  // ---------------------------------------------------------------------------
  // Writing the pages

  /** The id and the label of a collected page node, as `resolve_target_modules` uses them: it
      calls `replace` on the id and `lower` on the label, so both must be strings. */
  function PageKey(page: Json): Result<(string, string)>
  {
    if !page.JObj? then Err(NoAttribute(page, "id"))
    else
      var id := GetOr(page.fields, "id", JNull);
      var caption := GetOr(page.fields, "label", JNull);
      if !id.JStr? then Err(NoAttribute(id, "replace"))
      else if !caption.JStr? then Err(NoAttribute(caption, "lower"))
      else Ok((id.s, caption.s))
  }

  /** The keys of the pages, or the exception of the first page without one. */
  function PageKeys(pages: seq<Json>): (r: Result<seq<(string, string)>>)
    ensures r.Ok? <==> forall k :: 0 <= k < |pages| ==> PageKey(pages[k]).Ok?
    ensures r.Ok? ==> |r.value| == |pages| && forall k :: 0 <= k < |pages| ==> r.value[k] == PageKey(pages[k]).value
  {
    if |pages| == 0 then Ok([])
    else
      match PageKeys(pages[..|pages| - 1])
        case Err(e) => Err(e)
        case Ok(init) =>
          match PageKey(pages[|pages| - 1])
            case Err(e) => Err(e)
            case Ok(key) => Ok(init + [key])
  }

  /** The exception of the first page without a key is the one that ends the script. */
  lemma {:induction false} PageKeysFirstError(pages: seq<Json>, i: nat)
    requires i < |pages| && PageKey(pages[i]).Err?
    requires forall k :: 0 <= k < i ==> PageKey(pages[k]).Ok?
    ensures PageKeys(pages) == Err(PageKey(pages[i]).error)
    decreases |pages|
  {
    if i < |pages| - 1 {
      PageKeysFirstError(pages[..|pages| - 1], i);
    }
  }

  /** Dumped nodes always carry their id and label: a fresh plan never stops the page loop. */
  lemma DumpedPagesKeyed(nodes: seq<NavNode>)
    ensures PageKeys(NodesJson(nodes)) == Ok(seq(|nodes|, k requires 0 <= k < |nodes| => (nodes[k].id, nodes[k].caption)))
  {
    var pages := NodesJson(nodes);
    forall k | 0 <= k < |pages|
      ensures PageKey(pages[k]) == Ok((nodes[k].id, nodes[k].caption))
    {
      assert pages[k] == NodeJson(nodes[k]);
    }
    var r := PageKeys(pages);
    assert r.value == seq(|nodes|, k requires 0 <= k < |nodes| => (nodes[k].id, nodes[k].caption));
  }

  /** `keys` are the keys of the first pages. */
  ghost predicate KeyedPrefix(pages: seq<Json>, keys: seq<(string, string)>)
  {
    |keys| <= |pages| && forall k :: 0 <= k < |keys| ==> PageKey(pages[k]) == Ok(keys[k])
  }

  lemma KeyedPrefixSnoc(pages: seq<Json>, keys: seq<(string, string)>, key: (string, string))
    requires KeyedPrefix(pages, keys) && |keys| < |pages| && PageKey(pages[|keys|]) == Ok(key)
    ensures KeyedPrefix(pages, keys + [key])
  {
  }

  /** All the pages keyed: the keys are those of `PageKeys`. */
  lemma KeyedAll(pages: seq<Json>, keys: seq<(string, string)>)
    requires KeyedPrefix(pages, keys) && |keys| == |pages|
    ensures PageKeys(pages) == Ok(keys)
  {
    var r := PageKeys(pages);
    assert r.Ok?;
    assert forall k :: 0 <= k < |pages| ==> r.value[k] == keys[k];
    assert r.value == keys;
  }

  lemma KeyedFirstError(pages: seq<Json>, keys: seq<(string, string)>)
    requires KeyedPrefix(pages, keys) && |keys| < |pages| && PageKey(pages[|keys|]).Err?
    ensures PageKeys(pages) == Err(PageKey(pages[|keys|]).error)
  {
    PageKeysFirstError(pages, |keys|);
  }

  /** What the scribe makes of a page, by its id and label. */
  type KeyWriter = ((string, string)) -> Option<WikiPage>

  /** The script's page: its own type rule and target modules. */
  function ScriptWriter(setup: SA.Setup, enc: Tok.Encoding, modules: seq<string>, results: seq<FileFacts>): KeyWriter
  {
    (key: (string, string)) => SA.PageOf(setup, enc, key.0, ScriptPageType(key.0, key.1), key.1, Resolved(key.0, key.1, modules), results)
  }

  /** `f"{OUTPUT_DIR}/{p_id}.json"`. */
  function PageFile(pageId: string): string
  {
    OutputDir + "/" + pageId + ".json"
  }

  /** The files saved for the pages, in page order: one for each page the scribe wrote. */
  function SavedFiles(write: KeyWriter, keys: seq<(string, string)>): seq<string>
  {
    if |keys| == 0 then []
    else
      var key := keys[|keys| - 1];
      SavedFiles(write, keys[..|keys| - 1]) + (if write(key).Some? then [PageFile(key.0)] else [])
  }

  /** A file is saved for a page exactly when the scribe wrote it; each file names its page. */
  lemma {:induction false} SavedFilesMembers(write: KeyWriter, keys: seq<(string, string)>)
    ensures |SavedFiles(write, keys)| <= |keys|
    ensures forall k :: 0 <= k < |keys| && write(keys[k]).Some? ==> PageFile(keys[k].0) in SavedFiles(write, keys)
    ensures forall f :: f in SavedFiles(write, keys) ==>
      exists k :: 0 <= k < |keys| && write(keys[k]).Some? && f == PageFile(keys[k].0)
  {
    if |keys| > 0 {
      var init := keys[..|keys| - 1];
      SavedFilesMembers(write, init);
      forall f | f in SavedFiles(write, keys)
        ensures exists k :: 0 <= k < |keys| && write(keys[k]).Some? && f == PageFile(keys[k].0)
      {
        if f in SavedFiles(write, init) {
          var k :| 0 <= k < |init| && write(init[k]).Some? && f == PageFile(init[k].0);
          assert keys[k] == init[k];
        }
      }
      forall k | 0 <= k < |keys| && write(keys[k]).Some?
        ensures PageFile(keys[k].0) in SavedFiles(write, keys)
      {
        if k < |keys| - 1 {
          assert keys[k] == init[k];
        }
      }
    }
  }

  /** Saving after one more page appends that page's file when the scribe wrote it. */
  lemma SavedFilesSnoc(write: KeyWriter, keys: seq<(string, string)>, key: (string, string))
    ensures SavedFiles(write, keys + [key]) == SavedFiles(write, keys) + (if write(key).Some? then [PageFile(key.0)] else [])
  {
    assert (keys + [key])[..|keys|] == keys;
  }

  /** One turn of the page loop: the key (raising out of the script when there is none), then,
      inside the `try`, the scribe's page, saved when written; a tokenizer failure is logged. */
  method WriteOne(scribe: SA.Scribe, page: Json, modules: seq<string>, results: seq<FileFacts>)
    returns (r: Result<Option<string>>)
    modifies scribe.tok
    ensures r.Err? <==> PageKey(page).Err?
    ensures r.Err? ==> r.error == PageKey(page).error && scribe.tok.encoding == old(scribe.tok.encoding)
    ensures old(scribe.tok.encoding).Some? ==> scribe.tok.encoding == old(scribe.tok.encoding)
    ensures old(scribe.tok.encoding).None? && r.Ok? ==>
      (scribe.tok.encoding.Some? <==> Tok.LoadWithFallback(scribe.tok.loader).Ok?)
    ensures r.Ok? && scribe.tok.encoding.None? ==> r.value.None?
    ensures r.Ok? && scribe.tok.encoding.Some? ==>
      r.value == (var key := PageKey(page).value;
                  if ScriptWriter(scribe.setup, scribe.tok.encoding.value, modules, results)(key).Some?
                  then Some(PageFile(key.0)) else None)
  {
    var key := PageKey(page);
    if key.Err? {
      return Err(key.error);
    }
    var (pageId, caption) := key.value;
    var targets := ResolveTargetModules(pageId, caption, modules);
    var pageType := ScriptPageType(pageId, caption);
    var written := scribe.WritePage(pageId, pageType, caption, targets, results);
    if written.Ok? && written.value.Some? {
      return Ok(Some(PageFile(pageId)));
    }
    r := Ok(None);
  }

  /** The page loop of `main`: the files saved, in page order, or the exception of the first page
      without a key. A tokenizer that cannot load fails every page alike, and nothing is saved. */
  method WritePages(scribe: SA.Scribe, pages: seq<Json>, modules: seq<string>, results: seq<FileFacts>)
    returns (r: Result<seq<string>>)
    modifies scribe.tok
    ensures r.Err? <==> PageKeys(pages).Err?
    ensures r.Err? ==> r.error == PageKeys(pages).error
    ensures old(scribe.tok.encoding).Some? ==> scribe.tok.encoding == old(scribe.tok.encoding)
    ensures r.Ok? && scribe.tok.encoding.None? ==> r.value == []
    ensures r.Ok? && scribe.tok.encoding.Some? ==>
      r.value == SavedFiles(ScriptWriter(scribe.setup, scribe.tok.encoding.value, modules, results), PageKeys(pages).value)
  {
    var saved: seq<string> := [];
    ghost var keys: seq<(string, string)> := [];
    ghost var enc: Tok.Encoding := *;
    if scribe.tok.encoding.Some? {
      enc := scribe.tok.encoding.value;
    }
    for i := 0 to |pages|
      invariant old(scribe.tok.encoding).Some? ==> scribe.tok.encoding == old(scribe.tok.encoding)
      invariant i == 0 ==> scribe.tok.encoding == old(scribe.tok.encoding)
      invariant |keys| == i && KeyedPrefix(pages, keys)
      invariant scribe.tok.encoding.None? ==> saved == []
      invariant scribe.tok.encoding.None? && i > 0 ==> Tok.LoadWithFallback(scribe.tok.loader).Err?
      invariant scribe.tok.encoding.Some? ==> scribe.tok.encoding == Some(enc)
      invariant scribe.tok.encoding.Some? ==> saved == SavedFiles(ScriptWriter(scribe.setup, enc, modules, results), keys)
    {
      var file := WriteOne(scribe, pages[i], modules, results);
      if file.Err? {
        KeyedFirstError(pages, keys);
        return Err(file.error);
      }
      ghost var key := PageKey(pages[i]).value;
      if scribe.tok.encoding.Some? {
        enc := scribe.tok.encoding.value;
        SavedFilesSnoc(ScriptWriter(scribe.setup, enc, modules, results), keys, key);
      }
      KeyedPrefixSnoc(pages, keys, key);
      keys := keys + [key];
      if file.value.Some? {
        saved := saved + [file.value.value];
      }
    }
    KeyedAll(pages, keys);
    r := Ok(saved);
  }

  // ---------------------------------------------------------------------------
  // The script

  /** How a run of the script ends: stopped with a logged error, crashed with an exception, or
      finished with the collected pages and the page files saved. */
  datatype Outcome =
    | Stopped(reason: string)
    | Crashed(error: string)
    | Finished(planSaved: bool, pages: seq<Json>, saved: seq<string>)

  /** The files the script saves for the pages, given the scribe's state after the loop. */
  ghost predicate SavesPages(scribe: SA.Scribe, pages: seq<Json>, results: seq<FileFacts>, saved: seq<string>)
    reads scribe, scribe.tok
    requires PageKeys(pages).Ok?
  {
    if scribe.tok.encoding.Some? then
      saved == SavedFiles(ScriptWriter(scribe.setup, scribe.tok.encoding.value, DS.UniqueModules(results), results),
                          PageKeys(pages).value)
    else
      saved == []
  }

  /** `main`: the API key and the miner's saved output must be there; a saved plan is reused
      as it stands, otherwise the architect plans and the plan is saved; then every page of the
      plan goes to the scribe. `apiKey`, `minerOutput` and `savedPlan` are what the environment
      and the working directory hold. */
  method RunScript(apiKey: Option<string>, minerOutput: Option<seq<FileFacts>>, savedPlan: Option<Json>,
                   architect: AA.Architect, scribe: SA.Scribe)
    returns (out: Outcome)
    modifies scribe.tok
    ensures apiKey.None? || apiKey == Some("") ==> out == Stopped(MissingKey)
    ensures apiKey.Some? && apiKey != Some("") && minerOutput.None? ==> out == Stopped(MissingMinerOutput)
    ensures out.Stopped? ==> out.reason == PlanFailed || apiKey.None? || apiKey == Some("") || minerOutput.None?
    ensures out.Stopped? && out.reason == PlanFailed ==>
      savedPlan.None? && minerOutput.Some? &&
      exists groups :: IsGrouping(groups, minerOutput.value, ModuleOf) && AA.PlanOf(architect.setup, groups).None?
    ensures out.Finished? || out.Crashed? ==> apiKey.Some? && apiKey != Some("") && minerOutput.Some?
    ensures savedPlan.Some? && !out.Stopped? ==>
      match PlanPages(savedPlan.value)
      case Err(e) => out == Crashed(e)
      case Ok(pages) => (out.Crashed? ==> PageKeys(pages).Err? && out.error == PageKeys(pages).error) &&
                        (out.Finished? ==> !out.planSaved && out.pages == pages)
    ensures savedPlan.None? && out.Finished? ==>
      out.planSaved &&
      exists groups :: IsGrouping(groups, minerOutput.value, ModuleOf) &&
        AA.PlanOf(architect.setup, groups).Some? &&
        out.pages == NodesJson(DS.PagesOf(AA.PlanOf(architect.setup, groups).value.tree))
    ensures savedPlan.None? ==> !out.Crashed?
    ensures out.Finished? ==> PageKeys(out.pages).Ok? && SavesPages(scribe, out.pages, minerOutput.value, out.saved)
  {
    if apiKey.None? || apiKey.value == "" {
      return Stopped(MissingKey);
    }
    if minerOutput.None? {
      return Stopped(MissingMinerOutput);
    }
    var results := minerOutput.value;
    var plan: Json;
    var planSaved: bool;
    if savedPlan.Some? {
      plan := savedPlan.value;
      planSaved := false;
    } else {
      var navigation := architect.PlanNavigation(results);
      if navigation.None? {
        return Stopped(PlanFailed);
      }
      plan := PlanJson(navigation.value);
      planSaved := true;
      FreshPlanPages(navigation.value);
      DumpedPagesKeyed(DS.PagesOf(navigation.value.tree));
    }
    var pages := PlanPages(plan);
    if pages.Err? {
      return Crashed(pages.error);
    }
    var modules := ModuleList(results);
    var saved := WritePages(scribe, pages.value, modules, results);
    if saved.Err? {
      return Crashed(saved.error);
    }
    out := Finished(planSaved, pages.value, saved.value);
  }
}
