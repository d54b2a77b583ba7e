/** The architect: plans the wiki's navigation from an overview of the modules, and writes a
    page from the facts of the modules its id matches. Both go through a fresh executor with one
    submit tool. */
module ArchitectAgent {
  import opened Wrappers
  import opened JsonValues
  import opened Conversation
  import opened Text
  import opened SeqUtil
  import opened Grouping
  import opened Facts
  import opened Wiki
  import Sorting
  import Capture

  const MaxIterations := 2
  /** The number of characters of source material a page request carries. */
  const MaxSourceChars := 100000
  const MaxSummaryTopics := 10

  /** The collaborators an architect works with: the language-model service, the JSON codec, the
      two system prompts, the schemas offered with the submit tools, and the validations. */
  datatype Setup = Setup(service: Service, codec: Codec, navigationPrompt: string, pageWriterPrompt: string,
                         navigationSchema: Json, pageSchema: Json, parseNavigation: NavParser, parsePage: PageParser)

  /** The files of a module as the defaultdict yields them: none for a module it does not hold. */
  function FilesOf(groups: Groups<FileFacts>, m: string): seq<FileFacts>
  {
    if m in groups.groups then groups.groups[m] else []
  }

  // ---------------------------------------------------------------------------
  // The module summary

  /** The topics of all conclusions of the files, in order, repeats included. */
  function AllTopics(files: seq<FileFacts>): seq<string>
  {
    if |files| == 0 then []
    else AllTopics(files[..|files| - 1]) + TopicsOf(files[|files| - 1].conclusions)
  }

  function TopicsOf(cs: seq<Conclusion>): (r: seq<string>)
    ensures |r| == |cs| && forall j :: 0 <= j < |cs| ==> r[j] == cs[j].topic
  {
    seq(|cs|, j requires 0 <= j < |cs| => cs[j].topic)
  }

  /** Every topic of every file's conclusions is among the collected topics, and nothing else is. */
  lemma {:induction false} AllTopicsMembers(files: seq<FileFacts>)
    ensures forall k, j :: 0 <= k < |files| && 0 <= j < |files[k].conclusions| ==> files[k].conclusions[j].topic in AllTopics(files)
    ensures forall t :: t in AllTopics(files) ==> exists k, j :: 0 <= k < |files| && 0 <= j < |files[k].conclusions| && files[k].conclusions[j].topic == t
  {
    if |files| > 0 {
      var init := files[..|files| - 1];
      var last := files[|files| - 1];
      AllTopicsMembers(init);
      assert AllTopics(files) == AllTopics(init) + TopicsOf(last.conclusions);
      forall k, j | 0 <= k < |files| && 0 <= j < |files[k].conclusions|
        ensures files[k].conclusions[j].topic in AllTopics(files)
      {
        if k < |files| - 1 {
          assert init[k] == files[k];
        } else {
          assert TopicsOf(last.conclusions)[j] == files[k].conclusions[j].topic;
        }
      }
      forall t | t in AllTopics(files)
        ensures exists k, j :: 0 <= k < |files| && 0 <= j < |files[k].conclusions| && files[k].conclusions[j].topic == t
      {
        if t in AllTopics(init) {
          var k, j :| 0 <= k < |init| && 0 <= j < |init[k].conclusions| && init[k].conclusions[j].topic == t;
          assert files[k] == init[k];
        } else {
          var j :| 0 <= j < |last.conclusions| && TopicsOf(last.conclusions)[j] == t;
          assert files[|files| - 1].conclusions[j].topic == t;
        }
      }
    }
  }

  /** The summary's topics: the distinct topics, in the order the set is listed, at most ten. */
  function SummaryTopics(files: seq<FileFacts>): seq<string>
  {
    Take(Sorting.SetList(AllTopics(files)), MaxSummaryTopics)
  }

  function SummaryText(m: string, files: seq<FileFacts>): string
  {
    "Module: " + m + "\nFiles: " + NatToString(|files|) + "\nTopics: " + Join(SummaryTopics(files), ", ")
  }

  /** At most ten topics are listed, none twice, each the topic of some conclusion; when there are
      at most ten distinct topics, all of them are listed. */
  lemma SummaryTopicsBounded(files: seq<FileFacts>)
    ensures var ts := SummaryTopics(files);
      |ts| <= MaxSummaryTopics && Distinct(ts)
      && (forall t :: t in ts ==> exists k, j :: 0 <= k < |files| && 0 <= j < |files[k].conclusions| && files[k].conclusions[j].topic == t)
      && (|Sorting.SetList(AllTopics(files))| <= MaxSummaryTopics ==>
            forall k, j :: 0 <= k < |files| && 0 <= j < |files[k].conclusions| ==> files[k].conclusions[j].topic in ts)
  {
    AllTopicsMembers(files);
    var all := Sorting.SetList(AllTopics(files));
    var ts := SummaryTopics(files);
    assert forall t :: t in ts ==> t in all;
  }

  lemma AllTopicsSnoc(files: seq<FileFacts>, i: nat)
    requires i < |files|
    ensures AllTopics(files[..i + 1]) == AllTopics(files[..i]) + TopicsOf(files[i].conclusions)
  {
    assert files[..i + 1][..i] == files[..i];
  }

  /** `_summarize_module_for_context`: the loops add every topic to a set, which is then listed. */
  method SummarizeModule(m: string, files: seq<FileFacts>) returns (context: string)
    ensures context == SummaryText(m, files)
  {
    var topics: seq<string> := [];
    for i := 0 to |files|
      invariant topics == AllTopics(files[..i])
    {
      AllTopicsSnoc(files, i);
      var cs := files[i].conclusions;
      for j := 0 to |cs|
        invariant topics == AllTopics(files[..i]) + TopicsOf(cs[..j])
      {
        assert TopicsOf(cs[..j + 1]) == TopicsOf(cs[..j]) + [cs[j].topic];
        topics := topics + [cs[j].topic];
      }
      assert cs[..|cs|] == cs;
    }
    assert files[..|files|] == files;
    context := "Module: " + m + "\nFiles: " + NatToString(|files|) + "\nTopics: "
      + Join(Take(Sorting.SetList(topics), MaxSummaryTopics), ", ");
  }

  // ---------------------------------------------------------------------------
  // Navigation planning

  function ModuleLine(m: string, count: nat): string
  {
    "- " + m + " (" + NatToString(count) + " files)\n"
  }

  /** One line per module, in the order of the given keys. */
  function ModuleLines(groups: Groups<FileFacts>, keys: seq<string>): string
  {
    if |keys| == 0 then ""
    else
      var m := keys[|keys| - 1];
      ModuleLines(groups, keys[..|keys| - 1]) + ModuleLine(m, |FilesOf(groups, m)|)
  }

  function Overview(groups: Groups<FileFacts>): string
  {
    "Project Modules:\n" + ModuleLines(groups, groups.keys)
  }

  /** Every module has its line, with the number of its files, in the lines. */
  lemma {:induction false} ModuleLinesHoldEach(groups: Groups<FileFacts>, keys: seq<string>)
    ensures forall k :: 0 <= k < |keys| ==> Contains(ModuleLines(groups, keys), ModuleLine(keys[k], |FilesOf(groups, keys[k])|))
  {
    if |keys| > 0 {
      var init := keys[..|keys| - 1];
      var last := ModuleLine(keys[|keys| - 1], |FilesOf(groups, keys[|keys| - 1])|);
      var text := ModuleLines(groups, keys);
      ModuleLinesHoldEach(groups, init);
      ContainsMiddle(ModuleLines(groups, init), last, "");
      assert ModuleLines(groups, init) + last + "" == text;
      ContainsMiddle("", ModuleLines(groups, init), last);
      assert "" + ModuleLines(groups, init) + last == text;
      forall k | 0 <= k < |keys| - 1
        ensures Contains(text, ModuleLine(keys[k], |FilesOf(groups, keys[k])|))
      {
        assert init[k] == keys[k];
        ContainsTrans(text, ModuleLines(groups, init), ModuleLine(keys[k], |FilesOf(groups, keys[k])|));
      }
    }
  }

  /** Over the grouping of the results, the overview names every module of a result file with the
      number of result files in it. */
  lemma OverviewCountsFiles(groups: Groups<FileFacts>, data: seq<FileFacts>)
    requires IsGrouping(groups, data, ModuleOf)
    ensures StartsWith(Overview(groups), "Project Modules:\n")
    ensures forall k :: 0 <= k < |data| ==>
      Contains(Overview(groups), ModuleLine(ModuleOf(data[k]), |ItemsOf(data, ModuleOf, ModuleOf(data[k]))|))
  {
    var text := Overview(groups);
    assert text[..|"Project Modules:\n"|] == "Project Modules:\n";
    ModuleLinesHoldEach(groups, groups.keys);
    ContainsMiddle("Project Modules:\n", ModuleLines(groups, groups.keys), "");
    assert "Project Modules:\n" + ModuleLines(groups, groups.keys) + "" == text;
    forall k | 0 <= k < |data|
      ensures Contains(text, ModuleLine(ModuleOf(data[k]), |ItemsOf(data, ModuleOf, ModuleOf(data[k]))|))
    {
      var m := ModuleOf(data[k]);
      assert KeysOf(data, ModuleOf)[k] == m;
      assert m in groups.keys;
      var i :| 0 <= i < |groups.keys| && groups.keys[i] == m;
      ContainsTrans(text, ModuleLines(groups, groups.keys), ModuleLine(m, |FilesOf(groups, m)|));
    }
  }

  lemma ModuleLinesSnoc(groups: Groups<FileFacts>, keys: seq<string>, i: nat)
    requires i < |keys|
    ensures ModuleLines(groups, keys[..i + 1]) == ModuleLines(groups, keys[..i]) + ModuleLine(keys[i], |FilesOf(groups, keys[i])|)
  {
    assert keys[..i + 1][..i] == keys[..i];
  }

  /** The overview loop of `plan_navigation`, over the map's items in insertion order. */
  method BuildOverview(groups: Groups<FileFacts>) returns (text: string)
    ensures text == Overview(groups)
  {
    var title := "Project Modules:\n";
    text := title;
    ghost var lines := "";
    for i := 0 to |groups.keys|
      invariant lines == ModuleLines(groups, groups.keys[..i])
      invariant text == title + lines
    {
      ModuleLinesSnoc(groups, groups.keys, i);
      var m := groups.keys[i];
      var line := ModuleLine(m, |FilesOf(groups, m)|);
      assert (title + lines) + line == title + (lines + line);
      text := text + line;
      lines := lines + line;
    }
    assert groups.keys[..|groups.keys|] == groups.keys;
  }

  function NavigationRequest(overview: string): string
  {
    "Here is the project structure. Design the Wiki Navigation.\n\n" + overview
  }

  function SubmitNavigationDef(schema: Json): ToolDef
  {
    ToolDef("submit_navigation", "Submit navigation tree.", schema)
  }

  /** What the submit tool stored, validated: nothing when it stored nothing or an empty dict, or
      when validation raises. */
  function Validated<T>(data: Option<map<string, Json>>, parse: map<string, Json> -> Option<T>): (r: Option<T>)
    ensures r.Some? <==> data.Some? && |data.value| > 0 && parse(data.value).Some?
    ensures r.Some? ==> r == parse(data.value)
  {
    match data
      case None => None
      case Some(kw) => if |kw| == 0 then None else parse(kw)
  }

  /** `plan_navigation`, from the grouped results. */
  function PlanOf(setup: Setup, groups: Groups<FileFacts>): Option<Navigation>
  {
    Validated(Capture.Captured(setup.codec, setup.service, setup.navigationPrompt, NavigationRequest(Overview(groups)),
                               SubmitNavigationDef(setup.navigationSchema), MaxIterations),
              setup.parseNavigation)
  }

  /** A plan exists only when the model submitted a navigation that validates. */
  lemma PlanFromSubmission(setup: Setup, groups: Groups<FileFacts>)
    requires PlanOf(setup, groups).Some?
    ensures var (st, r) := Capture.FreshRun(setup.codec, setup.service, setup.navigationPrompt,
                                             NavigationRequest(Overview(groups)), SubmitNavigationDef(setup.navigationSchema), MaxIterations);
      r.Ok? && exists kw :: Invocation("submit_navigation", kw) in st.invocations && PlanOf(setup, groups) == setup.parseNavigation(kw)
  {
    var data := Capture.Captured(setup.codec, setup.service, setup.navigationPrompt, NavigationRequest(Overview(groups)),
                                 SubmitNavigationDef(setup.navigationSchema), MaxIterations);
    assert data.Some?;
  }

  // ---------------------------------------------------------------------------
  // Page writing

  /** A module serves a page when either name contains the other, or the page is "architecture". */
  predicate Serves(m: string, pageId: string)
  {
    Contains(pageId, m) || Contains(m, pageId) || pageId == "architecture"
  }

  /** The modules of a page: those that serve it, in map order, or all of them when none does. */
  function SelectModules(keys: seq<string>, pageId: string): (r: seq<string>)
  {
    var matched := Filter(keys, m => Serves(m, pageId));
    if |matched| == 0 then keys else matched
  }

  /** A selected module is a module of the map; when any module serves the page, exactly the
      serving modules are selected, and otherwise all are. */
  lemma SelectModulesSpec(keys: seq<string>, pageId: string)
    ensures forall m :: m in SelectModules(keys, pageId) ==> m in keys
    ensures (exists m :: m in keys && Serves(m, pageId)) ==>
      forall m :: m in SelectModules(keys, pageId) <==> m in keys && Serves(m, pageId)
    ensures (forall m :: m in keys ==> !Serves(m, pageId)) ==> SelectModules(keys, pageId) == keys
    ensures pageId == "architecture" ==> SelectModules(keys, pageId) == keys
  {
    var matched := Filter(keys, m => Serves(m, pageId));
    assert |matched| > 0 ==> matched[0] in matched;
    if pageId == "architecture" {
      FilterAll(keys, m => Serves(m, pageId));
    }
    if exists m :: m in keys && Serves(m, pageId) {
      var m :| m in keys && Serves(m, pageId);
      assert m in matched;
    }
  }

  /** A filter every element passes keeps the whole list. */

  /** Each selected module's fact text followed by an empty line. */
  function PageFacts(groups: Groups<FileFacts>, targets: seq<string>): string
  {
    if |targets| == 0 then ""
    else
      var m := targets[|targets| - 1];
      PageFacts(groups, targets[..|targets| - 1]) + ModuleText(m, FilesOf(groups, m)) + "\n"
  }

  lemma PageFactsSnoc(groups: Groups<FileFacts>, targets: seq<string>, i: nat)
    requires i < |targets|
    ensures PageFacts(groups, targets[..i + 1]) == PageFacts(groups, targets[..i]) + ModuleText(targets[i], FilesOf(groups, targets[i])) + "\n"
  {
    assert targets[..i + 1][..i] == targets[..i];
  }

  /** Every selected module has its whole fact text in the page facts. */
  lemma {:induction false} PageFactsHoldEach(groups: Groups<FileFacts>, targets: seq<string>)
    ensures forall k :: 0 <= k < |targets| ==> Contains(PageFacts(groups, targets), ModuleText(targets[k], FilesOf(groups, targets[k])))
  {
    if |targets| > 0 {
      var init := targets[..|targets| - 1];
      var m := targets[|targets| - 1];
      var text := PageFacts(groups, targets);
      PageFactsHoldEach(groups, init);
      ContainsMiddle(PageFacts(groups, init), ModuleText(m, FilesOf(groups, m)), "\n");
      ContainsMiddle("", PageFacts(groups, init), ModuleText(m, FilesOf(groups, m)) + "\n");
      assert "" + PageFacts(groups, init) + (ModuleText(m, FilesOf(groups, m)) + "\n") == text;
      forall k | 0 <= k < |targets| - 1
        ensures Contains(text, ModuleText(targets[k], FilesOf(groups, targets[k])))
      {
        assert init[k] == targets[k];
        ContainsTrans(text, PageFacts(groups, init), ModuleText(targets[k], FilesOf(groups, targets[k])));
      }
    }
  }

  function PageRequest(facts: string): string
  {
    "Write the page content.\n\nSOURCE MATERIAL:\n" + Take(facts, MaxSourceChars)
  }

  /** The request carries the first 100000 characters of the facts, so all of them when they fit. */
  lemma PageRequestCarriesFacts(facts: string)
    ensures |PageRequest(facts)| <= |"Write the page content.\n\nSOURCE MATERIAL:\n"| + MaxSourceChars
    ensures |facts| <= MaxSourceChars ==> EndsWith(PageRequest(facts), facts)
  {
    var r := PageRequest(facts);
    if |facts| <= MaxSourceChars {
      assert r[|r| - |facts|..] == facts;
    }
  }

  function SubmitPageDef(schema: Json): ToolDef
  {
    ToolDef("submit_page", "Submit page content.", schema)
  }

  /** `write_page`, from the grouped results: the page title goes into the writer prompt. */
  function PageOf(setup: Setup, groups: Groups<FileFacts>, pageId: string, title: string): Option<WikiPage>
  {
    var facts := PageFacts(groups, SelectModules(groups.keys, pageId));
    var prompt := ReplaceAll(setup.pageWriterPrompt, "{page_title}", title);
    Validated(Capture.Captured(setup.codec, setup.service, prompt, PageRequest(facts), SubmitPageDef(setup.pageSchema), MaxIterations),
              setup.parsePage)
  }

  class Architect {
    const setup: Setup

    constructor (setup: Setup)
      ensures this.setup == setup
    {
      this.setup := setup;
    }

    /** `plan_navigation`: the validated navigation the model submitted, or None. */
    method PlanNavigation(results: seq<FileFacts>) returns (plan: Option<Navigation>)
      ensures exists groups :: IsGrouping(groups, results, ModuleOf) && plan == PlanOf(setup, groups)
    {
      var groups := GroupByModule(results);
      var overview := BuildOverview(groups);
      var data := Capture.RunCapturing(setup.service, setup.codec, setup.navigationPrompt, NavigationRequest(overview),
                                       SubmitNavigationDef(setup.navigationSchema), MaxIterations);
      plan := Validated(data, setup.parseNavigation);
    }

    /** The selection loop of `write_page`. */
    method SelectTargets(groups: Groups<FileFacts>, pageId: string) returns (targets: seq<string>)
      ensures targets == SelectModules(groups.keys, pageId)
    {
      targets := [];
      ghost var serves := m => Serves(m, pageId);
      assert SelectModules(groups.keys, pageId) == if |Filter(groups.keys, serves)| == 0 then groups.keys else Filter(groups.keys, serves);
      for i := 0 to |groups.keys|
        invariant targets == Filter(groups.keys[..i], serves)
      {
        FilterNext(groups.keys, i, serves);
        if Serves(groups.keys[i], pageId) {
          targets := targets + [groups.keys[i]];
        }
      }
      assert groups.keys[..|groups.keys|] == groups.keys;
      if |targets| == 0 {
        targets := groups.keys;
      }
    }

    /** The facts loop of `write_page`: one section per selected module, each followed by a line
        break. */
    method CollectFacts(groups: Groups<FileFacts>, targets: seq<string>) returns (facts: string)
      ensures facts == PageFacts(groups, targets)
    {
      facts := "";
      for i := 0 to |targets|
        invariant facts == PageFacts(groups, targets[..i])
      {
        PageFactsSnoc(groups, targets, i);
        var section := PrepareModuleFacts(targets[i], FilesOf(groups, targets[i]));
        facts := facts + section + "\n";
      }
      assert targets[..|targets|] == targets;
    }

    /** `write_page`: the validated page the model submitted, or None. */
    method WritePage(pageId: string, title: string, results: seq<FileFacts>) returns (page: Option<WikiPage>)
      ensures exists groups :: IsGrouping(groups, results, ModuleOf) && page == PageOf(setup, groups, pageId, title)
    {
      var groups := GroupByModule(results);
      var targets := SelectTargets(groups, pageId);
      var facts := CollectFacts(groups, targets);
      var prompt := ReplaceAll(setup.pageWriterPrompt, "{page_title}", title);
      var data := Capture.RunCapturing(setup.service, setup.codec, prompt, PageRequest(facts),
                                       SubmitPageDef(setup.pageSchema), MaxIterations);
      page := Validated(data, setup.parsePage);
    }
  }
}
