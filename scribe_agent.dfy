/** The scribe: writes one wiki page from the facts of its target modules, through a fresh
    executor offering a single "submit_page" tool. */
module ScribeAgent {
  import opened Wrappers
  import opened JsonValues
  import opened Conversation
  import opened Text
  import opened Grouping
  import opened Facts
  import opened Wiki
  import Capture
  import Tok = Tokenizer

  /** The token budget of the facts sent with the page request. */
  const MaxInputTokens := 100000
  const MaxIterations := 2

  /** The target modules' fact texts, in target order; a target with no files contributes nothing
      and a target listed twice is written twice. */
  function TargetFacts(groups: Groups<FileFacts>, targets: seq<string>): string
  {
    if |targets| == 0 then ""
    else
      var t := targets[|targets| - 1];
      TargetFacts(groups, targets[..|targets| - 1]) + (if t in groups.groups then ModuleText(t, groups.groups[t]) else "")
  }

  /** The same text read off the miner's results directly: a target counts when some file lies
      in it, and its files are those of that module, in input order. */
  function FactsFor(data: seq<FileFacts>, targets: seq<string>): string
  {
    if |targets| == 0 then ""
    else
      var t := targets[|targets| - 1];
      FactsFor(data, targets[..|targets| - 1])
        + (if t in KeysOf(data, ModuleOf) then ModuleText(t, ItemsOf(data, ModuleOf, t)) else "")
  }

  /** Over the module map `_group_by_module` builds, the facts are those of the results. */
  lemma {:induction false} TargetFactsOfGrouping(groups: Groups<FileFacts>, data: seq<FileFacts>, targets: seq<string>)
    requires IsGrouping(groups, data, ModuleOf)
    ensures TargetFacts(groups, targets) == FactsFor(data, targets)
  {
    if |targets| > 0 {
      TargetFactsOfGrouping(groups, data, targets[..|targets| - 1]);
      var t := targets[|targets| - 1];
      assert t in groups.groups <==> t in KeysOf(data, ModuleOf);
    }
  }

  /** The facts are empty exactly when no target module has files. */
  lemma {:induction false} TargetFactsEmpty(groups: Groups<FileFacts>, targets: seq<string>)
    ensures TargetFacts(groups, targets) == "" <==> forall k :: 0 <= k < |targets| ==> targets[k] !in groups.groups
  {
    if |targets| > 0 {
      var init := targets[..|targets| - 1];
      TargetFactsEmpty(groups, init);
      assert forall k :: 0 <= k < |init| ==> init[k] == targets[k];
      var t := targets[|targets| - 1];
      if t in groups.groups {
        assert |ModuleText(t, groups.groups[t])| > 0 by {
          assert |ModuleHeading(t)| > 0;
        }
      }
    }
  }

  /** Every target module with files has its whole fact text in the facts. */
  lemma {:induction false} TargetFactsHoldEach(groups: Groups<FileFacts>, targets: seq<string>)
    ensures forall k :: 0 <= k < |targets| && targets[k] in groups.groups ==>
      Contains(TargetFacts(groups, targets), ModuleText(targets[k], groups.groups[targets[k]]))
  {
    if |targets| > 0 {
      var init := targets[..|targets| - 1];
      var t := targets[|targets| - 1];
      var last := if t in groups.groups then ModuleText(t, groups.groups[t]) else "";
      var text := TargetFacts(groups, targets);
      TargetFactsHoldEach(groups, init);
      assert text == TargetFacts(groups, init) + last;
      forall k | 0 <= k < |targets| && targets[k] in groups.groups
        ensures Contains(text, ModuleText(targets[k], groups.groups[targets[k]]))
      {
        if k < |targets| - 1 {
          assert init[k] == targets[k];
          ContainsMiddle("", TargetFacts(groups, init), last);
          assert "" + TargetFacts(groups, init) + last == text;
          ContainsTrans(text, TargetFacts(groups, init), ModuleText(targets[k], groups.groups[targets[k]]));
        } else {
          ContainsMiddle(TargetFacts(groups, init), last, "");
          assert TargetFacts(groups, init) + last + "" == text;
        }
      }
    }
  }

  lemma TargetFactsSnoc(groups: Groups<FileFacts>, targets: seq<string>, i: nat)
    requires i < |targets|
    ensures TargetFacts(groups, targets[..i + 1]) == TargetFacts(groups, targets[..i])
      + (if targets[i] in groups.groups then ModuleText(targets[i], groups.groups[targets[i]]) else "")
  {
    assert targets[..i + 1][..i] == targets[..i];
  }

  /** `_prepare_facts`: for each target present in the map, its module heading, then each file's
      heading and fact lines. */
  method PrepareFacts(groups: Groups<FileFacts>, targets: seq<string>) returns (text: string)
    ensures text == TargetFacts(groups, targets)
  {
    text := "";
    for i := 0 to |targets|
      invariant text == TargetFacts(groups, targets[..i])
    {
      TargetFactsSnoc(groups, targets, i);
      if targets[i] in groups.groups {
        var section := PrepareModuleFacts(targets[i], groups.groups[targets[i]]);
        text := text + section;
      }
    }
    assert targets[..|targets|] == targets;
  }

  /** The architecture prompt serves overview pages and pages titled about the architecture. */
  predicate UsesArchitecturePrompt(pageType: string, title: string)
  {
    Contains(Lower(pageType), "overview") || Contains(Lower(title), "architecture")
  }

  function UserMessageFor(title: string, facts: string): string
  {
    "Page Title: " + title + "\n\nTECHNICAL FACTS:\n" + facts
  }

  /** The user message ends with the facts, which follow the title. */
  lemma UserMessageEndsWithFacts(title: string, facts: string)
    ensures EndsWith(UserMessageFor(title, facts), facts)
    ensures StartsWith(UserMessageFor(title, facts), "Page Title: " + title)
  {
    var m := UserMessageFor(title, facts);
    assert m[|m| - |facts|..] == facts;
    assert m[..|"Page Title: " + title|] == "Page Title: " + title;
  }

  function SubmitPageDef(schema: Json): ToolDef
  {
    ToolDef("submit_page", "Submit generated page content.", schema)
  }

  /** The page made from what the submit tool stored: nothing when it stored nothing or an empty
      dict, or when the stored arguments do not validate; otherwise the page with its id forced
      to the requested one. */
  function Accepted(data: Option<map<string, Json>>, parse: PageParser, pageId: string): (r: Option<WikiPage>)
    ensures r.Some? <==> data.Some? && |data.value| > 0 && parse(data.value).Some?
    ensures r.Some? ==> r.value.id == pageId && r.value.fields == parse(data.value).value.fields
  {
    match data
      case None => None
      case Some(kw) =>
        if |kw| == 0 then None
        else match parse(kw)
          case None => None
          case Some(p) => Some(p.(id := pageId))
  }

  /** The collaborators a scribe works with: the language-model service, the JSON codec, the two
      system prompts, the page schema offered with the submit tool and the page validation. */
  datatype Setup = Setup(service: Service, codec: Codec, architecturePrompt: string, referencePrompt: string,
                         pageSchema: Json, parse: PageParser)

  function SystemPromptFor(setup: Setup, pageType: string, title: string): (r: string)
    ensures UsesArchitecturePrompt(pageType, title) ==> r == setup.architecturePrompt
    ensures !UsesArchitecturePrompt(pageType, title) ==> r == setup.referencePrompt
  {
    if UsesArchitecturePrompt(pageType, title) then setup.architecturePrompt else setup.referencePrompt
  }

  /** `write_page` once the tokenizer's encoding is known. */
  function PageOf(setup: Setup, enc: Tok.Encoding, pageId: string, pageType: string, title: string,
                  targets: seq<string>, data: seq<FileFacts>): Option<WikiPage>
  {
    var facts := Tok.TruncateWith(enc, FactsFor(data, targets), MaxInputTokens);
    var data := Capture.Captured(setup.codec, setup.service, SystemPromptFor(setup, pageType, title),
                                 UserMessageFor(title, facts), SubmitPageDef(setup.pageSchema), MaxIterations);
    Accepted(data, setup.parse, pageId)
  }

  /** When the facts fit the budget, the page request carries every target module's whole fact text. */
  lemma RequestHoldsFacts(enc: Tok.Encoding, title: string, groups: Groups<FileFacts>, data: seq<FileFacts>, targets: seq<string>)
    requires IsGrouping(groups, data, ModuleOf)
    requires |enc.encode(FactsFor(data, targets))| <= MaxInputTokens
    ensures var m := UserMessageFor(title, Tok.TruncateWith(enc, FactsFor(data, targets), MaxInputTokens));
      forall k :: 0 <= k < |targets| && targets[k] in groups.groups ==>
        Contains(m, ModuleText(targets[k], groups.groups[targets[k]]))
  {
    var facts := FactsFor(data, targets);
    var m := UserMessageFor(title, facts);
    TargetFactsOfGrouping(groups, data, targets);
    TargetFactsHoldEach(groups, targets);
    ContainsMiddle("Page Title: " + title + "\n\nTECHNICAL FACTS:\n", facts, "");
    assert "Page Title: " + title + "\n\nTECHNICAL FACTS:\n" + facts + "" == m;
    forall k | 0 <= k < |targets| && targets[k] in groups.groups
      ensures Contains(m, ModuleText(targets[k], groups.groups[targets[k]]))
    {
      ContainsTrans(m, facts, ModuleText(targets[k], groups.groups[targets[k]]));
    }
  }

  /** A page is written only from a submitted, validating dict, and carries the requested id. */
  lemma PageFromSubmission(setup: Setup, enc: Tok.Encoding, pageId: string, pageType: string, title: string,
                           targets: seq<string>, data: seq<FileFacts>)
    requires PageOf(setup, enc, pageId, pageType, title, targets, data).Some?
    ensures var facts := Tok.TruncateWith(enc, FactsFor(data, targets), MaxInputTokens);
      var def := SubmitPageDef(setup.pageSchema);
      var system := SystemPromptFor(setup, pageType, title);
      var (st, r) := Capture.FreshRun(setup.codec, setup.service, system, UserMessageFor(title, facts), def, MaxIterations);
      var page := PageOf(setup, enc, pageId, pageType, title, targets, data).value;
      r.Ok? && page.id == pageId
      && exists kw :: Invocation("submit_page", kw) in st.invocations && |kw| > 0 && setup.parse(kw).Some?
           && page.fields == setup.parse(kw).value.fields
  {
    var facts := Tok.TruncateWith(enc, FactsFor(data, targets), MaxInputTokens);
    var system := SystemPromptFor(setup, pageType, title);
    var def := SubmitPageDef(setup.pageSchema);
    var kw := Capture.Captured(setup.codec, setup.service, system, UserMessageFor(title, facts), def, MaxIterations);
    assert kw.Some?;
  }

  /** The scribe; `tok` is the tokenizer whose encoding is loaded once for the whole program. */
  class Scribe {
    const setup: Setup
    const tok: Tok.Tokenizer

    constructor (setup: Setup, tok: Tok.Tokenizer)
      ensures this.setup == setup && this.tok == tok
    {
      this.setup := setup;
      this.tok := tok;
    }

    /** `write_page`: a tokenizer failure raises out of it (it comes before the `try`); a run that
        raises, or a submission that is missing, empty or invalid, gives no page. */
    method WritePage(pageId: string, pageType: string, title: string, targets: seq<string>, results: seq<FileFacts>)
      returns (r: Result<Option<WikiPage>>)
      modifies tok
      ensures r.Ok? <==> tok.encoding.Some?
      ensures r.Ok? ==> r.value == PageOf(setup, tok.encoding.value, pageId, pageType, title, targets, results)
      ensures old(tok.encoding).Some? ==> tok.encoding == old(tok.encoding)
      ensures old(tok.encoding).None? ==> (tok.encoding.Some? <==> Tok.LoadWithFallback(tok.loader).Ok?)
    {
      var groups := GroupByModule(results);
      var facts := PrepareFacts(groups, targets);
      TargetFactsOfGrouping(groups, results, targets);
      var truncated := tok.Truncate(facts, MaxInputTokens);
      if truncated.Err? {
        return Err(truncated.error);
      }
      var system := SystemPromptFor(setup, pageType, title);
      var data := Capture.RunCapturing(setup.service, setup.codec, system, UserMessageFor(title, truncated.value),
                                       SubmitPageDef(setup.pageSchema), MaxIterations);
      r := Ok(Accepted(data, setup.parse, pageId));
    }
  }
}
