/** The project-discovery ladder: exploration, tech stack and summary, each with its prompt and
    its one tool, run in ladder order for the enabled stages. Prompt files are read by a loader
    given as a parameter. */
module DiscoveryPipeline {
  import opened Wrappers
  import opened SeqUtil
  import CP = CorePipeline

  const Ladder := ["exploration", "tech_stack", "summary"]

  /** `PromptLoader.load_prompt(name, project_id=...)`: the formatted prompt, or the
      `FileNotFoundError` message when the prompt file is missing. */
  type PromptLoader = (string, string) -> Result<string>

  /** A stage definition: its prompt and the names of the tools it may use. */
  datatype StageDef = StageDef(prompt: string, tools: seq<string>)

  /** The one tool of each stage. */
  function StageTool(stage: string): string
  {
    if stage == "exploration" then "browse_repository"
    else if stage == "tech_stack" then "analyze_tech_stack"
    else "list_project_facts"
  }

  /** `error` is the exception of the first stage, in ladder order, whose prompt does not load. */
  predicate FirstFailure(load: PromptLoader, projectId: string, error: string)
  {
    load("exploration", projectId) == Err(error)
    || (load("exploration", projectId).Ok? && load("tech_stack", projectId) == Err(error))
    || (load("exploration", projectId).Ok? && load("tech_stack", projectId).Ok? && load("summary", projectId) == Err(error))
  }

  /** `_get_stage_definitions`: every stage's prompt is loaded, in ladder order; the first
      missing prompt file raises. */
  function Definitions(load: PromptLoader, projectId: string): (r: Result<map<string, StageDef>>)
    ensures r.Ok? <==> load("exploration", projectId).Ok? && load("tech_stack", projectId).Ok? && load("summary", projectId).Ok?
    ensures r.Err? ==> FirstFailure(load, projectId, r.error)
    ensures r.Ok? ==> r.value.Keys == {"exploration", "tech_stack", "summary"}
    ensures r.Ok? ==> forall s :: s in r.value ==> r.value[s] == StageDef(load(s, projectId).value, [StageTool(s)])
  {
    match load("exploration", projectId)
      case Err(e) => Err(e)
      case Ok(exploration) =>
        match load("tech_stack", projectId)
          case Err(e) => Err(e)
          case Ok(techStack) =>
            match load("summary", projectId)
              case Err(e) => Err(e)
              case Ok(summary) =>
                Ok(map["exploration" := StageDef(exploration, ["browse_repository"]),
                       "tech_stack" := StageDef(techStack, ["analyze_tech_stack"]),
                       "summary" := StageDef(summary, ["list_project_facts"])])
  }

  /** Whether a ladder stage is enabled. */
  predicate Enabled(enabled: Option<seq<string>>, stage: string)
  {
    enabled.None? || stage in enabled.value
  }

  /** The stages to run: the ladder, filtered by the enabled names, in ladder order. */
  function StagesToRun(enabled: Option<seq<string>>): seq<string>
  {
    Filter(Ladder, (s: string) => Enabled(enabled, s))
  }

  /** Position of a stage on the ladder. */
  function Rung(stage: string): nat
  {
    if stage == "exploration" then 0 else if stage == "tech_stack" then 1 else 2
  }

  /** Filtering the ladder keeps each stage its predicate admits, in ladder order. */
  lemma FilterLadder(p: string -> bool)
    ensures Filter(Ladder, p) == (if p("exploration") then ["exploration"] else [])
      + (if p("tech_stack") then ["tech_stack"] else []) + (if p("summary") then ["summary"] else [])
  {
    assert Ladder[..2] == ["exploration", "tech_stack"];
    assert Ladder[..2][..1] == ["exploration"];
    assert Ladder[..2][..1][..0] == [];
  }

  /** The stages run are exactly the enabled ladder stages, each once, in ladder order. */
  lemma StagesToRunSpec(enabled: Option<seq<string>>)
    ensures forall s :: s in StagesToRun(enabled) <==> s in Ladder && Enabled(enabled, s)
    ensures forall i, j :: 0 <= i < j < |StagesToRun(enabled)| ==>
      Rung(StagesToRun(enabled)[i]) < Rung(StagesToRun(enabled)[j])
  {
    FilterLadder((s: string) => Enabled(enabled, s));
  }

  /** Without an enabled list every stage runs. */
  lemma AllStagesByDefault()
    ensures StagesToRun(None) == Ladder
  {
    FilterLadder((s: string) => Enabled(None, s));
  }

  /** Enabled names that are not on the ladder change nothing. */
  lemma UnknownStagesIgnored(enabled: seq<string>)
    ensures StagesToRun(Some(enabled)) == StagesToRun(Some(Filter(enabled, (s: string) => s in Ladder)))
  {
    var kept := Filter(enabled, (s: string) => s in Ladder);
    FilterLadder((s: string) => Enabled(Some(enabled), s));
    FilterLadder((s: string) => Enabled(Some(kept), s));
  }

  /** What `execute` returns. */
  datatype Report = Report(projectId: string, stagesExecuted: seq<string>, stagesDetail: map<string, string>,
                           summary: Option<string>)

  /** `ProjectDiscoveryPipeline.execute`: the definitions, then each enabled stage in ladder order
      with its prompt and its tool; the report lists the recorded stages in the results' key order. */
  method Execute(pipeline: CP.BasePipeline, load: PromptLoader, projectId: string, enabled: Option<seq<string>>)
    returns (r: Result<Report>)
    requires pipeline.Valid()
    modifies pipeline, pipeline.agent
    ensures pipeline.Valid()
    ensures Definitions(load, projectId).Err? ==> r == Err(Definitions(load, projectId).error)
    ensures Definitions(load, projectId).Err? ==> unchanged(pipeline) && unchanged(pipeline.agent)
    ensures r.Ok? ==> forall s :: s in StagesToRun(enabled) ==> s in pipeline.stagesResults
    ensures r.Ok? ==> pipeline.stageOrder == Firsts(old(pipeline.stageOrder) + StagesToRun(enabled))
    ensures r.Ok? ==> r.value == Report(projectId, pipeline.stageOrder, pipeline.stagesResults,
      if "summary" in pipeline.stagesResults then Some(pipeline.stagesResults["summary"]) else None)
    ensures old(pipeline.stageOrder) == [] && r.Ok? ==> r.value.stagesExecuted == StagesToRun(enabled)
  {
    var definitions := Definitions(load, projectId);
    if definitions.Err? {
      return Err(definitions.error);
    }
    var stages := StagesToRun(enabled);
    StagesToRunSpec(enabled);
    var ran := RunStages(pipeline, definitions.value, stages);
    if ran.Err? {
      return Err(ran.error);
    }
    var results := pipeline.stagesResults;
    r := Ok(Report(projectId, pipeline.stageOrder, results,
                   if "summary" in results then Some(results["summary"]) else None));
    if old(pipeline.stageOrder) == [] {
      FirstsOfDistinct(stages);
      assert [] + stages == stages;
    }
  }

  /** The stage loop of `execute`: each stage with its own prompt and tools, in the order given;
      the first exception ends the loop. */
  method RunStages(pipeline: CP.BasePipeline, definitions: map<string, StageDef>, stages: seq<string>)
    returns (r: Result<()>)
    requires pipeline.Valid()
    requires forall s :: s in stages ==> s in definitions
    modifies pipeline, pipeline.agent
    ensures pipeline.Valid()
    ensures r.Ok? ==> forall s :: s in stages ==> s in pipeline.stagesResults
    ensures r.Ok? ==> pipeline.stageOrder == Firsts(old(pipeline.stageOrder) + stages)
  {
    ghost var before := pipeline.stageOrder;
    FirstsOfDistinct(before);
    assert before + stages[..0] == before;
    for i := 0 to |stages|
      invariant pipeline.Valid()
      invariant pipeline.stageOrder == Firsts(before + stages[..i])
      invariant forall s :: s in stages[..i] ==> s in pipeline.stagesResults
    {
      FirstsNext(before, stages, i);
      var answer := RunDefined(pipeline, stages[i], definitions[stages[i]]);
      if answer.Err? {
        return Err(answer.error);
      }
    }
    assert stages[..|stages|] == stages;
    r := Ok(());
  }

  /** One turn of the stage loop: the stage runs with its definition's prompt and tools, and its
      answer is recorded under its name. */
  method RunDefined(pipeline: CP.BasePipeline, name: string, def: StageDef) returns (r: Result<string>)
    requires pipeline.Valid()
    modifies pipeline, pipeline.agent
    ensures pipeline.Valid()
    ensures pipeline.agent.scope == CP.StageScope(pipeline.registry, Some(def.tools))
    ensures r.Ok? ==> pipeline.stagesResults == old(pipeline.stagesResults)[name := r.value]
    ensures r.Ok? ==> pipeline.stageOrder == (if name in old(pipeline.stagesResults) then old(pipeline.stageOrder)
                                              else old(pipeline.stageOrder) + [name])
  {
    r := pipeline.RunStage(name, def.prompt, Some(def.tools));
  }

  /** The key order after one more stage name. */
  lemma FirstsNext<T(!new)>(before: seq<T>, stages: seq<T>, i: nat)
    requires i < |stages|
    ensures stages[..i + 1] == stages[..i] + [stages[i]]
    ensures var order := Firsts(before + stages[..i]);
      Firsts(before + stages[..i + 1]) == if stages[i] in order then order else order + [stages[i]]
  {
    var s := before + stages[..i + 1];
    assert s[..|s| - 1] == before + stages[..i];
  }

  /** A list without repeats is its own key order. */
  lemma {:induction false} FirstsOfDistinct<T(!new)>(s: seq<T>)
    requires Distinct(s)
    ensures Firsts(s) == s
  {
    if |s| > 0 {
      var init := s[..|s| - 1];
      FirstsOfDistinct(init);
      assert s[|s| - 1] !in init;
      assert s == init + [s[|s| - 1]];
    }
  }
}
