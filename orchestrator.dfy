/** The analysis pipeline: its steps run in order on one shared context, and the first step
    that raises records "<step>: <message>" among the context's errors and ends the run. The
    steps themselves (workspace, clone, analysis) are parameters. */
module Orchestrator {
  import opened Wrappers
  import opened JsonValues

  /** The context fields the steps fill in; the untyped ones (workspace and repository paths,
      the repository handle, the session, the discovery report) are JSON values by name. */
  datatype ContextData = ContextData(
    repoUrl: Option<string>,
    branch: Option<string>,
    workspaceId: Option<string>,
    latestCommit: Option<string>,
    analysisResult: map<string, Json>,
    handles: map<string, Json>)

  /** What a step does to the context: the context afterwards, and the message of the exception
      it raised, if any. A step that raises may already have changed the context. */
  type StepRun = ContextData -> (ContextData, Option<string>)

  /** A step: its function's `__name__` and what it does. */
  datatype Step = Step(name: string, run: StepRun)

  /** The steps from the first on: the context afterwards and the error line of the step that
      raised, if any. */
  function RunSteps(steps: seq<Step>, data: ContextData): (ContextData, Option<string>)
  {
    if |steps| == 0 then (data, None)
    else
      var (next, raised) := steps[0].run(data);
      if raised.Some? then (next, Some(steps[0].name + ": " + raised.value))
      else RunSteps(steps[1..], next)
  }

  /** When the steps before `k` all succeed and step `k` raises, the run ends there: the error
      names step `k` and carries its message, and no later step touches the context. */
  lemma FirstFailureStops(steps: seq<Step>, data: ContextData, k: nat)
    requires k < |steps|
    requires RunSteps(steps[..k], data).1.None?
    requires steps[k].run(RunSteps(steps[..k], data).0).1.Some?
    ensures var (after, raised) := steps[k].run(RunSteps(steps[..k], data).0);
      RunSteps(steps, data) == (after, Some(steps[k].name + ": " + raised.value))
  {
    RunStepsSnoc(steps[..k + 1], data);
    assert steps[..k + 1][..k] == steps[..k];
    StopsAt(steps, data, k + 1);
  }

  /** Running one more step: it runs on what the earlier ones left, unless one of them raised. */
  lemma {:induction false} RunStepsSnoc(steps: seq<Step>, data: ContextData)
    requires |steps| > 0
    ensures var (before, raised) := RunSteps(steps[..|steps| - 1], data);
      RunSteps(steps, data) ==
        if raised.Some? then (before, raised)
        else
          var (after, e) := steps[|steps| - 1].run(before);
          (after, if e.Some? then Some(steps[|steps| - 1].name + ": " + e.value) else None)
    decreases |steps|
  {
    if |steps| > 1 {
      var next := steps[0].run(data);
      if next.1.None? {
        RunStepsSnoc(steps[1..], next.0);
        assert steps[1..][..|steps[1..]| - 1] == steps[..|steps| - 1][1..];
      }
    }
  }

  /** The shared state of the steps. */
  class PipelineContext {
    var data: ContextData
    var errors: seq<string>

    constructor (data: ContextData)
      ensures this.data == data && errors == []
    {
      this.data := data;
      errors := [];
    }
  }

  class AnalysisPipeline {
    const steps: seq<Step>

    constructor (steps: seq<Step>)
      ensures this.steps == steps
    {
      this.steps := steps;
    }

    /** `run`: the steps in order; the first that raises adds its error line and stops the run.
        The same context comes back. */
    method Run(context: PipelineContext) returns (r: PipelineContext)
      modifies context
      ensures r == context
      ensures context.data == RunSteps(steps, old(context.data)).0
      ensures var e := RunSteps(steps, old(context.data)).1;
        context.errors == old(context.errors) + (if e.Some? then [e.value] else [])
    {
      ghost var start := context.data;
      var i := 0;
      while i < |steps|
        invariant 0 <= i <= |steps|
        invariant context.errors == old(context.errors)
        invariant RunSteps(steps[..i], start) == (context.data, None)
      {
        RunStepsSnoc(steps[..i + 1], start);
        assert steps[..i + 1][..i] == steps[..i];
        var (next, raised) := steps[i].run(context.data);
        context.data := next;
        if raised.Some? {
          context.errors := context.errors + [steps[i].name + ": " + raised.value];
          StopsAt(steps, start, i + 1);
          return context;
        }
        i := i + 1;
      }
      assert steps[..i] == steps;
      r := context;
    }
  }

  /** Once the first `n` steps have raised, the remaining ones do not run. */
  lemma {:induction false} StopsAt(steps: seq<Step>, data: ContextData, n: nat)
    requires n <= |steps| && RunSteps(steps[..n], data).1.Some?
    ensures RunSteps(steps, data) == RunSteps(steps[..n], data)
    decreases |steps| - n
  {
    if n < |steps| {
      RunStepsSnoc(steps[..n + 1], data);
      assert steps[..n + 1][..n] == steps[..n];
      StopsAt(steps, data, n + 1);
    } else {
      assert steps[..n] == steps;
    }
  }

  /** `create_standard_pipeline`: workspace preparation, cloning, then the project analysis. */
  method CreateStandardPipeline(prepareWorkspace: StepRun, cloneRepo: StepRun, analyzeProject: StepRun)
    returns (p: AnalysisPipeline)
    ensures fresh(p)
    ensures |p.steps| == 3
    ensures p.steps[0] == Step("prepare_workspace", prepareWorkspace)
    ensures p.steps[1] == Step("clone_repo", cloneRepo)
    ensures p.steps[2] == Step("analyze_project_step", analyzeProject)
  {
    p := new AnalysisPipeline([Step("prepare_workspace", prepareWorkspace), Step("clone_repo", cloneRepo),
                               Step("analyze_project_step", analyzeProject)]);
  }
}
