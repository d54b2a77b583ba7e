/** The analysis screen's reading of the pipeline: which of the three agent phases is active,
    done or still to come for the current stage, and the one-line caption of each thought. */
module AnalysisView {
  import opened ClientTypes

  /** `PhaseInfo`, without its icon and colours. */
  datatype PhaseInfo = PhaseInfo(id: Stage, title: string, description: string)

  datatype Status = Active | Done | Pending

  /** `PHASES`: the miner, the architect and the scribe, in pipeline order. */
  const Phases: seq<PhaseInfo> := [
    PhaseInfo(Mining, "Miner", "Extrayendo informaci\U{00F3}n del c\U{00F3}digo"),
    PhaseInfo(Planning, "Architect", "Dise\U{00F1}ando la estructura"),
    PhaseInfo(Writing, "Scribe", "Escribiendo documentaci\U{00F3}n")
  ]

  predicate DistinctIds(phases: seq<PhaseInfo>)
  {
    forall i, j :: 0 <= i < j < |phases| ==> phases[i].id != phases[j].id
  }

  /** `phases.findIndex(p => p.id === stage)`: the first phase with that id, -1 when none has it. */
  function FindIndex(phases: seq<PhaseInfo>, stage: Stage): (r: int)
    ensures -1 <= r < |phases|
    ensures r >= 0 ==> phases[r].id == stage && forall k :: 0 <= k < r ==> phases[k].id != stage
    ensures r == -1 <==> forall k :: 0 <= k < |phases| ==> phases[k].id != stage
  {
    if |phases| == 0 then -1
    else if phases[0].id == stage then 0
    else
      var r := FindIndex(phases[1..], stage);
      if r == -1 then -1 else r + 1
  }

  /** With distinct ids, a phase is found at its own index. */
  lemma FindOwnIndex(phases: seq<PhaseInfo>, k: nat)
    requires DistinctIds(phases) && k < |phases|
    ensures FindIndex(phases, phases[k].id) == k
  {
  }

  /** `isPhaseActive`. */
  predicate IsActive(stage: Stage, phase: PhaseInfo)
  {
    phase.id == stage
  }

  /** `isPhaseCompleted`, against the list `phases`. */
  predicate IsCompletedIn(phases: seq<PhaseInfo>, stage: Stage, phase: PhaseInfo)
  {
    FindIndex(phases, stage) > FindIndex(phases, phase.id) || stage == Completed
  }

  /** `getPhaseStatus`, against the list `phases`. */
  function StatusIn(phases: seq<PhaseInfo>, stage: Stage, phase: PhaseInfo): Status
  {
    if IsActive(stage, phase) then Active
    else if IsCompletedIn(phases, stage, phase) then Done
    else Pending
  }

  /** `getCurrentPhaseIndex`. */
  function CurrentPhaseIndex(stage: Stage): int
  {
    FindIndex(Phases, stage)
  }

  /** `getPhaseStatus` on the screen's phases. */
  function PhaseStatus(stage: Stage, phase: PhaseInfo): Status
  {
    StatusIn(Phases, stage, phase)
  }

  /** Over any list of phases with distinct ids: the phase at the stage is active, those before it
      done and those after it pending; every phase is done once the run is completed, and every
      phase pending while the stage is not one of them. */
  lemma {:induction false} StatusByPosition(phases: seq<PhaseInfo>, stage: Stage, k: nat)
    requires DistinctIds(phases) && k < |phases|
    ensures var c := FindIndex(phases, stage);
      StatusIn(phases, stage, phases[k]) ==
        if k == c then Active
        else if stage == Completed || k < c then Done
        else Pending
  {
    FindOwnIndex(phases, k);
    var c := FindIndex(phases, stage);
    if c >= 0 {
      FindOwnIndex(phases, c);
    }
  }

  lemma PhaseIdsDistinct()
    ensures DistinctIds(Phases)
  {
  }

  /** At most one phase is active, whatever the stage. */
  lemma AtMostOneActive(stage: Stage, i: nat, j: nat)
    requires i < j < |Phases|
    ensures !(IsActive(stage, Phases[i]) && IsActive(stage, Phases[j]))
  {
    PhaseIdsDistinct();
  }

  /** The statuses the screen shows: all done once completed, all pending before mining starts or
      after an error, and around the running phase done, active and pending in order. */
  lemma PhaseStatuses(stage: Stage, k: nat)
    requires k < |Phases|
    ensures stage == Completed ==> PhaseStatus(stage, Phases[k]) == Done
    ensures stage in {Idle, Started, Error} ==> CurrentPhaseIndex(stage) == -1 && PhaseStatus(stage, Phases[k]) == Pending
    ensures stage in {Mining, Planning, Writing} ==>
      var c := CurrentPhaseIndex(stage);
      0 <= c && Phases[c].id == stage
      && PhaseStatus(stage, Phases[k]) == if k < c then Done else if k == c then Active else Pending
  {
    PhaseIdsDistinct();
    StatusByPosition(Phases, stage, k);
  }

  /** `content || fallback`: the content unless it is empty. */
  function OrElse(content: string, fallback: string): (r: string)
    ensures fallback != "" ==> r != ""
    ensures r == content || (content == "" && r == fallback)
  {
    if content == "" then fallback else content
  }

  /** The first element of a list, "" when it is empty (an absent `?.` chain). */
  function FirstOr(xs: seq<string>): (r: string)
    ensures r == "" || (|xs| > 0 && r == xs[0])
  {
    if |xs| == 0 then "" else xs[0]
  }

  /** The message `getThoughtInfo` shows for a thought. */
  function ThoughtCaption(t: Thought): (r: string)
    ensures r != ""
  {
    match t
      case LlmRequest(messages) =>
        var content :=
          match messages
            case Listed(contents) => FirstOr(contents)
            case Single(c) => c
            case NoMessages => "";
        OrElse(content, "Analizando...")
      case ToolCalls(names) => OrElse(FirstOr(names), "Unknown")
      case LlmResponse(content) => OrElse(content, "OK")
      case Internal => "Procesando..."
  }

  /** The caption carries what the thought says when it says something, and the fixed default of
      its subtype when it does not. */
  lemma CaptionShowsContent(t: Thought)
    ensures t.LlmRequest? && t.messages.Single? && t.messages.content != "" ==> ThoughtCaption(t) == t.messages.content
    ensures t.LlmRequest? && t.messages.Listed? && |t.messages.contents| > 0 && t.messages.contents[0] != "" ==>
      ThoughtCaption(t) == t.messages.contents[0]
    ensures t.LlmRequest? && (t.messages.NoMessages? || t.messages == Listed([])) ==> ThoughtCaption(t) == "Analizando..."
    ensures t.ToolCalls? ==> ThoughtCaption(t) == if |t.callNames| > 0 && t.callNames[0] != "" then t.callNames[0] else "Unknown"
    ensures t.LlmResponse? ==> ThoughtCaption(t) == if t.content != "" then t.content else "OK"
  {
  }
}
