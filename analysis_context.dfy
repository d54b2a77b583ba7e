/** The client's analysis state: the repository and options picked on the selection screen, and
    the pipeline's stage, message, progress, plan and thoughts as the server's socket messages
    update them. */
module AnalysisContext {
  import opened Wrappers
  import opened ClientTypes

  /** `AnalysisOptions`. */
  datatype Options = Options(endpoints: bool, tree: bool)

  /** `pipelineProgress`. */
  datatype Progress = Progress(current: int, total: int, pageLabel: Option<string>)

  /** Every field of the provider at one moment. `repoName` is the name of `repoDetails`, the only
      part of it read here; `socketOpen` says whether a socket is held. */
  datatype Session = Session(
    repoName: Option<string>, branch: Option<string>, options: Options,
    provider: Option<string>, model: Option<string>, showProjectInfo: bool,
    analyzing: bool, stage: Stage, message: string, progress: Progress,
    plan: Option<seq<PlanItem>>, thoughts: seq<Thought>, socketOpen: bool)

  const DefaultOptions: Options := Options(true, true)
  const NoProgress: Progress := Progress(0, 0, None)
  const Demo: string := "simulation_demo"
  const Waiting: string := "Esperando inicio..."
  const Connecting: string := "Conectando con el servidor..."
  const TriggerError: string := "No se pudo iniciar la simulaci\U{00F3}n"
  const ConnectionError: string := "Error de conexi\U{00F3}n con el servidor"

  /** The provider as it is first rendered. */
  function Initial(): Session
  {
    Session(None, None, DefaultOptions, None, None, false, false, Idle, Waiting,
            NoProgress, None, [], false)
  }

  /** `ws.onmessage`: what one message from the server does. */
  function Received(s: Session, msg: SocketMessage): Session
  {
    match msg
      case StageMessage(stage, message) => s.(stage := stage, message := message)
      case ProgressMessage(current, total, pageLabel, message) =>
        s.(progress := Progress(current, total, pageLabel), message := message)
      case PlanMessage(tree) => s.(plan := tree)
      case ThoughtMessage(t) => s.(thoughts := s.thoughts + [t])
      case OtherMessage(_) => s
      case Unparsable => s
  }

  /** The messages in order, each applied to the state the previous one left. */
  function ReceivedAll(s: Session, msgs: seq<SocketMessage>): Session
  {
    if |msgs| == 0 then s else Received(ReceivedAll(s, msgs[..|msgs| - 1]), msgs[|msgs| - 1])
  }

  /** The thought a message carries, if it carries one. */
  function ThoughtOf(msg: SocketMessage): seq<Thought>
  {
    if msg.ThoughtMessage? then [msg.thought] else []
  }

  /** The thoughts carried by a run of messages, in order. */
  function ThoughtsIn(msgs: seq<SocketMessage>): seq<Thought>
  {
    if |msgs| == 0 then [] else ThoughtsIn(msgs[..|msgs| - 1]) + ThoughtOf(msgs[|msgs| - 1])
  }

  /** The part of the state the selection screen owns. */
  predicate SameSelection(a: Session, b: Session)
  {
    a.repoName == b.repoName && a.branch == b.branch && a.options == b.options
    && a.provider == b.provider && a.model == b.model && a.showProjectInfo == b.showProjectInfo
    && a.analyzing == b.analyzing && a.socketOpen == b.socketOpen
  }

  /** One message appends the thought it carries, sets the plan it carries, and leaves the
      selection alone. */
  lemma ReceivedStep(s: Session, msg: SocketMessage)
    ensures Received(s, msg).thoughts == s.thoughts + ThoughtOf(msg)
    ensures Received(s, msg).plan == if msg.PlanMessage? then msg.tree else s.plan
    ensures SameSelection(Received(s, msg), s)
  {
  }

  /** Socket messages only append thoughts: the earlier ones stay, in order, followed by those the
      messages carry; the selection and the analysing flag are never touched. */
  lemma {:induction false} MessagesAppendThoughts(s: Session, msgs: seq<SocketMessage>)
    ensures ReceivedAll(s, msgs).thoughts == s.thoughts + ThoughtsIn(msgs)
    ensures SameSelection(ReceivedAll(s, msgs), s)
  {
    if |msgs| > 0 {
      var init := msgs[..|msgs| - 1];
      MessagesAppendThoughts(s, init);
      ReceivedStep(ReceivedAll(s, init), msgs[|msgs| - 1]);
    }
  }

  /** The index of the last plan message of a run, if it has one. */
  function LastPlanIndex(msgs: seq<SocketMessage>): (r: Option<nat>)
    ensures r.Some? ==> r.value < |msgs| && msgs[r.value].PlanMessage?
    ensures r.Some? ==> forall j :: r.value < j < |msgs| ==> !msgs[j].PlanMessage?
    ensures r.None? ==> forall k :: 0 <= k < |msgs| ==> !msgs[k].PlanMessage?
  {
    if |msgs| == 0 then None
    else if msgs[|msgs| - 1].PlanMessage? then Some(|msgs| - 1)
    else LastPlanIndex(msgs[..|msgs| - 1])
  }

  /** After a run of messages the plan is the tree of the last plan message (cleared when that
      message's plan has no tree), or the plan from before when there is none. */
  lemma {:induction false} LastPlanWins(s: Session, msgs: seq<SocketMessage>)
    ensures ReceivedAll(s, msgs).plan ==
      if LastPlanIndex(msgs).None? then s.plan else msgs[LastPlanIndex(msgs).value].tree
  {
    if |msgs| > 0 {
      var init := msgs[..|msgs| - 1];
      LastPlanWins(s, init);
      ReceivedStep(ReceivedAll(s, init), msgs[|msgs| - 1]);
    }
  }

  /** Messages the client does not know, and text that does not parse, change nothing. */
  lemma UnknownMessagesIgnored(s: Session, msgs: seq<SocketMessage>)
    requires forall k :: 0 <= k < |msgs| ==> msgs[k].OtherMessage? || msgs[k].Unparsable?
    ensures ReceivedAll(s, msgs) == s
  {
    if |msgs| > 0 {
      UnknownMessagesIgnored(s, msgs[..|msgs| - 1]);
    }
  }

  /** The project the analysis runs for: the repository's name, the demo project without one. */
  function ProjectId(s: Session): (r: string)
    ensures r != ""
    ensures s.repoName.Some? && s.repoName.value != "" ==> r == s.repoName.value
  {
    if s.repoName.Some? && s.repoName.value != "" then s.repoName.value else Demo
  }

  /** The synchronous start of `startAnalysis`: the run is reset and the socket opened. */
  function Starting(s: Session): Session
  {
    s.(analyzing := true, stage := Started, message := Connecting,
       thoughts := [], plan := None, progress := NoProgress, socketOpen := true)
  }

  /** `startAnalysis` when the request that triggers the run fails. */
  function TriggerFailed(s: Session): Session
  {
    s.(stage := Error, message := TriggerError)
  }

  /** `ws.onerror`. */
  function SocketFailed(s: Session): Session
  {
    s.(message := ConnectionError, stage := Error)
  }

  /** `stopAnalysis`. */
  function Stopped(s: Session): Session
  {
    s.(analyzing := false, stage := Idle, socketOpen := false)
  }

  /** `resetAnalysis`. */
  function Reset(s: Session): Session
  {
    Stopped(s).(showProjectInfo := false, branch := None, options := DefaultOptions,
                provider := None, model := None, plan := None, thoughts := [])
  }

  /** `updateProgress`: the message is replaced only by a non-empty one. */
  function ProgressUpdated(s: Session, current: int, total: int, pageLabel: Option<string>, message: Option<string>): Session
  {
    var next := s.(progress := Progress(current, total, pageLabel));
    if message.Some? && message.value != "" then next.(message := message.value) else next
  }

  /** A run started after any history holds exactly the thoughts the server sends in it, and the
      last plan it sends. */
  lemma StartedRunHoldsItsThoughts(s: Session, msgs: seq<SocketMessage>)
    ensures ReceivedAll(Starting(s), msgs).thoughts == ThoughtsIn(msgs)
    ensures ReceivedAll(Starting(s), msgs).analyzing
    ensures ReceivedAll(Starting(s), msgs).plan ==
      if LastPlanIndex(msgs).None? then None else msgs[LastPlanIndex(msgs).value].tree
  {
    MessagesAppendThoughts(Starting(s), msgs);
    LastPlanWins(Starting(s), msgs);
  }

  /** Stopping and resetting are idempotent, a reset stops the run, and after a reset the
      selection is back to its first state except for the chosen repository. */
  lemma StopAndResetSettle(s: Session)
    ensures Stopped(Stopped(s)) == Stopped(s)
    ensures Reset(Reset(s)) == Reset(s)
    ensures Stopped(Reset(s)) == Reset(s)
    ensures Reset(s) == Initial().(repoName := s.repoName, message := s.message, progress := s.progress)
  {
  }

  /** `updateProgress` keeps the message unless a non-empty one is given. */
  lemma ProgressMessageKept(s: Session, current: int, total: int, pageLabel: Option<string>, message: Option<string>)
    ensures ProgressUpdated(s, current, total, pageLabel, message).progress == Progress(current, total, pageLabel)
    ensures ProgressUpdated(s, current, total, pageLabel, message).message ==
      if message.Some? && message.value != "" then message.value else s.message
    ensures ProgressUpdated(s, current, total, pageLabel, message).(progress := s.progress, message := s.message) == s
  {
  }

  /** `AnalysisProvider`: the state fields and the functions that change them. */
  class AnalysisProvider {
    var repoName: Option<string>
    var branch: Option<string>
    var options: Options
    var provider: Option<string>
    var model: Option<string>
    var showProjectInfo: bool
    var analyzing: bool
    var stage: Stage
    var message: string
    var progress: Progress
    var plan: Option<seq<PlanItem>>
    var thoughts: seq<Thought>
    var socketOpen: bool

    function State(): Session
      reads this
    {
      Session(repoName, branch, options, provider, model, showProjectInfo, analyzing, stage,
              message, progress, plan, thoughts, socketOpen)
    }

    constructor()
      ensures State() == Initial()
    {
      repoName := None;
      branch := None;
      options := DefaultOptions;
      provider := None;
      model := None;
      showProjectInfo := false;
      analyzing := false;
      stage := Idle;
      message := Waiting;
      progress := NoProgress;
      plan := None;
      thoughts := [];
      socketOpen := false;
    }

    /** `ws.onmessage`. */
    method OnMessage(msg: SocketMessage)
      modifies this
      ensures State() == Received(old(State()), msg)
    {
      match msg {
        case StageMessage(st, m) =>
          stage := st;
          message := m;
        case ProgressMessage(current, total, pageLabel, m) =>
          progress := Progress(current, total, pageLabel);
          message := m;
        case PlanMessage(tree) =>
          plan := tree;
        case ThoughtMessage(t) =>
          thoughts := thoughts + [t];
        case OtherMessage(_) =>
        case Unparsable =>
      }
    }

    /** `ws.onerror`. */
    method OnSocketError()
      modifies this
      ensures State() == SocketFailed(old(State()))
    {
      message := ConnectionError;
      stage := Error;
    }

    /** `startAnalysis`; `triggered` is whether the server accepted the request to start the run.
        Returns the project the socket listens to. */
    method StartAnalysis(triggered: bool) returns (projectId: string)
      modifies this
      ensures projectId == ProjectId(old(State()))
      ensures State() == if triggered then Starting(old(State())) else TriggerFailed(Starting(old(State())))
    {
      projectId := if repoName.Some? && repoName.value != "" then repoName.value else Demo;
      Begin();
      if !triggered {
        stage := Error;
        message := TriggerError;
      }
    }

    /** The part of `startAnalysis` before it waits: the run's fields reset, the socket opened. */
    method Begin()
      modifies this
      ensures State() == Starting(old(State()))
    {
      analyzing := true;
      stage := Started;
      message := Connecting;
      thoughts := [];
      plan := None;
      progress := NoProgress;
      socketOpen := true;
    }

    /** `stopAnalysis`. */
    method StopAnalysis()
      modifies this
      ensures State() == Stopped(old(State()))
    {
      analyzing := false;
      stage := Idle;
      socketOpen := false;
    }

    /** `resetAnalysis`. */
    method ResetAnalysis()
      modifies this
      ensures State() == Reset(old(State()))
    {
      StopAnalysis();
      showProjectInfo := false;
      branch := None;
      options := DefaultOptions;
      provider := None;
      model := None;
      plan := None;
      thoughts := [];
    }

    /** `updateStage`. */
    method UpdateStage(st: Stage, m: string)
      modifies this
      ensures State() == old(State()).(stage := st, message := m)
    {
      stage := st;
      message := m;
    }

    /** `updateProgress`. */
    method UpdateProgress(current: int, total: int, pageLabel: Option<string>, m: Option<string>)
      modifies this
      ensures State() == ProgressUpdated(old(State()), current, total, pageLabel, m)
    {
      progress := Progress(current, total, pageLabel);
      if m.Some? && m.value != "" {
        message := m.value;
      }
    }

    /** `setPlan`. */
    method SetPlan(tree: seq<PlanItem>)
      modifies this
      ensures State() == old(State()).(plan := Some(tree))
    {
      plan := Some(tree);
    }

    /** `addThought`: the thought goes after every earlier one. */
    method AddThought(t: Thought)
      modifies this
      ensures State() == old(State()).(thoughts := old(thoughts) + [t])
    {
      thoughts := thoughts + [t];
    }
  }
}
