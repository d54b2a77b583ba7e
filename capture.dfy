/** The "submit tool" pattern the architect, the scribe and the subsystem detector share: a fresh
    executor with a system prompt and one user message, a single hand-registered tool whose
    closure stores the keyword arguments of its last call and answers "Saved.", and a bounded
    run; what the closure holds afterwards is the agent's result. */
module Capture {
  import opened Wrappers
  import opened JsonValues
  import opened Conversation
  import AE = AgentExecution

  const Saved := "Saved."

  /** The closure `def submit(**kwargs): result["data"] = kwargs; return "Saved."`; what it stores
      is read back from the executor's invocation log. */
  function Recorder(name: string): (f: PyFunc)
    ensures forall kw :: f.run(kw) == Returned(JStr(Saved))
  {
    PyFunc(name, None, [], kw => Returned(JStr(Saved)))
  }

  /** The tools the fresh executor resolves: the one submit tool, and no registry. */
  function SubmitEnv(codec: Codec, def: ToolDef): AE.Env
  {
    AE.Env(codec, map[def.name := Recorder(def.name)], None)
  }

  /** The history the fresh executor starts from. */
  function Opening(system: string, user: string): seq<Message>
  {
    [SystemMessage(system), UserMessage(user)]
  }

  /** The run of the fresh executor: at most `n` steps, offering only the submit tool. */
  function FreshRun(codec: Codec, service: Service, system: string, user: string, def: ToolDef, n: nat): (AE.ExecState, Result<string>)
  {
    AE.Run(SubmitEnv(codec, def), service, [def], AE.ExecState(Opening(system, user), [], []), n)
  }

  /** The closure's stored kwargs when the run ended without raising; None when it raised (the
      `try` is left before the stored data is looked at) or when the tool was never called. */
  function Captured(codec: Codec, service: Service, system: string, user: string, def: ToolDef, n: nat): (r: Option<map<string, Json>>)
    ensures FreshRun(codec, service, system, user, def, n).1.Err? ==> r.None?
    ensures r.Some? ==> Invocation(def.name, r.value) in FreshRun(codec, service, system, user, def, n).0.invocations
  {
    var (st, res) := FreshRun(codec, service, system, user, def, n);
    if res.Err? then None else LastKwargs(st.invocations, def.name)
  }

  /** Building the executor and running it. */
  method RunCapturing(service: Service, codec: Codec, system: string, user: string, def: ToolDef, n: nat)
    returns (data: Option<map<string, Json>>)
    ensures data == Captured(codec, service, system, user, def, n)
  {
    var executor := new AE.AgentExecutor(service, codec, null, None);
    executor.SetSystemPrompt(system);
    executor.AddUserMessage(user);
    executor.RegisterTool(def, Recorder(def.name));
    assert executor.ToolEnv() == SubmitEnv(codec, def);
    assert executor.OfferedTools() == [def];
    assert executor.State() == AE.ExecState(Opening(system, user), [], []);
    var r := executor.RunUntilComplete(n);
    data := if r.Err? then None else LastKwargs(executor.invocations, def.name);
  }

  /** A run sends at most `n` requests, the first of them the opening history with the submit
      tool offered; the history only grows from the opening. */
  lemma FreshRunBounded(codec: Codec, service: Service, system: string, user: string, def: ToolDef, n: nat)
    ensures var (st, _) := FreshRun(codec, service, system, user, def, n);
      |st.requests| <= n && Opening(system, user) <= st.messages
      && (n > 0 ==> |st.requests| > 0 && st.requests[0] == Request(Opening(system, user), Some([def])))
  {
    var st0 := AE.ExecState(Opening(system, user), [], []);
    AE.RunOnlyAppends(SubmitEnv(codec, def), service, [def], st0, n);
    if n > 0 {
      var (s1, r) := AE.Step(SubmitEnv(codec, def), service, [def], st0);
      AE.StepOnlyAppends(SubmitEnv(codec, def), service, [def], st0);
      if r.Ok? && !AE.IsFinal(r.value) {
        AE.RunOnlyAppends(SubmitEnv(codec, def), service, [def], s1, n - 1);
      }
    }
  }

  /** The model's first reply: a structured call of the submit tool with a keyword-argument object. */
  function SubmitReply(def: ToolDef, id: Option<string>, args: map<string, Json>): Message
  {
    Message(Assistant, None, [ToolCall(id, JStr(def.name), JObj(args))], None)
  }

  /** The history after the submit call was answered. */
  function AfterSubmit(codec: Codec, system: string, user: string, def: ToolDef, id: Option<string>, args: map<string, Json>): seq<Message>
  {
    var call := ToolCall(id, JStr(def.name), JObj(args));
    Opening(system, user) + [SubmitReply(def, id, args), AE.ToolMessage(codec, JStr(Saved), call)]
  }

  /** When the model submits at once, the arguments it sent are captured: with one step the
      run ends at the limit, with more the next reply must be a final answer. */
  lemma SubmitIsCaptured(codec: Codec, service: Service, system: string, user: string, def: ToolDef,
                         id: Option<string>, args: map<string, Json>, n: nat, final: Message)
    requires n >= 1
    requires service(Opening(system, user), Some([def])) == Ok(SubmitReply(def, id, args))
    requires n >= 2 ==> service(AfterSubmit(codec, system, user, def, id, args), Some([def])) == Ok(final)
    requires n >= 2 ==> AE.IsFinal(final) && AE.SalvageCalls(codec, final.content.value) == []
    ensures Captured(codec, service, system, user, def, n) == Some(args)
    ensures FreshRun(codec, service, system, user, def, n).0.invocations == [Invocation(def.name, args)]
  {
    var env := SubmitEnv(codec, def);
    var st0 := AE.ExecState(Opening(system, user), [], []);
    var call := ToolCall(id, JStr(def.name), JObj(args));
    var reply := SubmitReply(def, id, args);
    assert AE.RequestedCalls(codec, reply) == [call];
    assert AE.Execute(env, call) == Ok(AE.Executed(JStr(Saved), [Invocation(def.name, args)]));
    assert AE.ExecuteAll(env, [call]).invoked == [Invocation(def.name, args)] by {
      assert [call][..0] == [];
    }
    assert AE.ExecuteAll(env, [call]).messages == [AE.ToolMessage(codec, JStr(Saved), call)] by {
      assert [call][..0] == [];
    }
    var (s1, r1) := AE.Step(env, service, [def], st0);
    assert s1.messages == AfterSubmit(codec, system, user, def, id, args);
    assert s1.invocations == [Invocation(def.name, args)];
    assert r1 == Ok(reply) && !AE.IsFinal(reply);
    AE.RunUnfold(env, service, [def], st0, n, s1, r1);
    if n >= 2 {
      var (s2, r2) := AE.Step(env, service, [def], s1);
      assert AE.RequestedCalls(codec, final) == [];
      assert r2 == Ok(final) && s2.invocations == s1.invocations;
      AE.RunUnfold(env, service, [def], s1, n - 1, s2, r2);
    }
  }

  /** When the service fails on the opening request, nothing is captured. */
  lemma ServiceErrorCapturesNothing(codec: Codec, service: Service, system: string, user: string, def: ToolDef, n: nat)
    requires n >= 1 && service(Opening(system, user), Some([def])).Err?
    ensures Captured(codec, service, system, user, def, n) == None
  {
    var st0 := AE.ExecState(Opening(system, user), [], []);
    var (s1, r1) := AE.Step(SubmitEnv(codec, def), service, [def], st0);
    AE.RunUnfold(SubmitEnv(codec, def), service, [def], st0, n, s1, r1);
  }
}
