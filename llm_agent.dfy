/** The simple tool executor of the LLM package: hand-registered tools only, structured tool
    calls only, a fresh conversation per run, and the tool list always offered. */
module LlmAgent {
  import opened Wrappers
  import opened JsonValues
  import opened Conversation
  import AE = AgentExecution
  import TE = ToolExecution

  /** `_execute_tool`: an unhashable name raises out of it (the membership test comes before the
      `try`); an unknown name gives the not-found error dict; otherwise the function is called
      with the arguments as keyword arguments, and whatever it raises (including the TypeError of
      non-mapping arguments) comes back as an error dict. */
  function Execute(codec: Codec, tools: map<string, PyFunc>, call: ToolCall): Result<AE.Executed>
  {
    if !Hashable(call.name) then Err(UnhashableError(call.name))
    else if !(call.name.JStr? && call.name.s in tools) then
      Ok(AE.Executed(ErrorResult("Tool " + Display(codec, call.name) + " not found"), []))
    else
      var f := tools[call.name.s];
      match call.arguments
        case JObj(args) =>
          var out := f.run(args);
          Ok(AE.Executed(if out.Returned? then out.value else ErrorResult(out.message), [Invocation(call.name.s, args)]))
        case _ => Ok(AE.Executed(ErrorResult(NotMappingError(f.name, call.arguments)), []))
  }

  /** What `_execute_tool` gives in each case. */
  lemma ExecuteOutcomes(codec: Codec, tools: map<string, PyFunc>, call: ToolCall)
    ensures Execute(codec, tools, call).Err? <==> !Hashable(call.name)
    ensures Hashable(call.name) && !(call.name.JStr? && call.name.s in tools) ==>
      Execute(codec, tools, call) == Ok(AE.Executed(ErrorResult("Tool " + Display(codec, call.name) + " not found"), []))
    ensures call.name.JStr? && call.name.s in tools && call.arguments.JObj? ==>
      var f := tools[call.name.s];
      var out := f.run(call.arguments.fields);
      Execute(codec, tools, call).Ok? && Execute(codec, tools, call).value.invoked == [Invocation(call.name.s, call.arguments.fields)]
      && Execute(codec, tools, call).value.result == (if out.Returned? then out.value else ErrorResult(out.message))
    ensures call.name.JStr? && call.name.s in tools && !call.arguments.JObj? ==>
      Execute(codec, tools, call) == Ok(AE.Executed(ErrorResult(NotMappingError(tools[call.name.s].name, call.arguments)), []))
  {
  }

  /** `_handle_tool_calls`: one tool message (the result's JSON text, no call id) per call, in
      order, stopping at a call that raises. */
  function HandleAll(codec: Codec, tools: map<string, PyFunc>, calls: seq<ToolCall>): AE.CallsOutcome
    decreases |calls|
  {
    if |calls| == 0 then AE.CallsOutcome([], [], None)
    else
      var prev := HandleAll(codec, tools, calls[..|calls| - 1]);
      if prev.error.Some? then prev
      else match Execute(codec, tools, calls[|calls| - 1])
        case Err(e) => prev.(error := Some(e))
        case Ok(x) => AE.CallsOutcome(prev.messages + [TE.ToolMessage(codec, x.result)], prev.invoked + x.invoked, None)
  }

  /** The calls stop at the first one that raises, which is the first call with an unhashable name. */
  lemma {:induction false} HandleAllStops(codec: Codec, tools: map<string, PyFunc>, calls: seq<ToolCall>)
    ensures var out := HandleAll(codec, tools, calls);
      (out.error.None? ==> forall k :: 0 <= k < |calls| ==> Hashable(calls[k].name))
      && (out.error.None? ==> |out.messages| == |calls|)
      && (out.error.Some? ==> |out.messages| < |calls| && !Hashable(calls[|out.messages|].name))
    decreases |calls|
  {
    if |calls| > 0 {
      var init := calls[..|calls| - 1];
      HandleAllStops(codec, tools, init);
      assert forall k :: 0 <= k < |init| ==> init[k] == calls[k];
    }
  }

  /** Every call before the first one that raises is answered by exactly one tool message, in order. */
  lemma {:induction false} HandleAllAnswersEachCall(codec: Codec, tools: map<string, PyFunc>, calls: seq<ToolCall>)
    ensures var out := HandleAll(codec, tools, calls);
      (out.error.None? <==> forall k :: 0 <= k < |calls| ==> Hashable(calls[k].name))
      && (out.error.None? ==> |out.messages| == |calls|)
      && (out.error.Some? ==> |out.messages| < |calls| && !Hashable(calls[|out.messages|].name))
      && forall k :: 0 <= k < |out.messages| ==>
           Execute(codec, tools, calls[k]).Ok?
           && out.messages[k] == TE.ToolMessage(codec, Execute(codec, tools, calls[k]).value.result)
  {
    HandleAllStops(codec, tools, calls);
    HandleAllMessages(codec, tools, calls);
  }

  lemma {:induction false} HandleAllMessages(codec: Codec, tools: map<string, PyFunc>, calls: seq<ToolCall>)
    ensures var out := HandleAll(codec, tools, calls);
      forall k :: 0 <= k < |out.messages| ==>
        k < |calls| && Execute(codec, tools, calls[k]).Ok?
        && out.messages[k] == TE.ToolMessage(codec, Execute(codec, tools, calls[k]).value.result)
    decreases |calls|
  {
    if |calls| > 0 {
      var init := calls[..|calls| - 1];
      HandleAllMessages(codec, tools, init);
      HandleAllStops(codec, tools, init);
      assert forall k :: 0 <= k < |init| ==> init[k] == calls[k];
    }
  }

  /** One more call handled after an error-free prefix. */
  lemma HandleAllNext(codec: Codec, tools: map<string, PyFunc>, calls: seq<ToolCall>, i: nat)
    requires i < |calls| && HandleAll(codec, tools, calls[..i]).error.None?
    ensures Execute(codec, tools, calls[i]).Err? ==>
      HandleAll(codec, tools, calls[..i + 1]) ==
        HandleAll(codec, tools, calls[..i]).(error := Some(Execute(codec, tools, calls[i]).error))
    ensures Execute(codec, tools, calls[i]).Ok? ==>
      var prev := HandleAll(codec, tools, calls[..i]); var x := Execute(codec, tools, calls[i]).value;
      HandleAll(codec, tools, calls[..i + 1]) ==
        AE.CallsOutcome(prev.messages + [TE.ToolMessage(codec, x.result)], prev.invoked + x.invoked, None)
  {
    assert calls[..i + 1][..i] == calls[..i];
  }

  lemma {:induction false} HandleAllPrefixStops(codec: Codec, tools: map<string, PyFunc>, calls: seq<ToolCall>, i: nat)
    requires i <= |calls| && HandleAll(codec, tools, calls[..i]).error.Some?
    ensures HandleAll(codec, tools, calls) == HandleAll(codec, tools, calls[..i])
    decreases |calls| - i
  {
    if i < |calls| {
      assert calls[..i + 1][..i] == calls[..i];
      HandleAllPrefixStops(codec, tools, calls, i + 1);
    } else {
      assert calls[..i] == calls;
    }
  }

  /** `response_message.get("content", "")`. */
  function ContentOrEmpty(m: Message): string
  {
    if m.content.Some? then m.content.value else ""
  }

  /** `run` from a given history with `n` iterations left: the definitions are always offered (an
      empty list too); a reply without structured calls ends the run with its content. */
  function RunFrom(codec: Codec, tools: map<string, PyFunc>, service: Service, defs: seq<ToolDef>, st: TE.RunState, n: nat): (TE.RunState, Result<string>)
    decreases n
  {
    if n == 0 then (st, Ok(AE.MaxIterationsMessage))
    else
      var asked := st.(requests := st.requests + [Request(st.history, Some(defs))]);
      match service(st.history, Some(defs))
        case Err(e) => (asked, Err(e))
        case Ok(reply) =>
          var answered := asked.(history := st.history + [reply]);
          if |reply.toolCalls| == 0 then (answered, Ok(ContentOrEmpty(reply)))
          else
            var out := HandleAll(codec, tools, reply.toolCalls);
            var next := answered.(history := answered.history + out.messages, invocations := st.invocations + out.invoked);
            if out.error.Some? then (next, Err(out.error.value))
            else RunFrom(codec, tools, service, defs, next, n - 1)
  }

  /** `st1` extends `st`: the history and the logs only grew, and every new request offers
      `defs`. */
  predicate Grows(st: TE.RunState, st1: TE.RunState, defs: seq<ToolDef>)
  {
    |st.history| <= |st1.history| && st1.history[..|st.history|] == st.history
    && |st.requests| <= |st1.requests| && st1.requests[..|st.requests|] == st.requests
    && (forall k :: |st.requests| <= k < |st1.requests| ==> st1.requests[k].tools == Some(defs))
    && |st.invocations| <= |st1.invocations| && st1.invocations[..|st.invocations|] == st.invocations
  }

  lemma GrowsTrans(a: TE.RunState, b: TE.RunState, c: TE.RunState, defs: seq<ToolDef>)
    requires Grows(a, b, defs) && Grows(b, c, defs)
    ensures Grows(a, c, defs)
  {
    assert c.history[..|a.history|] == c.history[..|b.history|][..|a.history|];
    assert c.requests[..|a.requests|] == c.requests[..|b.requests|][..|a.requests|];
    assert c.invocations[..|a.invocations|] == c.invocations[..|b.invocations|][..|a.invocations|];
    forall k | |a.requests| <= k < |c.requests|
      ensures c.requests[k].tools == Some(defs)
    {
      if k < |b.requests| {
        assert c.requests[k] == c.requests[..|b.requests|][k];
      }
    }
  }

  /** One iteration of the loop: a request offering `defs`, then the reply and the tool messages
      appended to the history. */
  lemma IterationGrows(st: TE.RunState, defs: seq<ToolDef>, added: seq<Message>, invoked: seq<Invocation>)
    ensures Grows(st, TE.RunState(st.history + added, st.requests + [Request(st.history, Some(defs))], st.invocations + invoked), defs)
  {
  }

  /** A run only appends to the history and the logs, with one request per iteration, and every
      request offers the whole definition list. */
  lemma {:induction false} RunOnlyAppends(codec: Codec, tools: map<string, PyFunc>, service: Service, defs: seq<ToolDef>, st: TE.RunState, n: nat)
    ensures Grows(st, RunFrom(codec, tools, service, defs, st, n).0, defs)
    ensures |RunFrom(codec, tools, service, defs, st, n).0.requests| <= |st.requests| + n
    decreases n
  {
    if n > 0 {
      var a := service(st.history, Some(defs));
      if a.Err? {
        IterationGrows(st, defs, [], []);
        assert st.history + [] == st.history && st.invocations + [] == st.invocations;
      } else if |a.value.toolCalls| == 0 {
        IterationGrows(st, defs, [a.value], []);
        assert st.invocations + [] == st.invocations;
      } else {
        var out := HandleAll(codec, tools, a.value.toolCalls);
        var s1 := TE.RunState(st.history + [a.value] + out.messages, st.requests + [Request(st.history, Some(defs))], st.invocations + out.invoked);
        IterationGrows(st, defs, [a.value] + out.messages, out.invoked);
        assert st.history + [a.value] + out.messages == st.history + ([a.value] + out.messages);
        if out.error.None? {
          RunOnlyAppends(codec, tools, service, defs, s1, n - 1);
          GrowsTrans(st, s1, RunFrom(codec, tools, service, defs, s1, n - 1).0, defs);
        }
      }
    }
  }

  /** A successful run returns the iteration-limit message or the content of the reply that ended
      it, which is the last message of the history and asks for no tool. */
  lemma {:induction false} RunAnswerIsLastReply(codec: Codec, tools: map<string, PyFunc>, service: Service, defs: seq<ToolDef>, st: TE.RunState, n: nat)
    requires RunFrom(codec, tools, service, defs, st, n).1.Ok?
    ensures var (st1, r) := RunFrom(codec, tools, service, defs, st, n);
      (n == 0 ==> r.value == AE.MaxIterationsMessage && st1 == st)
      && (r.value == AE.MaxIterationsMessage
          || (|st1.history| > |st.history| && |st1.history[|st1.history| - 1].toolCalls| == 0
              && r.value == ContentOrEmpty(st1.history[|st1.history| - 1])))
    decreases n
  {
    if n > 0 {
      var a := service(st.history, Some(defs));
      if |a.value.toolCalls| > 0 {
        var out := HandleAll(codec, tools, a.value.toolCalls);
        var s1 := TE.RunState(st.history + [a.value] + out.messages, st.requests + [Request(st.history, Some(defs))], st.invocations + out.invoked);
        RunAnswerIsLastReply(codec, tools, service, defs, s1, n - 1);
      }
    }
  }

  class ToolExecutor {
    const service: Service
    const codec: Codec
    var toolsRegistry: map<string, PyFunc>
    var toolsDefinitions: seq<ToolDef>
    var requests: seq<Request>
    var invocations: seq<Invocation>

    constructor (service: Service, codec: Codec)
      ensures this.service == service && this.codec == codec
      ensures toolsRegistry == map[] && toolsDefinitions == [] && requests == [] && invocations == []
    {
      this.service := service;
      this.codec := codec;
      toolsRegistry := map[];
      toolsDefinitions := [];
      requests := [];
      invocations := [];
    }

    /** `register_tool`: the name now maps to `func`, replacing an earlier one, while the
        definition is appended even when the name was registered before. */
    method RegisterTool(definition: ToolDef, func: PyFunc)
      modifies this
      ensures toolsRegistry == old(toolsRegistry)[definition.name := func]
      ensures toolsDefinitions == old(toolsDefinitions) + [definition]
      ensures requests == old(requests) && invocations == old(invocations)
    {
      toolsRegistry := toolsRegistry[definition.name := func];
      toolsDefinitions := toolsDefinitions + [definition];
    }

    /** `_handle_tool_calls` on the run's history. */
    method HandleToolCalls(history: seq<Message>, calls: seq<ToolCall>) returns (h: seq<Message>, err: Option<string>)
      modifies this
      ensures var out := HandleAll(codec, toolsRegistry, calls);
        h == history + out.messages && invocations == old(invocations) + out.invoked && err == out.error
      ensures requests == old(requests) && toolsRegistry == old(toolsRegistry) && toolsDefinitions == old(toolsDefinitions)
    {
      h := history;
      var i := 0;
      while i < |calls|
        invariant 0 <= i <= |calls|
        invariant HandleAll(codec, toolsRegistry, calls[..i]).error.None?
        invariant h == history + HandleAll(codec, toolsRegistry, calls[..i]).messages
        invariant invocations == old(invocations) + HandleAll(codec, toolsRegistry, calls[..i]).invoked
        invariant requests == old(requests) && toolsRegistry == old(toolsRegistry) && toolsDefinitions == old(toolsDefinitions)
      {
        var executed := Execute(codec, toolsRegistry, calls[i]);
        HandleAllNext(codec, toolsRegistry, calls, i);
        if executed.Err? {
          HandleAllPrefixStops(codec, toolsRegistry, calls, i + 1);
          return h, Some(executed.error);
        }
        h := h + [TE.ToolMessage(codec, executed.value.result)];
        invocations := invocations + executed.value.invoked;
        i := i + 1;
      }
      assert calls[..i] == calls;
      err := None;
    }

    /** `run(userPrompt, systemPrompt, maxIterations)`; the history it builds is returned beside the answer. */
    method Run(userPrompt: string, systemPrompt: Option<string>, maxIterations: nat) returns (history: seq<Message>, r: Result<string>)
      modifies this
      ensures (TE.RunState(history, requests, invocations), r)
        == RunFrom(codec, toolsRegistry, service, toolsDefinitions,
                   TE.RunState(TE.PrepareMessages(userPrompt, systemPrompt), old(requests), old(invocations)), maxIterations)
      ensures toolsRegistry == old(toolsRegistry) && toolsDefinitions == old(toolsDefinitions)
    {
      history := TE.PrepareMessages(userPrompt, systemPrompt);
      ghost var goal := RunFrom(codec, toolsRegistry, service, toolsDefinitions, TE.RunState(history, requests, invocations), maxIterations);
      var i := 0;
      while i < maxIterations
        invariant 0 <= i <= maxIterations
        invariant RunFrom(codec, toolsRegistry, service, toolsDefinitions, TE.RunState(history, requests, invocations), maxIterations - i) == goal
        invariant toolsRegistry == old(toolsRegistry) && toolsDefinitions == old(toolsDefinitions)
      {
        ghost var before := TE.RunState(history, requests, invocations);
        requests := requests + [Request(history, Some(toolsDefinitions))];
        var answer := service(history, Some(toolsDefinitions));
        if answer.Err? {
          return history, Err(answer.error);
        }
        var reply := answer.value;
        history := history + [reply];
        if |reply.toolCalls| == 0 {
          return history, Ok(ContentOrEmpty(reply));
        }
        var err;
        history, err := HandleToolCalls(history, reply.toolCalls);
        if err.Some? {
          return history, Err(err.value);
        }
        assert RunFrom(codec, toolsRegistry, service, toolsDefinitions, before, maxIterations - i)
            == RunFrom(codec, toolsRegistry, service, toolsDefinitions, TE.RunState(history, requests, invocations), maxIterations - i - 1);
        i := i + 1;
      }
      r := Ok(AE.MaxIterationsMessage);
    }
  }
}
