/** The older tool executor: a fresh conversation per run, tool calls recovered by scanning the
    reply text, and context values injected into the arguments of the tool called. */
module ToolExecution {
  import opened Wrappers
  import opened JsonValues
  import opened Conversation
  import opened Text
  import Reg = ToolRegistry
  import AE = AgentExecution

  // ---------------------------------------------------------------------------
  // Scanning the reply text for JSON tool calls

  /** A chunk starting at `{` that yields a call: it mentions "name" and decodes to a dict with "name". */
  predicate ObjectChunk(codec: Codec, chunk: string)
  {
    Contains(chunk, "name") && codec.loads(chunk).Some? && AE.IsNamedDict(codec.loads(chunk).value)
  }

  /** A chunk starting at `[` that decodes to a list. */
  predicate ListChunk(codec: Codec, chunk: string)
  {
    codec.loads(chunk).Some? && codec.loads(chunk).value.JArr?
  }

  /** The longest chunk `s[i..e]` with `i + 2 <= e <= j` that yields a call, and its value. */
  function ObjectEnd(codec: Codec, s: string, i: nat, j: nat): (r: Option<(nat, Json)>)
    requires i < |s| && j <= |s|
    ensures r.Some? ==>
      i + 2 <= r.value.0 <= j && ObjectChunk(codec, s[i..r.value.0]) && codec.loads(s[i..r.value.0]) == Some(r.value.1)
    ensures r.Some? ==> forall e :: r.value.0 < e <= j ==> !ObjectChunk(codec, s[i..e])
    ensures r.None? ==> forall e :: i + 2 <= e <= j ==> !ObjectChunk(codec, s[i..e])
    decreases j
  {
    if j < i + 2 then None
    else if ObjectChunk(codec, s[i..j]) then Some((j, codec.loads(s[i..j]).value))
    else ObjectEnd(codec, s, i, j - 1)
  }

  /** The longest chunk `s[i..e]` with `i + 2 <= e <= j` that decodes to a list, and its items. */
  function ListEnd(codec: Codec, s: string, i: nat, j: nat): (r: Option<(nat, seq<Json>)>)
    requires i < |s| && j <= |s|
    ensures r.Some? ==> i + 2 <= r.value.0 <= j && codec.loads(s[i..r.value.0]) == Some(JArr(r.value.1))
    ensures r.Some? ==> forall e :: r.value.0 < e <= j ==> !ListChunk(codec, s[i..e])
    ensures r.None? ==> forall e :: i + 2 <= e <= j ==> !ListChunk(codec, s[i..e])
    decreases j
  {
    if j < i + 2 then None
    else if ListChunk(codec, s[i..j]) then Some((j, codec.loads(s[i..j]).value.items))
    else ListEnd(codec, s, i, j - 1)
  }

  /** A span of the text that yielded calls. */
  datatype Found = Found(start: nat, end: nat, calls: seq<ToolCall>)

  /** The scan from position `i`: at `{` the longest chunk yielding a call, at `[` the longest
      chunk decoding to a list, resuming right after the chunk; otherwise the next position. */
  function Scan(codec: Codec, s: string, i: nat): seq<Found>
    decreases |s| - i
  {
    if i >= |s| then []
    else if s[i] == '{' then
      match ObjectEnd(codec, s, i, |s|)
        case Some((j, data)) => [Found(i, j, [AE.CallOf(data)])] + Scan(codec, s, j)
        case None => Scan(codec, s, i + 1)
    else if s[i] == '[' then
      match ListEnd(codec, s, i, |s|)
        case Some((j, items)) => [Found(i, j, AE.CallsFromItems(items))] + Scan(codec, s, j)
        case None => Scan(codec, s, i + 1)
    else Scan(codec, s, i + 1)
  }

  function CallsIn(fs: seq<Found>): seq<ToolCall>
  {
    if |fs| == 0 then [] else fs[0].calls + CallsIn(fs[1..])
  }

  /** The calls found from position `i`, in terms of what is found at `i` itself. */
  lemma ScanCallsStep(codec: Codec, s: string, i: nat)
    requires i < |s|
    ensures s[i] == '{' && ObjectEnd(codec, s, i, |s|).Some? ==>
      var (j, data) := ObjectEnd(codec, s, i, |s|).value;
      CallsIn(Scan(codec, s, i)) == [AE.CallOf(data)] + CallsIn(Scan(codec, s, j))
    ensures s[i] == '[' && ListEnd(codec, s, i, |s|).Some? ==>
      var (j, items) := ListEnd(codec, s, i, |s|).value;
      CallsIn(Scan(codec, s, i)) == AE.CallsFromItems(items) + CallsIn(Scan(codec, s, j))
    ensures !(s[i] == '{' && ObjectEnd(codec, s, i, |s|).Some?) && !(s[i] == '[' && ListEnd(codec, s, i, |s|).Some?) ==>
      CallsIn(Scan(codec, s, i)) == CallsIn(Scan(codec, s, i + 1))
  {
    var fs := Scan(codec, s, i);
    if s[i] == '{' && ObjectEnd(codec, s, i, |s|).Some? {
      assert fs[1..] == Scan(codec, s, ObjectEnd(codec, s, i, |s|).value.0);
    } else if s[i] == '[' && ListEnd(codec, s, i, |s|).Some? {
      assert fs[1..] == Scan(codec, s, ListEnd(codec, s, i, |s|).value.0);
    }
  }

  /** `_parse_tool_calls_from_content`. */
  function ScanCalls(codec: Codec, content: string): seq<ToolCall>
  {
    CallsIn(Scan(codec, AE.CleanContent(content), 0))
  }

  /** The spans lie inside the text from `i` on, each opens with `{` or `[`, and they follow each
      other left to right without overlapping. */
  ghost predicate SpansOrdered(s: string, fs: seq<Found>, i: nat)
  {
    (forall k :: 0 <= k < |fs| ==> i <= fs[k].start < fs[k].end <= |s| && (s[fs[k].start] == '{' || s[fs[k].start] == '['))
    && (forall k :: 0 <= k < |fs| - 1 ==> fs[k].end <= fs[k + 1].start)
  }

  lemma ConsOrdered(s: string, f: Found, rest: seq<Found>, i: nat)
    requires i <= f.start < f.end <= |s| && (s[f.start] == '{' || s[f.start] == '[')
    requires SpansOrdered(s, rest, f.end)
    ensures SpansOrdered(s, [f] + rest, i)
  {
    var fs := [f] + rest;
    assert forall k :: 1 <= k < |fs| ==> fs[k] == rest[k - 1];
  }

  lemma OrderedFromLater(s: string, fs: seq<Found>, i: nat, i0: nat)
    requires i0 <= i && SpansOrdered(s, fs, i)
    ensures SpansOrdered(s, fs, i0)
  {
  }

  /** The spans the scan uses are ordered and disjoint. */
  lemma {:induction false} ScanSpansOrdered(codec: Codec, s: string, i: nat)
    ensures SpansOrdered(s, Scan(codec, s, i), i)
    decreases |s| - i
  {
    if i < |s| {
      if s[i] == '{' && ObjectEnd(codec, s, i, |s|).Some? {
        var (j, data) := ObjectEnd(codec, s, i, |s|).value;
        ScanSpansOrdered(codec, s, j);
        ConsOrdered(s, Found(i, j, [AE.CallOf(data)]), Scan(codec, s, j), i);
      } else if s[i] == '[' && ListEnd(codec, s, i, |s|).Some? {
        var (j, items) := ListEnd(codec, s, i, |s|).value;
        ScanSpansOrdered(codec, s, j);
        ConsOrdered(s, Found(i, j, AE.CallsFromItems(items)), Scan(codec, s, j), i);
      } else {
        ScanSpansOrdered(codec, s, i + 1);
        OrderedFromLater(s, Scan(codec, s, i + 1), i + 1, i);
      }
    }
  }

  /** Every span that opens with `{` is the longest chunk from there that yields a call, and its
      one call is that object's; every span that opens with `[` is the longest chunk decoding to a list. */
  lemma {:induction false} ScanTakesLongestChunks(codec: Codec, s: string, i: nat)
    ensures forall f :: f in Scan(codec, s, i) ==>
      f.start < f.end <= |s|
      && (s[f.start] == '{' ==>
            ObjectChunk(codec, s[f.start..f.end]) && f.calls == [AE.CallOf(codec.loads(s[f.start..f.end]).value)]
            && forall e :: f.end < e <= |s| ==> !ObjectChunk(codec, s[f.start..e]))
      && (s[f.start] == '[' ==>
            ListChunk(codec, s[f.start..f.end]) && f.calls == AE.CallsFromItems(codec.loads(s[f.start..f.end]).value.items)
            && forall e :: f.end < e <= |s| ==> !ListChunk(codec, s[f.start..e]))
    decreases |s| - i
  {
    if i < |s| {
      if s[i] == '{' && ObjectEnd(codec, s, i, |s|).Some? {
        ScanTakesLongestChunks(codec, s, ObjectEnd(codec, s, i, |s|).value.0);
      } else if s[i] == '[' && ListEnd(codec, s, i, |s|).Some? {
        ScanTakesLongestChunks(codec, s, ListEnd(codec, s, i, |s|).value.0);
      } else {
        ScanTakesLongestChunks(codec, s, i + 1);
      }
    }
  }

  // ---------------------------------------------------------------------------
  // Executing one tool call with context injection

  /** Signature parameters missing from the arguments are filled from the context when it has them. */
  function Inject(args: map<string, Json>, params: seq<Param>, context: map<string, Json>): (r: map<string, Json>)
    ensures forall k :: k in r <==> k in args || (k in context && exists p :: p in params && p.name == k)
    ensures forall k :: k in r ==> r[k] == if k in args then args[k] else context[k]
    decreases |params|
  {
    if |params| == 0 then args
    else
      var acc := Inject(args, params[..|params| - 1], context);
      var p := params[|params| - 1];
      assert forall q :: q in params <==> q in params[..|params| - 1] || q == p;
      if p.name !in acc && p.name in context then acc[p.name := context[p.name]] else acc
  }

  /** Some parameter would be injected into a list of arguments. */
  predicate InjectsIntoList(items: seq<Json>, params: seq<Param>, context: map<string, Json>)
  {
    exists p :: p in params && JStr(p.name) !in items && p.name in context
  }

  /** `_execute_tool`: Err for the cases that raise out of it (an unhashable name; arguments that
      cannot be copied; an injection into a list); otherwise the tool's result or an error dict. */
  function Execute(env: AE.Env, context: map<string, Json>, call: ToolCall): Result<AE.Executed>
  {
    if !Hashable(call.name) then Err(UnhashableError(call.name))
    else match AE.Resolve(env, call.name)
      case None => Ok(AE.Executed(ErrorResult("Tool " + Display(env.codec, call.name) + " not found"), []))
      case Some((tool, f)) =>
        match call.arguments
          case JObj(args) =>
            var finalArgs := Inject(args, f.params, context);
            var out := f.run(finalArgs);
            Ok(AE.Executed(if out.Returned? then out.value else ErrorResult(out.message), [Invocation(tool, finalArgs)]))
          case JArr(items) =>
            if InjectsIntoList(items, f.params, context) then Err("list indices must be integers or slices, not str")
            else Ok(AE.Executed(ErrorResult(NotMappingError(f.name, call.arguments)), []))
          case _ => Err("'" + TypeName(call.arguments) + "' object has no attribute 'copy'")
  }

  /** What `_execute_tool` gives in each case. */
  lemma ExecuteOutcomes(env: AE.Env, context: map<string, Json>, call: ToolCall)
    ensures !Hashable(call.name) ==> Execute(env, context, call).Err?
    ensures Hashable(call.name) && AE.Resolve(env, call.name).None? ==>
      Execute(env, context, call) == Ok(AE.Executed(ErrorResult("Tool " + Display(env.codec, call.name) + " not found"), []))
    ensures AE.Resolve(env, call.name).Some? && call.arguments.JObj? ==>
      var f := AE.Resolve(env, call.name).value;
      Execute(env, context, call).Ok? && Execute(env, context, call).value.invoked == [Invocation(f.0, Inject(call.arguments.fields, f.1.params, context))]
    ensures Execute(env, context, call).Ok? ==> |Execute(env, context, call).value.invoked| <= 1
  {
  }

  /** The tool message `_handle_tool_calls` appends: the result's JSON text, with no call id. */
  function ToolMessage(codec: Codec, result: Json): Message
  {
    Message(Tool, Some(codec.dumps(result)), [], None)
  }

  /** `_handle_tool_calls`: one tool message per call, in order, stopping at a call that raises. */
  function HandleAll(env: AE.Env, context: map<string, Json>, calls: seq<ToolCall>): AE.CallsOutcome
    decreases |calls|
  {
    if |calls| == 0 then AE.CallsOutcome([], [], None)
    else
      var prev := HandleAll(env, context, calls[..|calls| - 1]);
      if prev.error.Some? then prev
      else match Execute(env, context, calls[|calls| - 1])
        case Err(e) => prev.(error := Some(e))
        case Ok(x) => AE.CallsOutcome(prev.messages + [ToolMessage(env.codec, x.result)], prev.invoked + x.invoked, None)
  }

  lemma {:induction false} HandleAllAnswersEachCall(env: AE.Env, context: map<string, Json>, calls: seq<ToolCall>)
    ensures var out := HandleAll(env, context, calls);
      (out.error.None? ==> |out.messages| == |calls|)
      && (out.error.Some? ==> |out.messages| < |calls|)
      && forall k :: 0 <= k < |out.messages| ==>
           Execute(env, context, calls[k]).Ok?
           && out.messages[k] == ToolMessage(env.codec, Execute(env, context, calls[k]).value.result)
    decreases |calls|
  {
    if |calls| > 0 {
      var init := calls[..|calls| - 1];
      HandleAllAnswersEachCall(env, context, init);
      var prev := HandleAll(env, context, init);
      var out := HandleAll(env, context, calls);
      assert out.messages[..|prev.messages|] == prev.messages;
      forall k | 0 <= k < |out.messages|
        ensures Execute(env, context, calls[k]).Ok?
        ensures out.messages[k] == ToolMessage(env.codec, Execute(env, context, calls[k]).value.result)
      {
        if k < |prev.messages| {
          assert init[k] == calls[k];
          assert out.messages[k] == out.messages[..|prev.messages|][k];
        }
      }
    }
  }

  /** One more call: its tool message and invocations are added, or its exception ends the run. */
  lemma HandleAllNext(env: AE.Env, context: map<string, Json>, calls: seq<ToolCall>, i: nat)
    requires i < |calls| && HandleAll(env, context, calls[..i]).error.None?
    ensures Execute(env, context, calls[i]).Err? ==>
      HandleAll(env, context, calls[..i + 1]) ==
        HandleAll(env, context, calls[..i]).(error := Some(Execute(env, context, calls[i]).error))
    ensures Execute(env, context, calls[i]).Ok? ==>
      var prev := HandleAll(env, context, calls[..i]); var x := Execute(env, context, calls[i]).value;
      HandleAll(env, context, calls[..i + 1]) ==
        AE.CallsOutcome(prev.messages + [ToolMessage(env.codec, x.result)], prev.invoked + x.invoked, None)
  {
    assert calls[..i + 1][..i] == calls[..i];
  }

  lemma {:induction false} HandleAllPrefixStops(env: AE.Env, context: map<string, Json>, calls: seq<ToolCall>, i: nat)
    requires i <= |calls| && HandleAll(env, context, calls[..i]).error.Some?
    ensures HandleAll(env, context, calls) == HandleAll(env, context, calls[..i])
    decreases |calls| - i
  {
    if i < |calls| {
      assert calls[..i + 1][..i] == calls[..i];
      HandleAllPrefixStops(env, context, calls, i + 1);
    } else {
      assert calls[..i] == calls;
    }
  }

  // ---------------------------------------------------------------------------
  // The run loop

  /** `_prepare_messages`: the system prompt first when it is non-empty, then the user prompt. */
  function PrepareMessages(userPrompt: string, systemPrompt: Option<string>): (r: seq<Message>)
    ensures |r| == if systemPrompt.Some? && systemPrompt.value != "" then 2 else 1
    ensures r[|r| - 1] == UserMessage(userPrompt)
    ensures |r| == 2 ==> r[0] == SystemMessage(systemPrompt.value)
  {
    (if systemPrompt.Some? && systemPrompt.value != "" then [SystemMessage(systemPrompt.value)] else [])
    + [UserMessage(userPrompt)]
  }

  /** The calls a reply asks for: its structured calls, or those the scan recovers from its content. */
  function RequestedCalls(codec: Codec, reply: Message): seq<ToolCall>
  {
    if |reply.toolCalls| == 0 && HasContent(reply) then ScanCalls(codec, reply.content.value)
    else reply.toolCalls
  }

  /** The conversation of one run and the effects it had. */
  datatype RunState = RunState(history: seq<Message>, requests: seq<Request>, invocations: seq<Invocation>)

  /** `run` from a given history, with `n` iterations left: a reply with no calls (neither
      structured nor recovered) ends the run with its content, or "" when it has none. */
  function RunFrom(env: AE.Env, context: map<string, Json>, service: Service, offered: seq<ToolDef>, st: RunState, n: nat): (RunState, Result<string>)
    decreases n
  {
    if n == 0 then (st, Ok(AE.MaxIterationsMessage))
    else
      var tools := if |offered| > 0 then Some(offered) else None;
      var asked := st.(requests := st.requests + [Request(st.history, tools)]);
      match service(st.history, tools)
        case Err(e) => (asked, Err(e))
        case Ok(reply) =>
          var calls := RequestedCalls(env.codec, reply);
          var answered := asked.(history := st.history + [reply]);
          if |calls| == 0 then (answered, Ok(ContentOrEmpty(reply)))
          else
            var out := HandleAll(env, context, calls);
            var next := answered.(history := answered.history + out.messages, invocations := st.invocations + out.invoked);
            if out.error.Some? then (next, Err(out.error.value))
            else RunFrom(env, context, service, offered, next, n - 1)
  }

  /** Unlike the agent executor, a reply whose calls were recovered from its text does not end the
      run: the calls are executed and the service is asked again. */
  lemma RecoveredCallsContinue(env: AE.Env, context: map<string, Json>, service: Service, offered: seq<ToolDef>, st: RunState, n: nat)
    requires n >= 2
    requires var tools := if |offered| > 0 then Some(offered) else None;
      var a := service(st.history, tools);
      a.Ok? && |a.value.toolCalls| == 0 && HasContent(a.value)
      && |ScanCalls(env.codec, a.value.content.value)| > 0
      && HandleAll(env, context, ScanCalls(env.codec, a.value.content.value)).error.None?
    ensures |RunFrom(env, context, service, offered, st, n).0.requests| >= |st.requests| + 2
  {
    var tools := if |offered| > 0 then Some(offered) else None;
    var reply := service(st.history, tools).value;
    var out := HandleAll(env, context, ScanCalls(env.codec, reply.content.value));
    var next := RunState(st.history + [reply] + out.messages, st.requests + [Request(st.history, tools)], st.invocations + out.invoked);
    assert RunFrom(env, context, service, offered, st, n) == RunFrom(env, context, service, offered, next, n - 1);
    RunRequestsGrow(env, context, service, offered, next, n - 1);
  }

  /** Each iteration makes exactly one request until the run ends. */
  lemma {:induction false} RunRequestsGrow(env: AE.Env, context: map<string, Json>, service: Service, offered: seq<ToolDef>, st: RunState, n: nat)
    ensures var r := RunFrom(env, context, service, offered, st, n).0;
      |st.requests| + (if n > 0 then 1 else 0) <= |r.requests| <= |st.requests| + n
      && r.requests[..|st.requests|] == st.requests
    decreases n
  {
    if n > 0 {
      var tools := if |offered| > 0 then Some(offered) else None;
      var a := service(st.history, tools);
      if a.Ok? {
        var calls := RequestedCalls(env.codec, a.value);
        if |calls| > 0 {
          var out := HandleAll(env, context, calls);
          if out.error.None? {
            var next := RunState(st.history + [a.value] + out.messages, st.requests + [Request(st.history, tools)], st.invocations + out.invoked);
            RunRequestsGrow(env, context, service, offered, next, n - 1);
            var r := RunFrom(env, context, service, offered, next, n - 1).0;
            assert r.requests[..|st.requests|] == r.requests[..|next.requests|][..|st.requests|];
          }
        }
      }
    }
  }

  /** A reply that ends the run: no structured calls, and none recovered from its text. */
  predicate FinalReply(codec: Codec, m: Message)
  {
    |m.toolCalls| == 0 && (HasContent(m) ==> |ScanCalls(codec, m.content.value)| == 0)
  }

  /** `response_message.get("content", "")`. */
  function ContentOrEmpty(m: Message): string
  {
    if m.content.Some? then m.content.value else ""
  }

  /** `answer` is the iteration-limit message, or the content of a final reply that `st1` appended
      after `st` as its last message. */
  predicate AnswersWith(codec: Codec, st: RunState, st1: RunState, answer: string)
  {
    answer == AE.MaxIterationsMessage
    || (|st1.history| > |st.history|
        && FinalReply(codec, st1.history[|st1.history| - 1])
        && answer == ContentOrEmpty(st1.history[|st1.history| - 1]))
  }

  /** A successful run returns the iteration-limit message or the content ("" when it has none) of
      the reply that ended it. That reply is the last message of the history, and it asks for no
      tool: it has no structured calls and its text yields none. */
  lemma {:induction false} RunAnswerIsLastReply(env: AE.Env, context: map<string, Json>, service: Service, offered: seq<ToolDef>, st: RunState, n: nat)
    requires RunFrom(env, context, service, offered, st, n).1.Ok?
    ensures n == 0 ==> RunFrom(env, context, service, offered, st, n) == (st, Ok(AE.MaxIterationsMessage))
    ensures AnswersWith(env.codec, st, RunFrom(env, context, service, offered, st, n).0, RunFrom(env, context, service, offered, st, n).1.value)
    decreases n
  {
    if n > 0 {
      var tools := if |offered| > 0 then Some(offered) else None;
      var reply := service(st.history, tools).value;
      var calls := RequestedCalls(env.codec, reply);
      var answered := RunState(st.history + [reply], st.requests + [Request(st.history, tools)], st.invocations);
      if |calls| == 0 {
        assert RunFrom(env, context, service, offered, st, n) == (answered, Ok(ContentOrEmpty(reply)));
        assert answered.history[|answered.history| - 1] == reply;
      } else {
        var out := HandleAll(env, context, calls);
        var next := RunState(st.history + [reply] + out.messages, st.requests + [Request(st.history, tools)], st.invocations + out.invoked);
        assert RunFrom(env, context, service, offered, st, n) == RunFrom(env, context, service, offered, next, n - 1);
        RunAnswerIsLastReply(env, context, service, offered, next, n - 1);
      }
    }
  }

  class ToolExecutor {
    const service: Service
    const codec: Codec
    const registry: Reg.ToolRegistry?
    var context: map<string, Json>
    var toolsRegistry: map<string, PyFunc>
    var toolsDefinitions: seq<ToolDef>
    var requests: seq<Request>
    var invocations: seq<Invocation>

    ghost predicate Valid()
      reads this, registry
    {
      registry != null ==> registry.Valid()
    }

    constructor (service: Service, codec: Codec, registry: Reg.ToolRegistry?, context: Option<map<string, Json>>)
      requires registry != null ==> registry.Valid()
      ensures Valid()
      ensures this.service == service && this.codec == codec && this.registry == registry
      ensures this.context == if context.Some? then context.value else map[]
      ensures toolsRegistry == map[] && toolsDefinitions == [] && requests == [] && invocations == []
    {
      this.service := service;
      this.codec := codec;
      this.registry := registry;
      this.context := if context.Some? then context.value else map[];
      toolsRegistry := map[];
      toolsDefinitions := [];
      requests := [];
      invocations := [];
    }

    function ToolEnv(): AE.Env
      reads this, registry
    {
      AE.Env(codec, toolsRegistry, if registry != null then Some(registry.tools) else None)
    }

    /** `_get_tools_definitions`: the hand-registered definitions, then the registry's. */
    function OfferedTools(): seq<ToolDef>
      reads this, registry
      requires Valid()
    {
      toolsDefinitions + (if registry != null then registry.GetDefinitions(None) else [])
    }

    /** `register_tool`. */
    method RegisterTool(definition: ToolDef, func: PyFunc)
      modifies this
      ensures toolsRegistry == old(toolsRegistry)[definition.name := func]
      ensures toolsDefinitions == old(toolsDefinitions) + [definition]
      ensures context == old(context) && requests == old(requests) && invocations == old(invocations)
    {
      toolsRegistry := toolsRegistry[definition.name := func];
      toolsDefinitions := toolsDefinitions + [definition];
    }

    /** `_parse_tool_calls_from_content`, scanning left to right. */
    method ParseToolCallsFromContent(content: string) returns (found: seq<ToolCall>)
      ensures found == ScanCalls(codec, content)
    {
      var s := AE.CleanContent(content);
      ghost var total := CallsIn(Scan(codec, s, 0));
      found := [];
      var i := 0;
      while i < |s|
        invariant 0 <= i <= |s|
        invariant found + CallsIn(Scan(codec, s, i)) == total
        decreases |s| - i
      {
        var step, next := ScanAt(s, i);
        found := found + step;
        i := next;
      }
    }

    /** One round of the outer loop: what is found at `i`, and where the scan resumes (right after
        a chunk that was used, else at the next character). */
    method ScanAt(s: string, i: nat) returns (step: seq<ToolCall>, next: nat)
      requires i < |s|
      ensures i < next <= |s|
      ensures CallsIn(Scan(codec, s, i)) == step + CallsIn(Scan(codec, s, next))
    {
      ScanCallsStep(codec, s, i);
      step, next := [], i + 1;
      if s[i] == '{' {
        var hit := LongestObjectAt(s, i);
        if hit.Some? {
          step, next := [AE.CallOf(hit.value.1)], hit.value.0;
        }
      } else if s[i] == '[' {
        var hit := LongestListAt(s, i);
        if hit.Some? {
          step, next := AE.CallsFromItems(hit.value.1), hit.value.0;
        }
      }
    }

    /** The inner loop at `{`: chunk ends tried from the end of the text downwards. */
    method LongestObjectAt(s: string, i: nat) returns (r: Option<(nat, Json)>)
      requires i < |s|
      ensures r == ObjectEnd(codec, s, i, |s|)
    {
      var j := |s|;
      while j > i + 1
        invariant i + 1 <= j <= |s|
        invariant ObjectEnd(codec, s, i, |s|) == ObjectEnd(codec, s, i, j)
      {
        var chunk := s[i..j];
        if Contains(chunk, "name") {
          var data := codec.loads(chunk);
          if data.Some? && AE.IsNamedDict(data.value) {
            return Some((j, data.value));
          }
        }
        j := j - 1;
      }
      r := None;
    }

    /** The inner loop at `[`. */
    method LongestListAt(s: string, i: nat) returns (r: Option<(nat, seq<Json>)>)
      requires i < |s|
      ensures r == ListEnd(codec, s, i, |s|)
    {
      var j := |s|;
      while j > i + 1
        invariant i + 1 <= j <= |s|
        invariant ListEnd(codec, s, i, |s|) == ListEnd(codec, s, i, j)
      {
        var data := codec.loads(s[i..j]);
        if data.Some? && data.value.JArr? {
          return Some((j, data.value.items));
        }
        j := j - 1;
      }
      r := None;
    }

    /** `_handle_tool_calls` on the run's history. */
    method HandleToolCalls(history: seq<Message>, calls: seq<ToolCall>) returns (h: seq<Message>, err: Option<string>)
      modifies this
      ensures var out := HandleAll(old(ToolEnv()), context, calls);
        h == history + out.messages && invocations == old(invocations) + out.invoked && err == out.error
      ensures requests == old(requests) && toolsRegistry == old(toolsRegistry) && toolsDefinitions == old(toolsDefinitions)
      ensures context == old(context)
    {
      var env := ToolEnv();
      assert env == old(ToolEnv());
      h := history;
      var i := 0;
      while i < |calls|
        invariant 0 <= i <= |calls|
        invariant HandleAll(env, context, calls[..i]).error.None?
        invariant h == history + HandleAll(env, context, calls[..i]).messages
        invariant invocations == old(invocations) + HandleAll(env, context, calls[..i]).invoked
        invariant requests == old(requests) && toolsRegistry == old(toolsRegistry) && toolsDefinitions == old(toolsDefinitions)
        invariant context == old(context)
      {
        var executed := Execute(env, context, calls[i]);
        HandleAllNext(env, context, calls, i);
        if executed.Err? {
          HandleAllPrefixStops(env, context, calls, i + 1);
          return h, Some(executed.error);
        }
        h := h + [ToolMessage(codec, executed.value.result)];
        invocations := invocations + executed.value.invoked;
        i := i + 1;
      }
      assert calls[..i] == calls;
      err := None;
    }

    /** The request of one iteration: the history and the offered tools (none when the list is
        empty) go to the service, and the request is logged. */
    method Ask(history: seq<Message>, offered: seq<ToolDef>) returns (answer: Result<Message>)
      modifies this
      ensures var tools := if |offered| > 0 then Some(offered) else None;
        requests == old(requests) + [Request(history, tools)] && answer == service(history, tools)
      ensures invocations == old(invocations) && context == old(context)
      ensures toolsRegistry == old(toolsRegistry) && toolsDefinitions == old(toolsDefinitions)
    {
      var tools := if |offered| > 0 then Some(offered) else None;
      requests := requests + [Request(history, tools)];
      answer := service(history, tools);
    }

    /** `run(userPrompt, systemPrompt, maxIterations)`; the history it builds is returned beside the answer. */
    method Run(userPrompt: string, systemPrompt: Option<string>, maxIterations: nat) returns (history: seq<Message>, r: Result<string>)
      requires Valid()
      modifies this
      ensures Valid()
      ensures (RunState(history, requests, invocations), r)
        == RunFrom(old(ToolEnv()), context, service, old(OfferedTools()),
                             RunState(PrepareMessages(userPrompt, systemPrompt), old(requests), old(invocations)), maxIterations)
      ensures toolsRegistry == old(toolsRegistry) && toolsDefinitions == old(toolsDefinitions) && context == old(context)
    {
      ghost var env := ToolEnv();
      ghost var offered0 := OfferedTools();
      history := PrepareMessages(userPrompt, systemPrompt);
      ghost var goal := RunFrom(env, context, service, offered0, RunState(history, requests, invocations), maxIterations);
      var i := 0;
      while i < maxIterations
        invariant 0 <= i <= maxIterations
        invariant Valid() && ToolEnv() == env && OfferedTools() == offered0
        invariant RunFrom(env, context, service, offered0, RunState(history, requests, invocations), maxIterations - i) == goal
        invariant toolsRegistry == old(toolsRegistry) && toolsDefinitions == old(toolsDefinitions) && context == old(context)
      {
        ghost var before := RunState(history, requests, invocations);
        var answer := Ask(history, OfferedTools());
        if answer.Err? {
          return history, Err(answer.error);
        }
        var reply := answer.value;
        history := history + [reply];
        var calls := RequestedCalls(codec, reply);
        if |calls| == 0 {
          return history, Ok(if reply.content.Some? then reply.content.value else "");
        }
        var err;
        history, err := HandleToolCalls(history, calls);
        if err.Some? {
          return history, Err(err.value);
        }
        assert RunFrom(env, context, service, offered0, before, maxIterations - i)
            == RunFrom(env, context, service, offered0, RunState(history, requests, invocations), maxIterations - i - 1);
        i := i + 1;
      }
      r := Ok(AE.MaxIterationsMessage);
    }
  }
}
