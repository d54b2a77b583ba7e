/** The agent executor: a conversation with a language-model service, tools registered
    by hand or taken from a registry, and the loop that executes requested tool calls. */
module AgentExecution {
  import opened Wrappers
  import opened JsonValues
  import opened Conversation
  import opened Text
  import opened SeqUtil
  import Reg = ToolRegistry

  const MaxIterationsMessage := "Max iterations reached without a final answer."
  const Fence := "```"

  // ---------------------------------------------------------------------------
  // Recovering tool calls written as JSON inside the reply text

  predicate IsLowerLetter(c: char) { 'a' <= c <= 'z' }

  /** Length of the run of lower-case letters at the start of `s`. */
  function LowerRun(s: string): (n: nat)
    ensures n <= |s|
  {
    if |s| == 0 || !IsLowerLetter(s[0]) then 0 else 1 + LowerRun(s[1..])
  }

  /** `re.sub(r"```[a-z]*", "", s)`: every fence, with the language tag after it, removed
      left to right. */
  function RemoveFences(s: string): string
    decreases |s|
  {
    if |s| < 3 then s
    else if s[..3] == Fence then RemoveFences(s[3 + LowerRun(s[3..])..])
    else [s[0]] + RemoveFences(s[1..])
  }

  /** A string that does not start with a fence keeps its first character. */
  lemma FirstCharKept(s: string)
    requires s != "" && !StartsWith(s, Fence)
    ensures RemoveFences(s) != "" && RemoveFences(s)[0] == s[0]
  {
  }

  /** No fence survives `RemoveFences`. */
  lemma {:induction false} NoFenceSurvives(s: string)
    ensures !Contains(RemoveFences(s), Fence)
    decreases |s|
  {
    var r := RemoveFences(s);
    if |s| < 3 {
      NoRoomNoContains(s, Fence);
    } else if s[..3] == Fence {
      NoFenceSurvives(s[3 + LowerRun(s[3..])..]);
    } else {
      var t := s[1..];
      NoFenceSurvives(t);
      assert r == [s[0]] + RemoveFences(t);
      assert !StartsWith(r, Fence) by {
        if s[0] != '`' {
          assert r[0] != '`';
        } else if s[1] != '`' {
          FirstCharKept(t);
          assert r[1] == s[1];
        } else {
          assert s[2] != '`';
          if |t| < 3 {
            assert r == s;
          } else {
            var u := t[1..];
            assert RemoveFences(t) == [t[0]] + RemoveFences(u);
            FirstCharKept(u);
            assert r[2] == s[2];
          }
        }
      }
    }
  }

  /** The reply text with fences removed and surrounding whitespace stripped. */
  function CleanContent(s: string): string
  {
    Strip(ReplaceAll(RemoveFences(s), Fence, ""))
  }

  /** The second, literal fence replacement never has anything left to remove. */
  lemma CleanContentIsStrippedUnfenced(s: string)
    ensures CleanContent(s) == Strip(RemoveFences(s))
  {
    NoFenceSurvives(s);
  }

  /** The span `re.search(r"(<open>.*<close>)", s, re.DOTALL)` matches: from the first `open`
      to the last `close`, when the first comes before the last. */
  function GreedySpan(s: string, open: char, close: char): (r: Option<(nat, nat)>)
    ensures r.Some? ==> r.value.0 < r.value.1 <= |s| && s[r.value.0] == open && s[r.value.1 - 1] == close
    ensures r.Some? ==> forall k :: 0 <= k < r.value.0 ==> s[k] != open
    ensures r.Some? ==> forall k :: r.value.1 <= k < |s| ==> s[k] != close
    ensures r.None? ==> forall i, j :: 0 <= i < j < |s| && s[i] == open ==> s[j] != close
  {
    match (FirstIndexOf(s, open), LastIndexOf(s, close))
      case (Some(i), Some(j)) =>
        if i < j then Some((i, j + 1)) else None
      case _ => None
  }

  /** A decoded item that yields a call: a dict with a "name" key. */
  predicate IsNamedDict(item: Json)
  {
    item.JObj? && "name" in item.fields
  }

  /** The call a named dict stands for: no id, its "name", its "arguments" or `{}`. */
  function CallOf(item: Json): ToolCall
    requires IsNamedDict(item)
  {
    ToolCall(None, item.fields["name"], GetOr(item.fields, "arguments", JObj(map[])))
  }

  /** One call per named dict among the items, in order. */
  function CallsFromItems(items: seq<Json>): (r: seq<ToolCall>)
    ensures |r| <= |items|
    ensures forall c :: c in r ==> c.id.None?
  {
    if |items| == 0 then []
    else
      var last := items[|items| - 1];
      CallsFromItems(items[..|items| - 1]) + (if IsNamedDict(last) then [CallOf(last)] else [])
  }

  lemma CallsFromItemsAppend(a: seq<Json>, b: seq<Json>)
    ensures CallsFromItems(a + b) == CallsFromItems(a) + CallsFromItems(b)
    decreases |b|
  {
    if |b| > 0 {
      assert (a + b)[..|a + b| - 1] == a + b[..|b| - 1];
      CallsFromItemsAppend(a, b[..|b| - 1]);
    } else {
      assert a + b == a;
    }
  }

  /** The decoded value `_parse_tool_calls_from_content` turns into calls: the list span when
      there is one, else the object span wrapped in a list; None when that span does not decode. */
  function FoundData(codec: Codec, content: string): Option<Json>
  {
    var c := CleanContent(content);
    match GreedySpan(c, '[', ']')
      case Some((i, j)) => codec.loads(c[i..j])
      case None =>
        match GreedySpan(c, '{', '}')
          case Some((i, j)) =>
            (match codec.loads(c[i..j])
              case Some(v) => Some(JArr([v]))
              case None => None)
          case None => None
  }

  /** `_parse_tool_calls_from_content`. */
  function SalvageCalls(codec: Codec, content: string): (r: seq<ToolCall>)
    ensures forall c :: c in r ==> c.id.None?
  {
    match FoundData(codec, content)
      case Some(JArr(items)) => CallsFromItems(items)
      case _ => []
  }

  /** A reply text holding exactly one named JSON object, and no brackets, yields exactly that call. */
  lemma {:induction false} SingleObjectSalvaged(codec: Codec, content: string, item: Json)
    requires var c := CleanContent(content); forall k :: 0 <= k < |c| ==> c[k] != '['
    requires var c := CleanContent(content);
      GreedySpan(c, '{', '}').Some? && codec.loads(c[GreedySpan(c, '{', '}').value.0..GreedySpan(c, '{', '}').value.1]) == Some(item)
    requires IsNamedDict(item)
    ensures SalvageCalls(codec, content) == [CallOf(item)]
  {
    var c := CleanContent(content);
    assert GreedySpan(c, '[', ']').None? by {
      assert FirstIndexOf(c, '[').None?;
    }
    assert FoundData(codec, content) == Some(JArr([item]));
    assert CallsFromItems([item]) == CallsFromItems([]) + [CallOf(item)];
  }

  /** Whenever the cleaned text has a `[` before a `]`, only the list span counts: a call object
      whose arguments hold a list is read through that inner list, not as the whole object. */
  lemma {:induction false} ListSpanWins(codec: Codec, content: string, i: nat, j: nat)
    requires var c := CleanContent(content); i < j < |c| && c[i] == '[' && c[j] == ']'
    ensures var c := CleanContent(content);
      var span := GreedySpan(c, '[', ']');
      span.Some?
      && SalvageCalls(codec, content) == (match codec.loads(c[span.value.0..span.value.1])
           case Some(JArr(items)) => CallsFromItems(items)
           case _ => [])
  {
  }

  /** Text whose chosen span does not decode yields no calls. */
  lemma UndecodableYieldsNothing(codec: Codec, content: string)
    requires FoundData(codec, content).None?
    ensures SalvageCalls(codec, content) == []
  {
  }

  // ---------------------------------------------------------------------------
  // Executing one tool call

  /** Where `_execute_tool` looks for implementations: the hand-registered tools, then the registry's. */
  datatype Env = Env(codec: Codec, manual: map<string, PyFunc>, dynamic: Option<map<string, Reg.Registered>>)

  /** The implementation a name resolves to, with the tool name it resolved by. */
  function Resolve(env: Env, name: Json): (r: Option<(string, PyFunc)>)
    ensures r.Some? ==> name == JStr(r.value.0)
    ensures r.Some? && r.value.0 in env.manual ==> r.value.1 == env.manual[r.value.0]
    ensures r.None? <==> !name.JStr? || (name.s !in env.manual && (env.dynamic.None? || name.s !in env.dynamic.value))
  {
    if !name.JStr? then None
    else if name.s in env.manual then Some((name.s, env.manual[name.s]))
    else if env.dynamic.Some? && name.s in env.dynamic.value then Some((name.s, env.dynamic.value[name.s].func))
    else None
  }

  /** Arguments sent as JSON text are decoded; text that does not decode is passed on as is. */
  function DecodedArguments(codec: Codec, args: Json): Json
  {
    if args.JStr? then
      match codec.loads(args.s)
        case Some(v) => v
        case None => args
    else args
  }

  /** The result of one tool call and the implementation calls it made (none or one). */
  datatype Executed = Executed(result: Json, invoked: seq<Invocation>)

  /** `_execute_tool`: Err when the name cannot be looked up at all (a list or dict name raises
      out of the dict lookup); otherwise the tool's result, or an error dict. */
  function Execute(env: Env, call: ToolCall): Result<Executed>
  {
    var args := DecodedArguments(env.codec, call.arguments);
    if !Hashable(call.name) then Err(UnhashableError(call.name))
    else match Resolve(env, call.name)
      case None => Ok(Executed(ErrorResult("Tool " + Display(env.codec, call.name) + " not found"), []))
      case Some((tool, f)) =>
        if args.JObj? then
          var out := f.run(args.fields);
          Ok(Executed(if out.Returned? then out.value else ErrorResult(out.message), [Invocation(tool, args.fields)]))
        else
          Ok(Executed(ErrorResult(NotMappingError(f.name, args)), []))
  }

  /** What executing one call yields: an exception only for an unhashable name, an error result
      for an unknown tool or non-mapping arguments, and otherwise one invocation with the decoded
      arguments. */
  lemma ExecuteOutcomes(env: Env, call: ToolCall)
    ensures Execute(env, call).Err? <==> !Hashable(call.name)
    ensures Execute(env, call).Ok? ==> |Execute(env, call).value.invoked| <= 1
    ensures Execute(env, call).Ok? && Resolve(env, call.name).None? ==>
      Execute(env, call).value == Executed(ErrorResult("Tool " + Display(env.codec, call.name) + " not found"), [])
    ensures Execute(env, call).Ok? && |Execute(env, call).value.invoked| == 1 ==>
      var args := DecodedArguments(env.codec, call.arguments);
      Resolve(env, call.name).Some? && args.JObj?
      && Execute(env, call).value.invoked[0] == Invocation(call.name.s, args.fields)
    ensures Execute(env, call).Ok? && Resolve(env, call.name).Some? && DecodedArguments(env.codec, call.arguments).JObj? ==>
      |Execute(env, call).value.invoked| == 1
  {
  }

  /** The tool message that reports a result: its JSON text, and the call's id when it has one. */
  function ToolMessage(codec: Codec, result: Json, call: ToolCall): Message
  {
    Message(Tool, Some(codec.dumps(result)), [], call.id)
  }

  datatype CallsOutcome = CallsOutcome(messages: seq<Message>, invoked: seq<Invocation>, error: Option<string>)

  /** Executing calls in order, one tool message each, stopping at the first call that raises. */
  function ExecuteAll(env: Env, calls: seq<ToolCall>): CallsOutcome
    decreases |calls|
  {
    if |calls| == 0 then CallsOutcome([], [], None)
    else
      var prev := ExecuteAll(env, calls[..|calls| - 1]);
      var last := calls[|calls| - 1];
      if prev.error.Some? then prev
      else match Execute(env, last)
        case Err(e) => prev.(error := Some(e))
        case Ok(x) => CallsOutcome(prev.messages + [ToolMessage(env.codec, x.result, last)], prev.invoked + x.invoked, None)
  }

  /** One more call executed after an error-free prefix. */
  lemma ExecuteAllNext(env: Env, calls: seq<ToolCall>, i: nat)
    requires i < |calls| && ExecuteAll(env, calls[..i]).error.None?
    ensures Execute(env, calls[i]).Err? ==>
      ExecuteAll(env, calls[..i + 1]) == ExecuteAll(env, calls[..i]).(error := Some(Execute(env, calls[i]).error))
    ensures Execute(env, calls[i]).Ok? ==>
      var prev := ExecuteAll(env, calls[..i]); var x := Execute(env, calls[i]).value;
      ExecuteAll(env, calls[..i + 1]) ==
        CallsOutcome(prev.messages + [ToolMessage(env.codec, x.result, calls[i])], prev.invoked + x.invoked, None)
  {
    assert calls[..i + 1][..i] == calls[..i];
  }

  /** One tool message per executed call, in call order, answering that call by its id; when a
      call raises, the messages stop just before it. */
  lemma {:induction false} ExecuteAllAnswersEachCall(env: Env, calls: seq<ToolCall>)
    ensures var out := ExecuteAll(env, calls);
      |out.messages| <= |calls|
      && (forall k :: 0 <= k < |out.messages| ==>
            Execute(env, calls[k]).Ok?
            && out.messages[k] == ToolMessage(env.codec, Execute(env, calls[k]).value.result, calls[k]))
      && (out.error.None? ==> |out.messages| == |calls|)
      && (out.error.Some? ==> |out.messages| < |calls| && Execute(env, calls[|out.messages|]) == Err(out.error.value))
  {
    ExecuteAllMessages(env, calls);
    ExecuteAllStops(env, calls);
    var out := ExecuteAll(env, calls);
    assert forall k :: 0 <= k < |out.messages| ==> Answers(env, calls[k], out.messages[k]);
  }

  /** `m` is the tool message answering `call`, which did not raise. */
  predicate Answers(env: Env, call: ToolCall, m: Message)
  {
    Execute(env, call).Ok? && m == ToolMessage(env.codec, Execute(env, call).value.result, call)
  }

  /** Each message answers the call at its position. */
  lemma {:induction false} ExecuteAllMessages(env: Env, calls: seq<ToolCall>)
    ensures var out := ExecuteAll(env, calls);
      |out.messages| <= |calls| && forall k :: 0 <= k < |out.messages| ==> Answers(env, calls[k], out.messages[k])
    decreases |calls|
  {
    if |calls| > 0 {
      var init := calls[..|calls| - 1];
      ExecuteAllMessages(env, init);
      ExecuteAllStops(env, init);
      assert forall k :: 0 <= k < |init| ==> init[k] == calls[k];
      var prev := ExecuteAll(env, init);
      var out := ExecuteAll(env, calls);
      var last := calls[|calls| - 1];
      if prev.error.None? && Execute(env, last).Ok? {
        assert out.messages == prev.messages + [ToolMessage(env.codec, Execute(env, last).value.result, last)];
        assert Answers(env, last, out.messages[|prev.messages|]);
      } else {
        assert out.messages == prev.messages;
      }
    }
  }

  /** Without an exception every call is answered; with one, the messages stop at the call that
      raised it. */
  lemma {:induction false} ExecuteAllStops(env: Env, calls: seq<ToolCall>)
    ensures var out := ExecuteAll(env, calls);
      (out.error.None? ==> |out.messages| == |calls|)
      && (out.error.Some? ==> |out.messages| < |calls| && Execute(env, calls[|out.messages|]) == Err(out.error.value))
    decreases |calls|
  {
    if |calls| > 0 {
      var init := calls[..|calls| - 1];
      ExecuteAllStops(env, init);
      assert forall k :: 0 <= k < |init| ==> init[k] == calls[k];
    }
  }

  // ---------------------------------------------------------------------------
  // Steps and runs

  /** The calls a reply asks for: its structured calls, or those recovered from its text when it
      has none but has content. */
  function RequestedCalls(codec: Codec, reply: Message): seq<ToolCall>
  {
    if |reply.toolCalls| == 0 && HasContent(reply) then SalvageCalls(codec, reply.content.value)
    else reply.toolCalls
  }

  /** A reply with no structured calls and non-empty content ends `run_until_complete`. */
  predicate IsFinal(reply: Message)
  {
    |reply.toolCalls| == 0 && HasContent(reply)
  }

  /** What the executor's conversation state is made of: the history, and logs of the service
      requests made and of the tool implementations called. */
  datatype ExecState = ExecState(messages: seq<Message>, requests: seq<Request>, invocations: seq<Invocation>)

  /** `run_step`: ask the service (offering the tools, or None when there are none), append its
      reply, then execute the requested calls and append one tool message per call. */
  function Step(env: Env, service: Service, offered: seq<ToolDef>, st: ExecState): (ExecState, Result<Message>)
  {
    var tools := if |offered| > 0 then Some(offered) else None;
    var asked := st.(requests := st.requests + [Request(st.messages, tools)]);
    match service(st.messages, tools)
      case Err(e) => (asked, Err(e))
      case Ok(reply) =>
        var out := ExecuteAll(env, RequestedCalls(env.codec, reply));
        (asked.(messages := st.messages + [reply] + out.messages, invocations := st.invocations + out.invoked),
         if out.error.Some? then Err(out.error.value) else Ok(reply))
  }

  /** `run_until_complete(n)`: at most `n` steps; the content of the first final reply, or the
      iteration-limit message. */
  function Run(env: Env, service: Service, offered: seq<ToolDef>, st: ExecState, n: nat): (ExecState, Result<string>)
    decreases n
  {
    if n == 0 then (st, Ok(MaxIterationsMessage))
    else
      var (st1, r) := Step(env, service, offered, st);
      match r
        case Err(e) => (st1, Err(e))
        case Ok(reply) =>
          if IsFinal(reply) then (st1, Ok(reply.content.value))
          else Run(env, service, offered, st1, n - 1)
  }

  /** A run only appends: to the history, to the request log (at most one request per
      iteration) and to the invocation log. */
  lemma {:induction false} RunOnlyAppends(env: Env, service: Service, offered: seq<ToolDef>, st: ExecState, n: nat)
    ensures var (st1, _) := Run(env, service, offered, st, n);
      st.messages <= st1.messages
      && st.requests <= st1.requests && |st1.requests| <= |st.requests| + n
      && st.invocations <= st1.invocations
    decreases n
  {
    if n > 0 {
      var (s1, r) := Step(env, service, offered, st);
      StepOnlyAppends(env, service, offered, st);
      if r.Ok? && !IsFinal(r.value) {
        RunOnlyAppends(env, service, offered, s1, n - 1);
      }
    }
  }

  /** One step appends the reply and the tool messages, one request, and the invocations. */
  lemma StepOnlyAppends(env: Env, service: Service, offered: seq<ToolDef>, st: ExecState)
    ensures var (st1, _) := Step(env, service, offered, st);
      st.messages <= st1.messages && st.requests <= st1.requests
      && |st1.requests| == |st.requests| + 1 && st.invocations <= st1.invocations
  {
  }

  /** A successful run returns either the iteration-limit message or the content of a final reply
      that is now in the history. */
  lemma {:induction false} RunAnswerComesFromHistory(env: Env, service: Service, offered: seq<ToolDef>, st: ExecState, n: nat)
    requires Run(env, service, offered, st, n).1.Ok?
    ensures var (st1, r) := Run(env, service, offered, st, n);
      r.value == MaxIterationsMessage
      || exists k :: |st.messages| <= k < |st1.messages| && IsFinal(st1.messages[k]) && st1.messages[k].content == Some(r.value)
    decreases n
  {
    if n > 0 {
      var (s1, r) := Step(env, service, offered, st);
      if r.Ok? {
        if IsFinal(r.value) {
          assert s1.messages[|st.messages|] == r.value;
        } else {
          RunAnswerComesFromHistory(env, service, offered, s1, n - 1);
          RunOnlyAppends(env, service, offered, s1, n - 1);
        }
      }
    }
  }

  /** A reply whose calls were only recovered from its text still has those calls executed, and
      its content is returned as the final answer. */
  lemma SalvagedCallsRunThenFinish(env: Env, service: Service, offered: seq<ToolDef>, st: ExecState, n: nat)
    requires n > 0
    requires var tools := if |offered| > 0 then Some(offered) else None;
      service(st.messages, tools).Ok? && IsFinal(service(st.messages, tools).value)
    requires var tools := if |offered| > 0 then Some(offered) else None;
      ExecuteAll(env, SalvageCalls(env.codec, service(st.messages, tools).value.content.value)).error.None?
    ensures var tools := if |offered| > 0 then Some(offered) else None;
      var reply := service(st.messages, tools).value;
      var calls := SalvageCalls(env.codec, reply.content.value);
      var (st1, r) := Run(env, service, offered, st, n);
      r == Ok(reply.content.value)
      && st1.messages == st.messages + [reply] + ExecuteAll(env, calls).messages
      && |st1.messages| == |st.messages| + 1 + |calls|
  {
    var tools := if |offered| > 0 then Some(offered) else None;
    var reply := service(st.messages, tools).value;
    ExecuteAllAnswersEachCall(env, SalvageCalls(env.codec, reply.content.value));
  }

  // ---------------------------------------------------------------------------
  // The executor object

  /** How the offered tool definitions are computed: the executor's own rule, or one a pipeline
      installed in its place (the named registry tools, or own tools plus the whole registry). */
  datatype Scope =
    | OwnTools
    | NamedTools(reg: Reg.ToolRegistry, names: seq<string>)
    | OwnPlusRegistry(reg: Reg.ToolRegistry)

  function ScopeObjects(s: Scope): set<object>
  {
    match s
      case OwnTools => {}
      case NamedTools(r, _) => {r}
      case OwnPlusRegistry(r) => {r}
  }

  ghost predicate ScopeValid(s: Scope)
    reads ScopeObjects(s)
  {
    match s
      case OwnTools => true
      case NamedTools(r, _) => r.Valid()
      case OwnPlusRegistry(r) => r.Valid()
  }

  class AgentExecutor {
    const service: Service
    const codec: Codec
    const registry: Reg.ToolRegistry?
    var context: map<string, Json>
    var toolsRegistry: map<string, PyFunc>
    var toolsDefinitions: seq<ToolDef>
    var messages: seq<Message>
    var scope: Scope
    var requests: seq<Request>
    var invocations: seq<Invocation>

    ghost predicate Valid()
      reads this, registry, ScopeObjects(scope)
    {
      (registry != null ==> registry.Valid()) && ScopeValid(scope)
    }

    constructor (service: Service, codec: Codec, registry: Reg.ToolRegistry?, context: Option<map<string, Json>>)
      requires registry != null ==> registry.Valid()
      ensures Valid()
      ensures this.service == service && this.codec == codec && this.registry == registry
      ensures this.context == if context.Some? then context.value else map[]
      ensures toolsRegistry == map[] && toolsDefinitions == [] && messages == [] && scope == OwnTools
      ensures requests == [] && invocations == []
    {
      this.service := service;
      this.codec := codec;
      this.registry := registry;
      this.context := if context.Some? then context.value else map[];
      toolsRegistry := map[];
      toolsDefinitions := [];
      messages := [];
      scope := OwnTools;
      requests := [];
      invocations := [];
    }

    function State(): ExecState
      reads this
    {
      ExecState(messages, requests, invocations)
    }

    function ToolEnv(): Env
      reads this, registry
    {
      Env(codec, toolsRegistry, if registry != null then Some(registry.tools) else None)
    }

    /** `_get_tools_definitions` (or the rule a pipeline installed in its place). */
    function OfferedTools(): seq<ToolDef>
      reads this, registry, ScopeObjects(scope)
      requires Valid()
    {
      match scope
        case OwnTools => toolsDefinitions + (if registry != null then registry.GetDefinitions(None) else [])
        case NamedTools(r, names) => r.GetDefinitionsByNames(names)
        case OwnPlusRegistry(r) => toolsDefinitions + r.GetDefinitions(None)
    }

    /** `register_tool`: the name in the definition now resolves to `func` (replacing any earlier
        one) and the definition is appended to the offered list. */
    method RegisterTool(definition: ToolDef, func: PyFunc)
      modifies this
      ensures toolsRegistry == old(toolsRegistry)[definition.name := func]
      ensures toolsDefinitions == old(toolsDefinitions) + [definition]
      ensures messages == old(messages) && scope == old(scope) && context == old(context)
      ensures requests == old(requests) && invocations == old(invocations)
    {
      toolsRegistry := toolsRegistry[definition.name := func];
      toolsDefinitions := toolsDefinitions + [definition];
    }

    /** `set_system_prompt`: the conversation restarts with just this system message. */
    method SetSystemPrompt(text: string)
      modifies this
      ensures messages == [SystemMessage(text)]
      ensures toolsRegistry == old(toolsRegistry) && toolsDefinitions == old(toolsDefinitions)
      ensures scope == old(scope) && context == old(context)
      ensures requests == old(requests) && invocations == old(invocations)
    {
      messages := [SystemMessage(text)];
    }

    /** `add_user_message`. */
    method AddUserMessage(text: string)
      modifies this
      ensures messages == old(messages) + [UserMessage(text)]
      ensures toolsRegistry == old(toolsRegistry) && toolsDefinitions == old(toolsDefinitions)
      ensures scope == old(scope) && context == old(context)
      ensures requests == old(requests) && invocations == old(invocations)
    {
      messages := messages + [UserMessage(text)];
    }

    /** Installs the rule a pipeline puts in place of `_get_tools_definitions`. */
    method SetScope(s: Scope)
      requires registry != null ==> registry.Valid()
      requires ScopeValid(s)
      modifies this
      ensures Valid() && scope == s
      ensures messages == old(messages) && toolsRegistry == old(toolsRegistry) && toolsDefinitions == old(toolsDefinitions)
      ensures context == old(context) && requests == old(requests) && invocations == old(invocations)
    {
      scope := s;
    }

    /** The loop of `run_step` over the requested calls: one tool message per call, stopping
        with the exception of the first call that raises. */
    method ExecuteCalls(env: Env, calls: seq<ToolCall>) returns (err: Option<string>)
      modifies this
      ensures var out := ExecuteAll(env, calls);
        messages == old(messages) + out.messages && invocations == old(invocations) + out.invoked && err == out.error
      ensures requests == old(requests) && toolsRegistry == old(toolsRegistry) && toolsDefinitions == old(toolsDefinitions)
      ensures scope == old(scope) && context == old(context)
    {
      var i := 0;
      while i < |calls|
        invariant 0 <= i <= |calls|
        invariant ExecuteAll(env, calls[..i]).error.None?
        invariant messages == old(messages) + ExecuteAll(env, calls[..i]).messages
        invariant invocations == old(invocations) + ExecuteAll(env, calls[..i]).invoked
        invariant requests == old(requests) && toolsRegistry == old(toolsRegistry) && toolsDefinitions == old(toolsDefinitions)
        invariant scope == old(scope) && context == old(context)
      {
        var executed := Execute(env, calls[i]);
        ExecuteAllNext(env, calls, i);
        if executed.Err? {
          ExecuteAllPrefixStops(env, calls, i + 1);
          return Some(executed.error);
        }
        messages := messages + [ToolMessage(env.codec, executed.value.result, calls[i])];
        invocations := invocations + executed.value.invoked;
        i := i + 1;
      }
      assert calls[..i] == calls;
      err := None;
    }

    /** The request of `run_step`: the history and the offered tools (none when the list is
        empty) go to the service, and the request is logged. */
    method Ask(offered: seq<ToolDef>) returns (answer: Result<Message>)
      modifies this
      ensures var tools := if |offered| > 0 then Some(offered) else None;
        requests == old(requests) + [Request(old(messages), tools)] && answer == service(old(messages), tools)
      ensures messages == old(messages) && invocations == old(invocations)
      ensures toolsRegistry == old(toolsRegistry) && toolsDefinitions == old(toolsDefinitions)
      ensures scope == old(scope) && context == old(context)
    {
      var tools := if |offered| > 0 then Some(offered) else None;
      requests := requests + [Request(messages, tools)];
      answer := service(messages, tools);
    }

    /** `run_step`. */
    method RunStep() returns (r: Result<Message>)
      requires Valid()
      modifies this
      ensures Valid()
      ensures (State(), r) == Step(old(ToolEnv()), service, old(OfferedTools()), old(State()))
      ensures toolsRegistry == old(toolsRegistry) && toolsDefinitions == old(toolsDefinitions)
      ensures scope == old(scope) && context == old(context)
    {
      var env := ToolEnv();
      var answer := Ask(OfferedTools());
      if answer.Err? {
        return Err(answer.error);
      }
      var reply := answer.value;
      messages := messages + [reply];
      var err := ExecuteCalls(env, RequestedCalls(codec, reply));
      r := if err.Some? then Err(err.value) else Ok(reply);
    }

    /** `run_until_complete(maxIterations)`. */
    method RunUntilComplete(maxIterations: nat) returns (r: Result<string>)
      requires Valid()
      modifies this
      ensures Valid()
      ensures (State(), r) == Run(old(ToolEnv()), service, old(OfferedTools()), old(State()), maxIterations)
      ensures maxIterations == 0 ==> requests == old(requests) && r == Ok(MaxIterationsMessage)
      ensures toolsRegistry == old(toolsRegistry) && toolsDefinitions == old(toolsDefinitions)
      ensures scope == old(scope) && context == old(context)
    {
      ghost var env := ToolEnv();
      ghost var offered := OfferedTools();
      ghost var goal := Run(env, service, offered, State(), maxIterations);
      var i := 0;
      while i < maxIterations
        invariant 0 <= i <= maxIterations
        invariant Valid()
        invariant ToolEnv() == env && OfferedTools() == offered
        invariant Run(env, service, offered, State(), maxIterations - i) == goal
        invariant toolsRegistry == old(toolsRegistry) && toolsDefinitions == old(toolsDefinitions)
        invariant scope == old(scope) && context == old(context)
      {
        ghost var before := State();
        var reply := RunStep();
        RunUnfold(env, service, offered, before, maxIterations - i, State(), reply);
        if reply.Err? {
          return Err(reply.error);
        }
        if IsFinal(reply.value) {
          return Ok(reply.value.content.value);
        }
        i := i + 1;
      }
      r := Ok(MaxIterationsMessage);
    }
  }

  /** One iteration of `run_until_complete`, in terms of the step it takes. */
  lemma RunUnfold(env: Env, service: Service, offered: seq<ToolDef>, st: ExecState, n: nat, st1: ExecState, reply: Result<Message>)
    requires n > 0 && Step(env, service, offered, st) == (st1, reply)
    ensures reply.Err? ==> Run(env, service, offered, st, n) == (st1, Err(reply.error))
    ensures reply.Ok? && IsFinal(reply.value) ==> Run(env, service, offered, st, n) == (st1, Ok(reply.value.content.value))
    ensures reply.Ok? && !IsFinal(reply.value) ==> Run(env, service, offered, st, n) == Run(env, service, offered, st1, n - 1)
  {
  }

  /** Once a prefix of the calls raises, executing more of them changes nothing. */
  lemma {:induction false} ExecuteAllPrefixStops(env: Env, calls: seq<ToolCall>, i: nat)
    requires i <= |calls| && ExecuteAll(env, calls[..i]).error.Some?
    ensures ExecuteAll(env, calls) == ExecuteAll(env, calls[..i])
    decreases |calls| - i
  {
    if i < |calls| {
      assert calls[..i + 1][..i] == calls[..i];
      ExecuteAllPrefixStops(env, calls, i + 1);
    } else {
      assert calls[..i] == calls;
    }
  }
}
