/** The chat messages, tool calls, tool definitions and tool implementations that
    flow between the agents, the language-model clients and the tools. */
module Conversation {
  import opened Wrappers
  import opened JsonValues

  datatype Role = System | User | Assistant | Tool

  /** One requested tool call: `id` is present only when the call dict has an "id" key;
      `name` and `arguments` are whatever the model sent (arguments may be JSON text). */
  datatype ToolCall = ToolCall(id: Option<string>, name: Json, arguments: Json)

  /** A message dict; `content` is None when the key is absent, `toolCalls` is empty when absent. */
  datatype Message = Message(role: Role, content: Option<string>, toolCalls: seq<ToolCall>, toolCallId: Option<string>)

  /** A tool definition in the OpenAI function-calling shape: function name, description, parameter schema. */
  datatype ToolDef = ToolDef(name: string, description: string, parameters: Json)

  /** What calling a tool implementation does: it returns a value or raises with a message. */
  datatype ToolOutcome = Returned(value: Json) | Raised(message: string)

  /** A parameter of a Python function's signature; `schema` is the JSON schema pydantic gives its type. */
  datatype Param = Param(name: string, hasDefault: bool, schema: Json)

  /** A Python callable used as a tool: its `__name__`, `__doc__`, signature and behaviour on keyword arguments. */
  datatype PyFunc = PyFunc(name: string, doc: Option<string>, params: seq<Param>, run: map<string, Json> -> ToolOutcome)

  /** A call that reached a tool implementation: the tool name it was resolved by and the keyword arguments. */
  datatype Invocation = Invocation(tool: string, kwargs: map<string, Json>)

  /** One request to the language-model service: the history sent and the tools offered. */
  datatype Request = Request(messages: seq<Message>, tools: Option<seq<ToolDef>>)

  /** A language-model client: a reply for a history and tool list, or the exception it raised. */
  type Service = (seq<Message>, Option<seq<ToolDef>>) -> Result<Message>

  function SystemMessage(text: string): Message
  {
    Message(System, Some(text), [], None)
  }

  function UserMessage(text: string): Message
  {
    Message(User, Some(text), [], None)
  }

  /** JavaScript/Python truthiness of a reply's content. */
  predicate HasContent(m: Message)
  {
    m.content.Some? && m.content.value != ""
  }

  /** The keyword arguments of the last invocation of `tool` in `log`: what a closure that stores
      its kwargs on every call holds afterwards. */
  function LastKwargs(log: seq<Invocation>, tool: string): (r: Option<map<string, Json>>)
    ensures r.None? <==> forall k :: 0 <= k < |log| ==> log[k].tool != tool
    ensures r.Some? ==> exists k :: 0 <= k < |log| && log[k] == Invocation(tool, r.value)
  {
    if |log| == 0 then None
    else if log[|log| - 1].tool == tool then Some(log[|log| - 1].kwargs)
    else
      var r := LastKwargs(log[..|log| - 1], tool);
      assert forall k :: 0 <= k < |log| - 1 ==> log[..|log| - 1][k] == log[k];
      r
  }

  /** The error text of Python's `f(**x)` when `x` is not a mapping. */
  function NotMappingError(funcName: string, args: Json): string
  {
    funcName + "() argument after ** must be a mapping, not " + TypeName(args)
  }

  /** The error text of Python's `d.get(x)` when `x` is a list or dict. */
  function UnhashableError(name: Json): string
  {
    "unhashable type: '" + TypeName(name) + "'"
  }

  /** The error dict a failed tool call is reported as. */
  function ErrorResult(message: string): Json
  {
    JObj(map["error" := JStr(message)])
  }
}
