/** The Gemini client: it turns a chat history into Gemini's "user"/"model" contents with the
    system text folded into the first turn, retries a rate-limited call, strips code fences from
    JSON replies and describes the offered tools inside the last user message. The Gemini service
    itself is a parameter. */
module GeminiClient {
  import opened Wrappers
  import opened JsonValues
  import opened Text
  import opened SeqUtil
  import opened Conversation

  const MissingKey := "GEMINI_API_KEY is required for GeminiClient"
  const DefaultModel := "gemini-2.0-flash-lite"
  const MaxRetries := 3
  const RateLimited := "429"
  const JsonMime := "application/json"
  const TextMime := "text/plain"
  const InvalidJson := "Invalid JSON response"
  const NoneAddStr := "unsupported operand type(s) for +=: 'NoneType' and 'str'"

  /** One entry of Gemini's contents: its role and its single part. A message without content
      keeps Python's `None` as its part. */
  datatype Entry = Entry(role: string, part: Option<string>)

  /** One call of `generate_content_async`: model name, contents, response MIME type and attempt
      number give the response text or the exception's message. */
  type Generator = (string, seq<Entry>, string, nat) -> Result<string>

  /** A configured client: the model name and the service it calls. */
  datatype Client = Client(model: string, generate: Generator)

  /** `__init__`: an empty key raises `ValueError`. */
  function Connect(apiKey: string, model: string, generate: Generator): (r: Result<Client>)
    ensures r.Err? <==> apiKey == ""
    ensures r.Err? ==> r.error == MissingKey
    ensures r.Ok? ==> r.value.model == model && r.value.generate == generate
  {
    if apiKey == "" then Err(MissingKey) else Ok(Client(model, generate))
  }

  // ---------------------------------------------------------------------------
  // Messages to contents

  /** The text an f-string gives a content: `None` prints as "None". */
  function Shown(content: Option<string>): string
  {
    if content.Some? then content.value else "None"
  }

  /** The system text gathered from `messages`: each system content followed by a newline. */
  function SystemText(messages: seq<Message>): string
  {
    if |messages| == 0 then ""
    else
      var last := messages[|messages| - 1];
      SystemText(messages[..|messages| - 1]) + (if last.role == System then Shown(last.content) + "\n" else "")
  }

  /** Messages that become history entries. */
  predicate IsTurn(m: Message)
  {
    m.role == User || m.role == Assistant
  }

  /** The entry of a user or assistant message: assistants speak as "model". */
  function EntryOf(m: Message): Entry
  {
    Entry(if m.role == User then "user" else "model", m.content)
  }

  /** The history entries of the user and assistant messages, in order; other roles are dropped. */
  function Turns(messages: seq<Message>): seq<Entry>
  {
    if |messages| == 0 then []
    else
      var last := messages[|messages| - 1];
      Turns(messages[..|messages| - 1]) + (if IsTurn(last) then [EntryOf(last)] else [])
  }

  /** The first user request with the system text in front of it. */
  function Framed(system: string, part: Option<string>): string
  {
    "System Instruction:\n" + system + "\n\nUser Request:\n" + Shown(part)
  }

  /** The contents sent for `messages`: the turns, with the system text framed into the first
      one, or the system text as the only user entry when there are no turns. */
  function History(messages: seq<Message>): seq<Entry>
  {
    var system := SystemText(messages);
    var turns := Turns(messages);
    if system != "" && |turns| > 0 then [turns[0].(part := Some(Framed(system, turns[0].part)))] + turns[1..]
    else if system != "" then [Entry("user", Some(system))]
    else turns
  }

  /** There is system text exactly when some message is a system message. */
  lemma {:induction false} SystemTextPresent(messages: seq<Message>)
    ensures SystemText(messages) != "" <==> exists k :: 0 <= k < |messages| && messages[k].role == System
  {
    if |messages| > 0 {
      var init := messages[..|messages| - 1];
      SystemTextPresent(init);
      if exists k :: 0 <= k < |init| && init[k].role == System {
        var k :| 0 <= k < |init| && init[k].role == System;
        assert messages[k].role == System;
      }
      if exists k :: 0 <= k < |messages| && messages[k].role == System {
        var k :| 0 <= k < |messages| && messages[k].role == System;
        if k < |init| {
          assert init[k].role == System;
        }
      }
    }
  }

  /** The turns are the user and assistant messages, in order, each mapped to its entry. */
  lemma {:induction false} TurnsAreFilteredMessages(messages: seq<Message>)
    ensures Turns(messages) == Map(Filter(messages, IsTurn), EntryOf)
  {
    if |messages| > 0 {
      TurnsAreFilteredMessages(messages[..|messages| - 1]);
    }
  }

  /** Every entry is "user" or "model"; there is one entry per turn, or a single one made of the
      system text. */
  lemma TurnRoles(messages: seq<Message>)
    ensures forall e :: e in History(messages) ==> e.role == "user" || e.role == "model"
    ensures |History(messages)| == |Filter(messages, IsTurn)| ||
            (|Filter(messages, IsTurn)| == 0 && |History(messages)| == 1)
  {
    TurnsAreFilteredMessages(messages);
    var turns := Turns(messages);
    assert forall k :: 0 <= k < |turns| ==> turns[k].role == "user" || turns[k].role == "model";
  }

  /** The conversion loop of `generate_response`. */
  method ToHistory(messages: seq<Message>) returns (history: seq<Entry>)
    ensures history == History(messages)
  {
    var system := "";
    history := [];
    for i := 0 to |messages|
      invariant system == SystemText(messages[..i])
      invariant history == Turns(messages[..i])
    {
      assert messages[..i + 1][..i] == messages[..i];
      var m := messages[i];
      if m.role == System {
        system := system + Shown(m.content) + "\n";
      } else if m.role == User {
        history := history + [Entry("user", m.content)];
      } else if m.role == Assistant {
        history := history + [Entry("model", m.content)];
      }
    }
    assert messages[..|messages|] == messages;
    if system != "" && |history| > 0 {
      history := history[0 := history[0].(part := Some(Framed(system, history[0].part)))];
      assert history == [history[0]] + history[1..];
    } else if system != "" {
      history := history + [Entry("user", Some(system))];
    }
  }

  // ---------------------------------------------------------------------------
  // The retry loop

  /** The response MIME type `generate_response` asks for. */
  function Mime(jsonMode: bool): string
  {
    if jsonMode then JsonMime else TextMime
  }

  /** An exception that is retried when attempts remain. */
  predicate IsRateLimit(error: string)
  {
    Contains(error, RateLimited)
  }

  /** The attempts from `attempt` on: the outcome of the last one made and the waits slept
      before each retry. */
  function Retry(client: Client, history: seq<Entry>, mime: string, attempt: nat): (Result<string>, seq<nat>)
    requires attempt < MaxRetries
    decreases MaxRetries - attempt
  {
    var r := client.generate(client.model, history, mime, attempt);
    if r.Err? && IsRateLimit(r.error) && attempt < MaxRetries - 1 then
      var (res, waits) := Retry(client, history, mime, attempt + 1);
      (res, [(attempt + 1) * 5] + waits)
    else (r, [])
  }

  /** Attempt `n` failed with a rate limit. */
  predicate RateLimitedAt(client: Client, history: seq<Entry>, mime: string, n: nat)
  {
    var e := client.generate(client.model, history, mime, n);
    e.Err? && IsRateLimit(e.error)
  }

  /** The retry schedule: at most two waits, of 5 and 10 seconds; every attempt before the last
      one failed with a rate limit; the outcome is the last attempt's, and an error after fewer
      than three attempts is not a rate limit. */
  lemma {:induction false} RetrySchedule(client: Client, history: seq<Entry>, mime: string, attempt: nat)
    requires attempt < MaxRetries
    ensures var (r, waits) := Retry(client, history, mime, attempt);
      attempt + |waits| < MaxRetries &&
      (forall k :: 0 <= k < |waits| ==> waits[k] == (attempt + k + 1) * 5) &&
      (forall n :: attempt <= n < attempt + |waits| ==> RateLimitedAt(client, history, mime, n)) &&
      r == client.generate(client.model, history, mime, attempt + |waits|) &&
      (r.Err? && attempt + |waits| < MaxRetries - 1 ==> !IsRateLimit(r.error))
    decreases MaxRetries - attempt
  {
    var r := client.generate(client.model, history, mime, attempt);
    if r.Err? && IsRateLimit(r.error) && attempt < MaxRetries - 1 {
      RetrySchedule(client, history, mime, attempt + 1);
    }
  }

  /** The first attempt that succeeds ends the loop without waiting. */
  lemma FirstSuccessNoWait(client: Client, history: seq<Entry>, mime: string)
    requires client.generate(client.model, history, mime, 0).Ok?
    ensures Retry(client, history, mime, 0) == (client.generate(client.model, history, mime, 0), [])
  {
  }

  /** `generate_response`: the contents for `messages`, then up to three attempts; `waits` are
      the seconds slept before each retry. */
  method GenerateResponse(client: Client, messages: seq<Message>, jsonMode: bool)
    returns (r: Result<string>, waits: seq<nat>)
    ensures (r, waits) == Retry(client, History(messages), Mime(jsonMode), 0)
  {
    var history := ToHistory(messages);
    var mime := Mime(jsonMode);
    waits := [];
    var attempt := 0;
    assert waits + Retry(client, history, mime, 0).1 == Retry(client, history, mime, 0).1;
    while true
      invariant attempt < MaxRetries
      invariant Retry(client, history, mime, 0) ==
        (Retry(client, history, mime, attempt).0, waits + Retry(client, history, mime, attempt).1)
      decreases MaxRetries - attempt
    {
      var response := client.generate(client.model, history, mime, attempt);
      ghost var rest := Retry(client, history, mime, attempt);
      if response.Ok? {
        assert rest == (response, []);
        assert waits + rest.1 == waits;
        return Ok(response.value), waits;
      }
      if IsRateLimit(response.error) && attempt < MaxRetries - 1 {
        ghost var next := Retry(client, history, mime, attempt + 1);
        assert rest == (next.0, [(attempt + 1) * 5] + next.1);
        assert waits + rest.1 == (waits + [(attempt + 1) * 5]) + next.1;
        waits := waits + [(attempt + 1) * 5];
        attempt := attempt + 1;
      } else {
        assert rest == (response, []);
        assert waits + rest.1 == waits;
        return Err(response.error), waits;
      }
    }
  }

  // ---------------------------------------------------------------------------
  // JSON replies

  /** The reply with every "```json" and then every "```" removed, stripped. */
  function Cleaned(text: string): string
  {
    Strip(ReplaceAll(ReplaceAll(text, "```json", ""), "```", ""))
  }

  /** The decoded reply, or the error object carrying the cleaned text. */
  function JsonReply(codec: Codec, text: string): (r: Json)
    ensures codec.loads(Cleaned(text)).Some? ==> r == codec.loads(Cleaned(text)).value
    ensures codec.loads(Cleaned(text)).None? ==>
      r == JObj(map["error" := JStr(InvalidJson), "raw" := JStr(Cleaned(text))])
  {
    match codec.loads(Cleaned(text))
      case Some(j) => j
      case None => JObj(map["error" := JStr(InvalidJson), "raw" := JStr(Cleaned(text))])
  }

  /** After removing every "```", no "```" is left: the scan removes the leftmost fence, and the
      text before it cannot end in a backtick. */
  lemma {:induction false} FencesGone(s: string)
    ensures !Contains(ReplaceAll(s, "```", ""), "```")
    decreases |s|
  {
    var pat := "```";
    var r := ReplaceAll(s, pat, "");
    if |s| < |pat| {
      NoRoomNoContains(s, pat);
    } else if s[..|pat|] == pat {
      FencesGone(s[|pat|..]);
      assert r == "" + ReplaceAll(s[|pat|..], pat, "");
      assert r == ReplaceAll(s[|pat|..], pat, "");
    } else {
      var t := s[1..];
      var rt := ReplaceAll(t, pat, "");
      FencesGone(t);
      assert r == [s[0]] + rt;
      assert r[1..] == rt;
    }
  }

  /** A slice of a text without `sub` has no `sub` either. */
  lemma SliceKeepsFree(s: string, a: nat, b: nat, sub: string)
    requires a <= b <= |s| && !Contains(s, sub)
    ensures !Contains(s[a..b], sub)
  {
    if Contains(s[a..b], sub) {
      var i := ContainsWitness(s[a..b], sub);
      var t := s[a..b];
      forall j | 0 <= j < |sub|
        ensures s[a + i + j] == sub[j]
      {
        assert t[i..i + |sub|][j] == sub[j];
      }
      assert s[a + i..a + i + |sub|] == sub;
      ContainsAt(s, sub, a + i);
    }
  }

  /** The cleaned reply holds no code fence and no surrounding whitespace, and a reply without
      fences is only stripped. */
  lemma CleanedSpec(text: string)
    ensures !Contains(Cleaned(text), "```")
    ensures Cleaned(text) == "" || (!IsSpace(Cleaned(text)[0]) && !IsSpace(Cleaned(text)[|Cleaned(text)| - 1]))
    ensures !Contains(text, "```") ==> Cleaned(text) == Strip(text)
  {
    var s := ReplaceAll(ReplaceAll(text, "```json", ""), "```", "");
    FencesGone(ReplaceAll(text, "```json", ""));
    var a := LeadingSpace(s);
    var t := s[a..];
    SliceKeepsFree(s, a, |s|, "```");
    assert s[a..|s|] == t;
    SliceKeepsFree(t, 0, |t| - TrailingSpace(t), "```");
    if !Contains(text, "```") {
      if Contains(text, "```json") {
        ContainsTrans(text, "```json", "```");
      }
    }
  }

  /** `generate_json`: a JSON-mode response, cleaned and decoded. */
  method GenerateJson(client: Client, codec: Codec, messages: seq<Message>)
    returns (r: Result<Json>, waits: seq<nat>)
    ensures var (text, w) := Retry(client, History(messages), JsonMime, 0);
      waits == w && (text.Err? ==> r == Err(text.error)) && (text.Ok? ==> r == Ok(JsonReply(codec, text.value)))
  {
    var text;
    text, waits := GenerateResponse(client, messages, true);
    if text.Err? {
      return Err(text.error), waits;
    }
    r := Ok(JsonReply(codec, text.value));
  }

  // ---------------------------------------------------------------------------
  // Tool instructions

  /** One line of the tool list: "- name: description". */
  function ToolLine(t: ToolDef): string
  {
    "- " + t.name + ": " + t.description
  }

  /** The text appended to the last user message when tools are offered. */
  function ToolInstruction(tools: seq<ToolDef>): string
  {
    "\n\nAVAILABLE TOOLS:\n" + Join(Map(tools, ToolLine), "\n") + "\n\n" + ToolFormat
  }

  /** How the model is told to call a tool. */
  const ToolFormat :=
    "To use a tool, you MUST respond with a valid JSON object in this format:\n"
    + "```json\n{\"function\": \"tool_name\", \"arguments\": {\"arg\": \"value\"}}\n```\n"
    + "Do not add any other text outside the JSON block if you are calling a tool."

  /** Index of the last user message. */
  function LastUser(messages: seq<Message>): (r: Option<nat>)
    ensures r.Some? ==> r.value < |messages| && messages[r.value].role == User
    ensures r.Some? ==> forall k :: r.value < k < |messages| ==> messages[k].role != User
    ensures r.None? ==> forall k :: 0 <= k < |messages| ==> messages[k].role != User
  {
    if |messages| == 0 then None
    else if messages[|messages| - 1].role == User then Some(|messages| - 1)
    else LastUser(messages[..|messages| - 1])
  }

  /** The copy of `messages` that is sent: with tools, the last user message gets the tool
      instruction; a user message without content cannot be extended and raises `TypeError`. */
  function Prepared(messages: seq<Message>, tools: Option<seq<ToolDef>>): Result<seq<Message>>
  {
    if tools.None? || |tools.value| == 0 then Ok(messages)
    else match LastUser(messages)
      case None => Ok(messages)
      case Some(i) =>
        if messages[i].content.None? then Err(NoneAddStr)
        else Ok(messages[i := messages[i].(content := Some(messages[i].content.value + ToolInstruction(tools.value)))])
  }

  /** Only the last user message changes, and only when tools are offered: it gains the tool
      instruction, or raises when it has no content. */
  lemma PreparedSpec(messages: seq<Message>, tools: Option<seq<ToolDef>>)
    ensures tools.None? || |tools.value| == 0 || LastUser(messages).None? ==> Prepared(messages, tools) == Ok(messages)
    ensures Prepared(messages, tools).Err? <==> tools.Some? && |tools.value| > 0 && LastUser(messages).Some? &&
                                                messages[LastUser(messages).value].content.None?
    ensures Prepared(messages, tools).Ok? ==>
      var sent := Prepared(messages, tools).value;
      |sent| == |messages| &&
      forall k :: 0 <= k < |messages| && Some(k) != LastUser(messages) ==> sent[k] == messages[k]
    ensures Prepared(messages, tools).Ok? && tools.Some? && |tools.value| > 0 && LastUser(messages).Some? ==>
      var i := LastUser(messages).value;
      Prepared(messages, tools).value[i] ==
        messages[i].(content := Some(messages[i].content.value + ToolInstruction(tools.value)))
  {
  }

  /** The backward search of `process_messages` for the last user message. */
  method InjectTools(messages: seq<Message>, tools: seq<ToolDef>) returns (r: Result<seq<Message>>)
    requires |tools| > 0
    ensures r == Prepared(messages, Some(tools))
  {
    var instruction := ToolInstruction(tools);
    for i := |messages| downto 0
      invariant forall k :: i <= k < |messages| ==> messages[k].role != User
    {
      if messages[i].role == User {
        LastUserIs(messages, i);
        if messages[i].content.None? {
          return Err(NoneAddStr);
        }
        return Ok(messages[i := messages[i].(content := Some(messages[i].content.value + instruction))]);
      }
    }
    NoLastUser(messages);
    r := Ok(messages);
  }

  lemma {:induction false} LastUserIs(messages: seq<Message>, i: nat)
    requires i < |messages| && messages[i].role == User
    requires forall k :: i < k < |messages| ==> messages[k].role != User
    ensures LastUser(messages) == Some(i)
    decreases |messages|
  {
    if i < |messages| - 1 {
      LastUserIs(messages[..|messages| - 1], i);
    }
  }

  lemma {:induction false} NoLastUser(messages: seq<Message>)
    requires forall k :: 0 <= k < |messages| ==> messages[k].role != User
    ensures LastUser(messages).None?
    decreases |messages|
  {
    if |messages| > 0 {
      NoLastUser(messages[..|messages| - 1]);
    }
  }

  /** The reply `process_messages` makes of a response. */
  function Reply(response: Result<string>): (r: Result<Message>)
    ensures r.Ok? <==> response.Ok?
    ensures r.Ok? ==> r.value == Message(Assistant, Some(response.value), [], None)
  {
    match response
      case Ok(text) => Ok(Message(Assistant, Some(text), [], None))
      case Err(e) => Err(e)
  }

  /** `process_messages`: the prepared copy, a plain-text response, and an assistant message with
      that text and no tool calls. */
  method ProcessMessages(client: Client, messages: seq<Message>, tools: Option<seq<ToolDef>>)
    returns (r: Result<Message>, waits: seq<nat>)
    ensures Prepared(messages, tools).Err? ==> r == Err(NoneAddStr) && waits == []
    ensures Prepared(messages, tools).Ok? ==>
      var (text, w) := Retry(client, History(Prepared(messages, tools).value), TextMime, 0);
      r == Reply(text) && waits == w
    ensures r.Ok? ==> r.value.role == Assistant && r.value.content.Some? && r.value.toolCalls == []
  {
    var sent := messages;
    if tools.Some? && |tools.value| > 0 {
      var prepared := InjectTools(messages, tools.value);
      if prepared.Err? {
        return Err(prepared.error), [];
      }
      sent := prepared.value;
    }
    var text;
    text, waits := GenerateResponse(client, sent, false);
    r := Reply(text);
  }
}
