/** The miner: asks the model for the facts of one file through an executor it keeps for its whole
    life, captures them through a "submit_conclusions" tool that normalises what the model sends,
    and falls back to a JSON object written in the final answer. */
module MinerAgent {
  import opened Wrappers
  import opened JsonValues
  import opened Conversation
  import opened Text
  import opened Facts
  import AE = AgentExecution

  const SubmitName := "submit_conclusions"
  const SubmittedText := "Conclusions successfully submitted."
  /** `run_until_complete`'s default bound. */
  const MaxIterations := 5

  function SubmitDef(schema: Json): ToolDef
  {
    ToolDef(SubmitName, "Submit the extracted conclusions from the file analysis.", schema)
  }

  function UserText(path: string, content: string): string
  {
    "File Context:\nPath: " + path + "\nContent:\n```\n" + content + "\n```"
  }

  // ---------------------------------------------------------------------------
  // The submit tool

  /** The conclusions the tool stores: those given, or, when they are missing or empty and a
      flattened `topic` is present, that one conclusion wrapped in a list. */
  function NormalizedConclusions(kw: map<string, Json>): (c: Json)
    ensures "conclusions" in kw && Truthy(kw["conclusions"]) ==> c == kw["conclusions"]
    ensures "topic" !in kw ==> c == GetOr(kw, "conclusions", JArr([]))
    ensures !Truthy(GetOr(kw, "conclusions", JArr([]))) && "topic" in kw ==>
      c == JArr([JObj(map["topic" := kw["topic"], "impact" := GetOr(kw, "impact", JNull), "statement" := GetOr(kw, "statement", JNull)])])
  {
    var given := GetOr(kw, "conclusions", JArr([]));
    if !Truthy(given) && "topic" in kw then
      JArr([JObj(map["topic" := GetOr(kw, "topic", JNull), "impact" := GetOr(kw, "impact", JNull),
                     "statement" := GetOr(kw, "statement", JNull)])])
    else given
  }

  /** What the tool stores: the file, defaulting to the analysed path, and the conclusions. */
  function Normalized(kw: map<string, Json>, path: string): (d: map<string, Json>)
    ensures d.Keys == {"file", "conclusions"}
    ensures d["file"] == (if "file" in kw then kw["file"] else JStr(path))
    ensures d["conclusions"] == NormalizedConclusions(kw)
  {
    map["file" := GetOr(kw, "file", JStr(path)), "conclusions" := NormalizedConclusions(kw)]
  }

  /** The tool stores its data only after logging the number of conclusions, so conclusions
      without a length make it raise before storing anything. */
  predicate Stores(kw: map<string, Json>)
  {
    Len(NormalizedConclusions(kw)).Some?
  }

  /** The closure `submit_conclusions` registered for `path`. */
  function Submitter(path: string): (f: PyFunc)
    ensures f.name == SubmitName
    ensures forall kw :: Stores(kw) ==> f.run(kw) == Returned(JStr(SubmittedText))
    ensures forall kw :: !Stores(kw) ==> f.run(kw).Raised?
  {
    PyFunc(SubmitName, None, [], kw =>
      if Stores(kw) then Returned(JStr(SubmittedText))
      else Raised("object of type '" + TypeName(NormalizedConclusions(kw)) + "' has no len()"))
  }

  /** What the closure holds after the calls logged in `log`: the normalised arguments of the last
      call that stored, if any. */
  function Stored(log: seq<Invocation>, path: string): (r: Option<map<string, Json>>)
    ensures r.None? <==> forall k :: 0 <= k < |log| ==> !(log[k].tool == SubmitName && Stores(log[k].kwargs))
    ensures r.Some? ==> exists k :: (0 <= k < |log| && log[k].tool == SubmitName && Stores(log[k].kwargs)
                                     && r.value == Normalized(log[k].kwargs, path))
  {
    if |log| == 0 then None
    else
      var last := log[|log| - 1];
      if last.tool == SubmitName && Stores(last.kwargs) then Some(Normalized(last.kwargs, path))
      else
        var r := Stored(log[..|log| - 1], path);
        assert forall k :: 0 <= k < |log| - 1 ==> log[..|log| - 1][k] == log[k];
        r
  }

  /** A later storing call overrides everything before it. */
  lemma LastSubmissionStored(log: seq<Invocation>, kw: map<string, Json>, path: string)
    requires Stores(kw)
    ensures Stored(log + [Invocation(SubmitName, kw)], path) == Some(Normalized(kw, path))
  {
  }

  // ---------------------------------------------------------------------------
  // `MinerOutput` validation

  function ImpactName(i: Impact): string
  {
    match i
      case High => "HIGH"
      case Medium => "MEDIUM"
      case Low => "LOW"
  }

  /** The literal `impact`: exactly one of the three names. */
  function ParseImpact(j: Json): (r: Option<Impact>)
    ensures r.Some? <==> j == JStr("HIGH") || j == JStr("MEDIUM") || j == JStr("LOW")
    ensures r.Some? ==> j == JStr(ImpactName(r.value))
  {
    if j == JStr("HIGH") then Some(High)
    else if j == JStr("MEDIUM") then Some(Medium)
    else if j == JStr("LOW") then Some(Low)
    else None
  }

  /** A required string field. */
  function StrField(f: map<string, Json>, key: string): (r: Option<string>)
    ensures r.Some? <==> key in f && f[key].JStr?
    ensures r.Some? ==> f[key] == JStr(r.value)
  {
    if key in f && f[key].JStr? then Some(f[key].s) else None
  }

  function ParseConclusion(j: Json): (r: Option<Conclusion>)
    ensures r.Some? ==> j.JObj? && StrField(j.fields, "topic") == Some(r.value.topic)
    ensures r.Some? ==> "impact" in j.fields && ParseImpact(j.fields["impact"]) == Some(r.value.impact)
    ensures r.Some? ==> StrField(j.fields, "statement") == Some(r.value.statement)
  {
    if !j.JObj? || "impact" !in j.fields then None
    else match (StrField(j.fields, "topic"), ParseImpact(j.fields["impact"]), StrField(j.fields, "statement"))
      case (Some(t), Some(i), Some(s)) => Some(Conclusion(t, i, s))
      case _ => None
  }

  function ParseConclusions(items: seq<Json>): (r: Option<seq<Conclusion>>)
    ensures r.Some? <==> forall k :: 0 <= k < |items| ==> ParseConclusion(items[k]).Some?
    ensures r.Some? ==> |r.value| == |items| && forall k :: 0 <= k < |items| ==> ParseConclusion(items[k]) == Some(r.value[k])
  {
    if |items| == 0 then Some([])
    else
      var init := ParseConclusions(items[..|items| - 1]);
      var last := ParseConclusion(items[|items| - 1]);
      if init.None? then None
      else if last.None? then None
      else Some(init.value + [last.value])
  }

  /** `MinerOutput(**data)`: a string file and a list of valid conclusions; other keys are ignored. */
  function ParseMinerOutput(data: map<string, Json>): (r: Option<FileFacts>)
    ensures r.Some? ==> StrField(data, "file") == Some(r.value.file)
    ensures r.Some? ==> "conclusions" in data && data["conclusions"].JArr?
    ensures r.Some? ==> ParseConclusions(data["conclusions"].items) == Some(r.value.conclusions)
  {
    match (StrField(data, "file"), if "conclusions" in data && data["conclusions"].JArr? then ParseConclusions(data["conclusions"].items) else None)
      case (Some(file), Some(cs)) => Some(FileFacts(file, cs))
      case _ => None
  }

  function ConclusionJson(c: Conclusion): Json
  {
    JObj(map["topic" := JStr(c.topic), "impact" := JStr(ImpactName(c.impact)), "statement" := JStr(c.statement)])
  }

  function ConclusionsJson(cs: seq<Conclusion>): (r: Json)
    ensures r.JArr? && |r.items| == |cs| && forall k :: 0 <= k < |cs| ==> r.items[k] == ConclusionJson(cs[k])
  {
    JArr(seq(|cs|, k requires 0 <= k < |cs| => ConclusionJson(cs[k])))
  }

  /** The keyword arguments of a well-formed submission. */
  function OutputKwargs(f: FileFacts): map<string, Json>
  {
    map["file" := JStr(f.file), "conclusions" := ConclusionsJson(f.conclusions)]
  }

  /** Validation gives back every conclusion of a well-formed submission, in order. */
  lemma MinerOutputRoundTrip(f: FileFacts)
    ensures ParseMinerOutput(OutputKwargs(f)) == Some(f)
  {
    var items := ConclusionsJson(f.conclusions).items;
    forall k | 0 <= k < |items|
      ensures ParseConclusion(items[k]) == Some(f.conclusions[k])
    {
      var c := f.conclusions[k];
      assert ParseImpact(JStr(ImpactName(c.impact))) == Some(c.impact);
    }
    var r := ParseConclusions(items);
    assert r.Some? && r.value == f.conclusions;
  }

  /** Normalising a well-formed submission leaves it as it is. */
  lemma NormalizedKeepsOutput(f: FileFacts, path: string)
    ensures Stores(OutputKwargs(f)) && Normalized(OutputKwargs(f), path) == OutputKwargs(f)
  {
    var kw := OutputKwargs(f);
    assert "topic" !in kw;
  }

  // ---------------------------------------------------------------------------
  // The text fallback

  /** The object found in the answer text: the span from its first `{` to its last `}` once line
      breaks are spaces, decoded; its `arguments` dict replaces it, and a missing file becomes the
      analysed path. None when there is no span, it does not decode, or it is not a dict. */
  function FallbackData(codec: Codec, path: string, content: string): (r: Option<map<string, Json>>)
    ensures r.Some? <==> FallbackObject(codec, content).Some?
    ensures r.Some? ==> "file" in r.value
    ensures r.Some? ==> var inner := Unwrapped(FallbackObject(codec, content).value);
      r.value["file"] == (if "file" in inner then inner["file"] else JStr(path))
    ensures r.Some? ==> var inner := Unwrapped(FallbackObject(codec, content).value);
      forall key :: key in inner && key != "file" ==> key in r.value && r.value[key] == inner[key]
  {
    match FallbackObject(codec, content)
      case None => None
      case Some(d) =>
        var inner := Unwrapped(d);
        Some(if "file" in inner then inner else inner["file" := JStr(path)])
  }

  /** The decoded dict of the greedy `{...}` span, if any. */
  function FallbackObject(codec: Codec, content: string): Option<map<string, Json>>
  {
    var text := ReplaceAll(content, "\n", " ");
    match AE.GreedySpan(text, '{', '}')
      case None => None
      case Some((i, j)) =>
        match codec.loads(text[i..j])
          case Some(JObj(d)) => Some(d)
          case _ => None
  }

  /** A raw tool-call structure is read through its `arguments` dict. */
  function Unwrapped(d: map<string, Json>): (r: map<string, Json>)
    ensures "arguments" in d && d["arguments"].JObj? ==> r == d["arguments"].fields
    ensures !("arguments" in d && d["arguments"].JObj?) ==> r == d
  {
    if "arguments" in d && d["arguments"].JObj? then d["arguments"].fields else d
  }

  /** The fallback: an empty answer, or data that is missing or does not validate, gives nothing. */
  function Fallback(codec: Codec, path: string, content: string): (r: Option<FileFacts>)
    ensures r.Some? ==> content != "" && FallbackData(codec, path, content).Some?
    ensures r.Some? ==> r == ParseMinerOutput(FallbackData(codec, path, content).value)
  {
    if content == "" then None
    else match FallbackData(codec, path, content)
      case None => None
      case Some(d) => ParseMinerOutput(d)
  }

  /** The conclusions alone, as a model writes them without the file. */
  function ConclusionsOnly(cs: seq<Conclusion>): map<string, Json>
  {
    map["conclusions" := ConclusionsJson(cs)]
  }

  /** An answer holding a raw `submit_conclusions` call whose arguments omit the file yields
      those conclusions for the analysed file. */
  lemma FallbackReadsRawCall(codec: Codec, path: string, content: string, cs: seq<Conclusion>, i: nat, j: nat)
    requires var text := ReplaceAll(content, "\n", " ");
      AE.GreedySpan(text, '{', '}') == Some((i, j))
      && codec.loads(text[i..j]) == Some(JObj(map["name" := JStr(SubmitName), "arguments" := JObj(ConclusionsOnly(cs))]))
    ensures Fallback(codec, path, content) == Some(FileFacts(path, cs))
  {
    var obj := map["name" := JStr(SubmitName), "arguments" := JObj(ConclusionsOnly(cs))];
    SpanInText(content, i, j);
    assert FallbackObject(codec, content) == Some(obj);
    RawCallData(path, cs, obj);
    MinerOutputRoundTrip(FileFacts(path, cs));
  }

  /** A span exists only in a non-empty text. */
  lemma SpanInText(content: string, i: nat, j: nat)
    requires AE.GreedySpan(ReplaceAll(content, "\n", " "), '{', '}') == Some((i, j))
    ensures content != ""
  {
    assert ReplaceAll("", "\n", " ") == "";
  }

  lemma RawCallData(path: string, cs: seq<Conclusion>, obj: map<string, Json>)
    requires obj == map["name" := JStr(SubmitName), "arguments" := JObj(ConclusionsOnly(cs))]
    ensures var inner := Unwrapped(obj); "file" !in inner && inner["file" := JStr(path)] == OutputKwargs(FileFacts(path, cs))
  {
    assert Unwrapped(obj) == ConclusionsOnly(cs);
  }

  // ---------------------------------------------------------------------------
  // One analysis

  /** `analyze_file` once the run is over: nothing when it raised; the stored data validated when
      the tool stored some; the text fallback otherwise. A validation error is caught as well. */
  function Outcome(codec: Codec, path: string, res: Result<string>, log: seq<Invocation>): (r: Option<FileFacts>)
    ensures res.Err? ==> r.None?
    ensures res.Ok? && Stored(log, path).Some? ==> r == ParseMinerOutput(Stored(log, path).value)
    ensures res.Ok? && Stored(log, path).None? ==> r == Fallback(codec, path, res.value)
  {
    if res.Err? then None
    else match Stored(log, path)
      case Some(d) => ParseMinerOutput(d)
      case None => Fallback(codec, path, res.value)
  }

  /** Data submitted through the tool is what the analysis returns. */
  lemma SubmittedIsReturned(codec: Codec, path: string, content: string, log: seq<Invocation>, f: FileFacts)
    ensures Outcome(codec, path, Ok(content), log + [Invocation(SubmitName, OutputKwargs(f))]) == Some(f)
  {
    NormalizedKeepsOutput(f, path);
    LastSubmissionStored(log, OutputKwargs(f), path);
    MinerOutputRoundTrip(f);
  }

  /** A single flattened conclusion without a file is returned for the analysed file. */
  lemma FlattenedIsWrapped(codec: Codec, path: string, content: string, log: seq<Invocation>, c: Conclusion)
    ensures var kw := map["topic" := JStr(c.topic), "impact" := JStr(ImpactName(c.impact)), "statement" := JStr(c.statement)];
      Outcome(codec, path, Ok(content), log + [Invocation(SubmitName, kw)]) == Some(FileFacts(path, [c]))
  {
    var kw := map["topic" := JStr(c.topic), "impact" := JStr(ImpactName(c.impact)), "statement" := JStr(c.statement)];
    assert NormalizedConclusions(kw) == ConclusionsJson([c]);
    assert Normalized(kw, path) == OutputKwargs(FileFacts(path, [c]));
    LastSubmissionStored(log, kw, path);
    MinerOutputRoundTrip(FileFacts(path, [c]));
  }

  /** The miner and the executor it keeps: each analysis appends a user message and registers
      another copy of the submit tool on the same history. */
  class Miner {
    const executor: AE.AgentExecutor
    const schema: Json

    ghost predicate Valid()
      reads this, executor
    {
      executor.registry == null && executor.scope == AE.OwnTools
    }

    constructor (service: Service, codec: Codec, systemPrompt: string, schema: Json)
      ensures Valid() && fresh(executor) && this.schema == schema
      ensures executor.service == service && executor.codec == codec
      ensures executor.messages == [SystemMessage(systemPrompt)]
      ensures executor.toolsDefinitions == [] && executor.toolsRegistry == map[]
      ensures executor.requests == [] && executor.invocations == []
    {
      var e := new AE.AgentExecutor(service, codec, null, None);
      e.SetSystemPrompt(systemPrompt);
      executor := e;
      this.schema := schema;
    }

    /** `analyze_file`. */
    method AnalyzeFile(path: string, content: string) returns (r: Option<FileFacts>)
      requires Valid()
      modifies executor
      ensures Valid()
      ensures executor.toolsDefinitions == old(executor.toolsDefinitions) + [SubmitDef(schema)]
      ensures executor.toolsRegistry == old(executor.toolsRegistry)[SubmitName := Submitter(path)]
      ensures old(executor.messages) + [UserMessage(UserText(path, content))] <= executor.messages
      ensures old(executor.invocations) <= executor.invocations
      ensures var st0 := AE.ExecState(old(executor.messages) + [UserMessage(UserText(path, content))],
                                      old(executor.requests), old(executor.invocations));
        var (st, res) := AE.Run(AE.Env(executor.codec, executor.toolsRegistry, None), executor.service,
                                executor.toolsDefinitions, st0, MaxIterations);
        executor.State() == st && r == Outcome(executor.codec, path, res, executor.invocations[|old(executor.invocations)|..])
    {
      executor.AddUserMessage(UserText(path, content));
      executor.RegisterTool(SubmitDef(schema), Submitter(path));
      var n0 := |executor.invocations|;
      ghost var st0 := executor.State();
      assert executor.Valid();
      assert executor.OfferedTools() == executor.toolsDefinitions;
      var res := executor.RunUntilComplete(MaxIterations);
      AE.RunOnlyAppends(AE.Env(executor.codec, executor.toolsRegistry, None), executor.service, executor.toolsDefinitions, st0, MaxIterations);
      if res.Err? {
        return None;
      }
      var stored := Stored(executor.invocations[n0..], path);
      if stored.Some? {
        r := ParseMinerOutput(stored.value);
      } else {
        r := Fallback(executor.codec, path, res.value);
      }
    }
  }
}
