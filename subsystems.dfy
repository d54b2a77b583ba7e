/** The subsystem detector: lists each mined file with its first two facts, asks the model once
    to submit the subsystems it sees, and validates what it submitted. */
module Subsystems {
  import opened Wrappers
  import opened JsonValues
  import opened Conversation
  import opened SeqUtil
  import opened Text
  import opened Facts
  import Capture
  import Tok = Tokenizer

  /** The token budget of the structure sent to the model. */
  const MaxDetectorTokens := 50000
  const MaxIterations := 1
  /** How many of a file's conclusions the structure shows. */
  const FactsPerFile := 2

  datatype Subsystem = Subsystem(name: string, role: string, technologies: seq<string>, rootPath: string)

  // ---------------------------------------------------------------------------
  // Validation of the submitted arguments

  /** A list of strings, or None when some item is not a string. */
  function ParseStrings(items: seq<Json>): (r: Option<seq<string>>)
    ensures r.Some? <==> forall k :: 0 <= k < |items| ==> items[k].JStr?
    ensures r.Some? ==> |r.value| == |items| && forall k :: 0 <= k < |items| ==> items[k] == JStr(r.value[k])
  {
    if |items| == 0 then Some([])
    else
      var init := ParseStrings(items[..|items| - 1]);
      var last := items[|items| - 1];
      if init.None? then
        None
      else if !last.JStr? then None
      else Some(init.value + [last.s])
  }

  /** A required string field. */
  function StrField(f: map<string, Json>, key: string): (r: Option<string>)
    ensures r.Some? <==> key in f && f[key].JStr?
    ensures r.Some? ==> f[key] == JStr(r.value)
  {
    if key in f && f[key].JStr? then Some(f[key].s) else None
  }

  /** `Subsystem` validation: name, role and root path are required strings; the technologies
      default to the empty list and, when given, must be a list of strings. */
  function ParseSubsystem(j: Json): (r: Option<Subsystem>)
    ensures r.Some? ==> j.JObj? && StrField(j.fields, "name") == Some(r.value.name)
    ensures r.Some? ==> StrField(j.fields, "role") == Some(r.value.role)
    ensures r.Some? ==> StrField(j.fields, "root_path") == Some(r.value.rootPath)
    ensures r.Some? && "technologies" in j.fields ==> j.fields["technologies"] == StringList(r.value.technologies)
    ensures r.Some? && "technologies" !in j.fields ==> r.value.technologies == []
  {
    if !j.JObj? then None
    else
      var f := j.fields;
      var techs :=
        if "technologies" !in f then Some([])
        else if f["technologies"].JArr? then ParseStrings(f["technologies"].items)
        else None;
      match (StrField(f, "name"), StrField(f, "role"), StrField(f, "root_path"), techs)
        case (Some(name), Some(role), Some(root), Some(ts)) =>
          assert "technologies" in f ==> f["technologies"] == StringList(ts) by {
            if "technologies" in f {
              assert f["technologies"].items == StringList(ts).items;
            }
          }
          Some(Subsystem(name, role, ts, root))
        case _ => None
  }

  /** Each item validated, or None when one fails. */
  function ParseSubsystems(items: seq<Json>): (r: Option<seq<Subsystem>>)
    ensures r.Some? <==> forall k :: 0 <= k < |items| ==> ParseSubsystem(items[k]).Some?
    ensures r.Some? ==> |r.value| == |items| && forall k :: 0 <= k < |items| ==> ParseSubsystem(items[k]) == Some(r.value[k])
  {
    if |items| == 0 then Some([])
    else
      var init := ParseSubsystems(items[..|items| - 1]);
      var last := ParseSubsystem(items[|items| - 1]);
      if init.None? then
        None
      else if last.None? then None
      else Some(init.value + [last.value])
  }

  /** `SubsystemsList(**data)`: a required list of subsystems. */
  function ParseSubsystemsList(kw: map<string, Json>): (r: Option<seq<Subsystem>>)
    ensures r.Some? ==> "subsystems" in kw && kw["subsystems"].JArr? && ParseSubsystems(kw["subsystems"].items) == r
  {
    if "subsystems" in kw && kw["subsystems"].JArr? then ParseSubsystems(kw["subsystems"].items) else None
  }

  /** The JSON object a model submits for a subsystem. */
  function SubsystemJson(s: Subsystem): Json
  {
    JObj(map["name" := JStr(s.name), "role" := JStr(s.role), "technologies" := StringList(s.technologies),
             "root_path" := JStr(s.rootPath)])
  }

  /** The keyword arguments of a submission of the given subsystems. */
  function SubsystemsKwargs(list: seq<Subsystem>): map<string, Json>
  {
    map["subsystems" := JArr(Map(list, SubsystemJson))]
  }

  lemma {:induction false} ParseStringsList(xs: seq<string>)
    ensures ParseStrings(StringList(xs).items) == Some(xs)
  {
    var r := ParseStrings(StringList(xs).items);
    assert r.Some?;
    assert r.value == xs;
  }

  lemma SubsystemRoundTrip(s: Subsystem)
    ensures ParseSubsystem(SubsystemJson(s)) == Some(s)
  {
    ParseStringsList(s.technologies);
  }

  /** Validation gives back every subsystem of a well-formed submission, in order. */
  lemma SubsystemsRoundTrip(list: seq<Subsystem>)
    ensures ParseSubsystemsList(SubsystemsKwargs(list)) == Some(list)
  {
    var items := Map(list, SubsystemJson);
    forall k | 0 <= k < |items|
      ensures ParseSubsystem(items[k]) == Some(list[k])
    {
      SubsystemRoundTrip(list[k]);
    }
    var r := ParseSubsystems(items);
    assert r.Some?;
    assert r.value == list;
  }

  // ---------------------------------------------------------------------------
  // The structure shown to the model

  function ShownFact(c: Conclusion): string
  {
    "  - Fact: " + c.statement
  }

  /** A file's lines: its path, then up to two of its facts. */
  function FileLines(f: FileFacts): seq<string>
  {
    ["File: " + f.file] + Map(Take(f.conclusions, FactsPerFile), ShownFact)
  }

  function ContextLines(files: seq<FileFacts>): seq<string>
  {
    if |files| == 0 then []
    else ContextLines(files[..|files| - 1]) + FileLines(files[|files| - 1])
  }

  /** Every file's path line is shown. */
  lemma {:induction false} ContextShowsFiles(files: seq<FileFacts>)
    ensures forall k :: 0 <= k < |files| ==> "File: " + files[k].file in ContextLines(files)
  {
    if |files| > 0 {
      var init := files[..|files| - 1];
      ContextShowsFiles(init);
      assert ContextLines(files) == ContextLines(init) + FileLines(files[|files| - 1]);
      forall k | 0 <= k < |files| - 1
        ensures "File: " + files[k].file in ContextLines(files)
      {
        assert init[k] == files[k];
      }
      assert FileLines(files[|files| - 1])[0] == "File: " + files[|files| - 1].file;
    }
  }

  /** The first two facts of every file are shown. */
  lemma {:induction false} ContextShowsFacts(files: seq<FileFacts>)
    ensures forall k, j :: 0 <= k < |files| && 0 <= j < |files[k].conclusions| && j < FactsPerFile ==>
      ShownFact(files[k].conclusions[j]) in ContextLines(files)
  {
    if |files| > 0 {
      var init := files[..|files| - 1];
      var last := files[|files| - 1];
      ContextShowsFacts(init);
      assert ContextLines(files) == ContextLines(init) + FileLines(last);
      forall k, j | 0 <= k < |files| && 0 <= j < |files[k].conclusions| && j < FactsPerFile
        ensures ShownFact(files[k].conclusions[j]) in ContextLines(files)
      {
        if k < |files| - 1 {
          assert init[k] == files[k];
        } else {
          assert FileLines(last)[j + 1] == ShownFact(files[k].conclusions[j]);
        }
      }
    }
  }

  /** Every shown line is a line of one of the files. */
  lemma {:induction false} ContextLinesFromFiles(files: seq<FileFacts>)
    ensures forall line :: line in ContextLines(files) ==> exists k :: 0 <= k < |files| && line in FileLines(files[k])
  {
    if |files| > 0 {
      var init := files[..|files| - 1];
      ContextLinesFromFiles(init);
      assert ContextLines(files) == ContextLines(init) + FileLines(files[|files| - 1]);
      forall line | line in ContextLines(files)
        ensures exists k :: 0 <= k < |files| && line in FileLines(files[k])
      {
        if line in ContextLines(init) {
          var k :| 0 <= k < |init| && line in FileLines(init[k]);
          assert files[k] == init[k];
        }
      }
    }
  }

  function RequestText(context: string): string
  {
    "Analyze this codebase structure:\n\n" + context
  }

  function SubmitSubsystemsDef(schema: Json): ToolDef
  {
    ToolDef("submit_subsystems", "Submit detected subsystems.", schema)
  }

  /** The collaborators a detector works with: the service, the JSON codec, the detection prompt
      and the schema offered with the submit tool. */
  datatype Setup = Setup(service: Service, codec: Codec, prompt: string, schema: Json)

  /** The user message once the structure is truncated to its budget. */
  function UserText(enc: Tok.Encoding, files: seq<FileFacts>): string
  {
    RequestText(Tok.TruncateWith(enc, Join(ContextLines(files), "\n"), MaxDetectorTokens))
  }

  /** `detect` once the encoding is known: the validated submission, or no subsystems when the
      run raised, nothing (or an empty dict) was submitted, or validation failed. */
  function DetectedOf(setup: Setup, enc: Tok.Encoding, files: seq<FileFacts>): (r: seq<Subsystem>)
  {
    var data := Capture.Captured(setup.codec, setup.service, setup.prompt, UserText(enc, files),
                                 SubmitSubsystemsDef(setup.schema), MaxIterations);
    match data
      case None => []
      case Some(kw) =>
        if |kw| == 0 then []
        else match ParseSubsystemsList(kw)
          case None => []
          case Some(list) => list
  }

  /** A model that submits subsystems at once has exactly those detected. */
  lemma SubmittedAreDetected(setup: Setup, enc: Tok.Encoding, files: seq<FileFacts>, id: Option<string>, list: seq<Subsystem>)
    requires var def := SubmitSubsystemsDef(setup.schema);
      setup.service(Capture.Opening(setup.prompt, UserText(enc, files)), Some([def]))
        == Ok(Capture.SubmitReply(def, id, SubsystemsKwargs(list)))
    ensures DetectedOf(setup, enc, files) == list
  {
    var def := SubmitSubsystemsDef(setup.schema);
    var reply := Capture.SubmitReply(def, id, SubsystemsKwargs(list));
    Capture.SubmitIsCaptured(setup.codec, setup.service, setup.prompt, UserText(enc, files), def, id,
                             SubsystemsKwargs(list), MaxIterations, reply);
    SubsystemsRoundTrip(list);
  }

  /** A service failure is swallowed: no subsystems. */
  lemma ServiceErrorDetectsNone(setup: Setup, enc: Tok.Encoding, files: seq<FileFacts>)
    requires setup.service(Capture.Opening(setup.prompt, UserText(enc, files)), Some([SubmitSubsystemsDef(setup.schema)])).Err?
    ensures DetectedOf(setup, enc, files) == []
  {
    Capture.ServiceErrorCapturesNothing(setup.codec, setup.service, setup.prompt, UserText(enc, files),
                                        SubmitSubsystemsDef(setup.schema), MaxIterations);
  }

  lemma FileLinesSnoc(files: seq<FileFacts>, i: nat)
    requires i < |files|
    ensures ContextLines(files[..i + 1]) == ContextLines(files[..i]) + FileLines(files[i])
  {
    assert files[..i + 1][..i] == files[..i];
  }

  class SubsystemDetector {
    const setup: Setup
    const tok: Tok.Tokenizer

    constructor (setup: Setup, tok: Tok.Tokenizer)
      ensures this.setup == setup && this.tok == tok
    {
      this.setup := setup;
      this.tok := tok;
    }

    /** The context loop of `detect`. */
    method ContextOf(files: seq<FileFacts>) returns (lines: seq<string>)
      ensures lines == ContextLines(files)
    {
      lines := [];
      for i := 0 to |files|
        invariant lines == ContextLines(files[..i])
      {
        FileLinesSnoc(files, i);
        var f := files[i];
        lines := lines + ["File: " + f.file];
        var shown := Take(f.conclusions, FactsPerFile);
        for j := 0 to |shown|
          invariant lines == ContextLines(files[..i]) + ["File: " + f.file] + Map(shown[..j], ShownFact)
        {
          assert Map(shown[..j + 1], ShownFact) == Map(shown[..j], ShownFact) + [ShownFact(shown[j])];
          lines := lines + [ShownFact(shown[j])];
        }
        assert shown[..|shown|] == shown;
      }
      assert files[..|files|] == files;
    }

    /** `detect`: a tokenizer failure raises out of it (it comes before the `try`). */
    method Detect(files: seq<FileFacts>) returns (r: Result<seq<Subsystem>>)
      modifies tok
      ensures r.Ok? <==> tok.encoding.Some?
      ensures r.Ok? ==> r.value == DetectedOf(setup, tok.encoding.value, files)
      ensures old(tok.encoding).Some? ==> tok.encoding == old(tok.encoding)
    {
      var lines := ContextOf(files);
      var context := tok.Truncate(Join(lines, "\n"), MaxDetectorTokens);
      if context.Err? {
        return Err(context.error);
      }
      var data := Capture.RunCapturing(setup.service, setup.codec, setup.prompt, RequestText(context.value),
                                       SubmitSubsystemsDef(setup.schema), MaxIterations);
      var detected: seq<Subsystem> := [];
      if data.Some? && |data.value| > 0 {
        var list := ParseSubsystemsList(data.value);
        if list.Some? {
          detected := list.value;
        }
      }
      r := Ok(detected);
    }
  }
}
