/** The miner's per-file results, their grouping into modules (parent directories), and the fact
    text the architect and the scribe build from them. The grouping and fact-text code is the
    same in both agents. */
module Facts {
  import opened Text
  import opened SeqUtil
  import opened Grouping

  /** The three criticality levels a conclusion may have. */
  datatype Impact = High | Medium | Low

  /** One extracted fact about a file. */
  datatype Conclusion = Conclusion(topic: string, impact: Impact, statement: string)

  /** The miner's result for one file: its path and its conclusions. */
  datatype FileFacts = FileFacts(file: string, conclusions: seq<Conclusion>)

  /** The module a file belongs to: its parent directory, or "root" for a top-level file. */
  function ModuleOf(item: FileFacts): (m: string)
    ensures m != ""
    ensures Dirname(item.file) != "" ==> m == Dirname(item.file)
  {
    var d := Dirname(item.file);
    if d == "" then "root" else d
  }

  /** `_group_by_module`: the files grouped by module, modules in order of first appearance. */
  method GroupByModule(data: seq<FileFacts>) returns (r: Groups<FileFacts>)
    ensures IsGrouping(r, data, ModuleOf)
  {
    r := GroupBy(data, ModuleOf);
  }

  // ---------------------------------------------------------------------------
  // The fact text

  /** The line of one conclusion. */
  function FactLine(c: Conclusion): string
  {
    "- [" + c.topic + "]: " + c.statement + "\n"
  }

  /** The lines of a file's conclusions, in order. */
  function FactLines(cs: seq<Conclusion>): string
  {
    if |cs| == 0 then "" else FactLines(cs[..|cs| - 1]) + FactLine(cs[|cs| - 1])
  }

  /** The heading of one file: its base name on a line of its own. */
  function FileHeading(f: FileFacts): string
  {
    "\nFILE: " + Basename(f.file) + "\n"
  }

  function FileSection(f: FileFacts): string
  {
    FileHeading(f) + FactLines(f.conclusions)
  }

  function FileSections(files: seq<FileFacts>): string
  {
    if |files| == 0 then "" else FileSections(files[..|files| - 1]) + FileSection(files[|files| - 1])
  }

  function ModuleHeading(m: string): string
  {
    "=== MODULE: " + m + " ===\n"
  }

  /** `_prepare_module_facts`: the module heading, then each file's heading and fact lines. */
  function ModuleText(m: string, files: seq<FileFacts>): string
  {
    ModuleHeading(m) + FileSections(files)
  }

  /** Every conclusion of a file has its line in the fact lines. */
  lemma {:induction false} FactLinesMentionEach(cs: seq<Conclusion>)
    ensures forall k :: 0 <= k < |cs| ==> Contains(FactLines(cs), FactLine(cs[k]))
  {
    if |cs| > 0 {
      var init := cs[..|cs| - 1];
      FactLinesMentionEach(init);
      forall k | 0 <= k < |cs|
        ensures Contains(FactLines(cs), FactLine(cs[k]))
      {
        ContainsMiddle(FactLines(init), FactLine(cs[|cs| - 1]), "");
        assert FactLines(init) + FactLine(cs[|cs| - 1]) + "" == FactLines(cs);
        if k < |cs| - 1 {
          assert init[k] == cs[k];
          ContainsMiddle("", FactLines(init), FactLine(cs[|cs| - 1]));
          assert "" + FactLines(init) + FactLine(cs[|cs| - 1]) == FactLines(cs);
          ContainsTrans(FactLines(cs), FactLines(init), FactLine(cs[k]));
        }
      }
    }
  }

  /** Every file of a module has its heading in the module text, and so has each of its conclusions. */
  lemma {:induction false} ModuleTextMentionsEach(m: string, files: seq<FileFacts>)
    ensures StartsWith(ModuleText(m, files), ModuleHeading(m))
    ensures forall k :: 0 <= k < |files| ==> Contains(ModuleText(m, files), FileHeading(files[k]))
    ensures forall k, j :: 0 <= k < |files| && 0 <= j < |files[k].conclusions| ==>
      Contains(ModuleText(m, files), FactLine(files[k].conclusions[j]))
  {
    SectionsMentionEach(files);
    var t := ModuleText(m, files);
    assert t[..|ModuleHeading(m)|] == ModuleHeading(m);
    ContainsMiddle(ModuleHeading(m), FileSections(files), "");
    assert ModuleHeading(m) + FileSections(files) + "" == t;
    forall k | 0 <= k < |files|
      ensures Contains(t, FileHeading(files[k]))
    {
      ContainsTrans(t, FileSections(files), FileHeading(files[k]));
    }
    forall k, j | 0 <= k < |files| && 0 <= j < |files[k].conclusions|
      ensures Contains(t, FactLine(files[k].conclusions[j]))
    {
      ContainsTrans(t, FileSections(files), FactLine(files[k].conclusions[j]));
    }
  }

  /** A file's section holds its heading and each of its fact lines. */
  lemma SectionMentions(f: FileFacts)
    ensures Contains(FileSection(f), FileHeading(f))
    ensures forall j :: 0 <= j < |f.conclusions| ==> Contains(FileSection(f), FactLine(f.conclusions[j]))
  {
    FactLinesMentionEach(f.conclusions);
    ContainsMiddle("", FileHeading(f), FactLines(f.conclusions));
    assert "" + FileHeading(f) + FactLines(f.conclusions) == FileSection(f);
    ContainsMiddle(FileHeading(f), FactLines(f.conclusions), "");
    assert FileHeading(f) + FactLines(f.conclusions) + "" == FileSection(f);
    forall j | 0 <= j < |f.conclusions|
      ensures Contains(FileSection(f), FactLine(f.conclusions[j]))
    {
      ContainsTrans(FileSection(f), FactLines(f.conclusions), FactLine(f.conclusions[j]));
    }
  }

  /** The sections of a run of files hold each file's section. */
  lemma {:induction false} SectionsHoldEach(files: seq<FileFacts>)
    ensures forall k :: 0 <= k < |files| ==> Contains(FileSections(files), FileSection(files[k]))
  {
    if |files| > 0 {
      var init := files[..|files| - 1];
      var last := files[|files| - 1];
      var t := FileSections(files);
      SectionsHoldEach(init);
      ContainsMiddle(FileSections(init), FileSection(last), "");
      assert FileSections(init) + FileSection(last) + "" == t;
      ContainsMiddle("", FileSections(init), FileSection(last));
      assert "" + FileSections(init) + FileSection(last) == t;
      forall k | 0 <= k < |files| - 1
        ensures Contains(t, FileSection(files[k]))
      {
        assert init[k] == files[k];
        ContainsTrans(t, FileSections(init), FileSection(files[k]));
      }
    }
  }

  lemma SectionsMentionEach(files: seq<FileFacts>)
    ensures forall k :: 0 <= k < |files| ==> Contains(FileSections(files), FileHeading(files[k]))
    ensures forall k, j :: 0 <= k < |files| && 0 <= j < |files[k].conclusions| ==>
      Contains(FileSections(files), FactLine(files[k].conclusions[j]))
  {
    SectionsHoldEach(files);
    forall k | 0 <= k < |files|
      ensures Contains(FileSections(files), FileHeading(files[k]))
    {
      SectionMentions(files[k]);
      ContainsTrans(FileSections(files), FileSection(files[k]), FileHeading(files[k]));
    }
    forall k, j | 0 <= k < |files| && 0 <= j < |files[k].conclusions|
      ensures Contains(FileSections(files), FactLine(files[k].conclusions[j]))
    {
      SectionMentions(files[k]);
      ContainsTrans(FileSections(files), FileSection(files[k]), FactLine(files[k].conclusions[j]));
    }
  }

  lemma FactLinesSnoc(cs: seq<Conclusion>, i: nat)
    requires i < |cs|
    ensures FactLines(cs[..i + 1]) == FactLines(cs[..i]) + FactLine(cs[i])
  {
    assert cs[..i + 1][..i] == cs[..i];
  }

  lemma FileSectionsSnoc(files: seq<FileFacts>, i: nat)
    requires i < |files|
    ensures FileSections(files[..i + 1]) == FileSections(files[..i]) + FileSection(files[i])
  {
    assert files[..i + 1][..i] == files[..i];
  }

  /** The inner loop over a file's conclusions. */
  method FileSectionText(f: FileFacts) returns (text: string)
    ensures text == FileSection(f)
  {
    text := FileHeading(f);
    for i := 0 to |f.conclusions|
      invariant text == FileHeading(f) + FactLines(f.conclusions[..i])
    {
      FactLinesSnoc(f.conclusions, i);
      text := text + FactLine(f.conclusions[i]);
    }
    assert f.conclusions[..|f.conclusions|] == f.conclusions;
  }

  /** `_prepare_module_facts` of the architect. */
  method PrepareModuleFacts(m: string, files: seq<FileFacts>) returns (text: string)
    ensures text == ModuleText(m, files)
  {
    text := ModuleHeading(m);
    for i := 0 to |files|
      invariant text == ModuleHeading(m) + FileSections(files[..i])
    {
      FileSectionsSnoc(files, i);
      var section := FileSectionText(files[i]);
      text := text + section;
    }
    assert files[..|files|] == files;
  }
}
