/** Project files, once decoded: how their definitions become tags and programs. */
module Project {
  import opened Machine
  import opened JsonValues
  import opened Tags
  import opened Plc
  import opened StInterpreter
  import opened StAst
  import opened StPrinter
  import opened StLexing
  import opened StSource
  import opened Ladder
  import opened ScanEngine

  datatype TagDefinition = TagDefinition(name: string, dataType: string, initial: Option<Json>)

  datatype InstructionDefinition = InstructionDefinition(
    kind: string, tag: Option<string>, timerName: Option<string>, enableTag: Option<string>, doneTag: Option<string>,
    presetMs: Option<u64>)

  datatype RungDefinition = RungDefinition(comment: string, instructions: seq<InstructionDefinition>)

  datatype ProgramDefinition = ProgramDefinition(
    name: string, language: string, rungs: Option<seq<RungDefinition>>, stSource: Option<string>)

  datatype Project = Project(
    name: string, controllerName: string, scanPeriodMs: u64, tags: seq<TagDefinition>, programs: seq<ProgramDefinition>)

  // ----- Tags -----

  /** Either naming scheme; anything else is a boolean. */
  function TypeFromText(text: string): DataType {
    if text in {"INT16", "INT"} then Int16Type
    else if text in {"INT32", "DINT"} then Int32Type
    else if text in {"INT64", "LINT"} then Int64Type
    else if text in {"UINT16", "UINT"} then UInt16Type
    else if text in {"UINT32", "UDINT"} then UInt32Type
    else if text in {"UINT64", "ULINT"} then UInt64Type
    else if text in {"FLOAT32", "REAL"} then Float32Type
    else if text in {"FLOAT64", "LREAL"} then Float64Type
    else if text == "STRING" then StringType
    else BoolType
  }

  /** Only booleans, floats and 32-bit integers take their initial value from the file. */
  function InitialValue(t: DataType, initial: Option<Json>): (v: TagValue)
    ensures v.TypeOf() == t
  {
    if initial.None? then DefaultFor(t) else
      match t
      case BoolType => Bool(initial.value == JsonBool(true))
      case Float64Type => Float64(initial.value.AsF64())
      case Float32Type => Float32(initial.value.AsF64())
      case Int32Type => Int32(LowI32(initial.value.AsI64()))
      case _ => DefaultFor(t)
  }

  function TagOf(d: TagDefinition): Tag {
    var t := TypeFromText(d.dataType);
    Tag(d.name, t, InitialValue(t, d.initial), None)
  }

  function TagsOf(ds: seq<TagDefinition>): Db {
    if ds == [] then map[] else
      var last := ds[|ds| - 1];
      TagsOf(ds[..|ds| - 1])[last.name := TagOf(last)]
  }

  method BuildTags(ds: seq<TagDefinition>) returns (db: TagDatabase)
    ensures fresh(db) && db.tags == TagsOf(ds)
  {
    db := new TagDatabase();
    for k := 0 to |ds|
      invariant db.tags == TagsOf(ds[..k])
    {
      assert ds[..k + 1][..k] == ds[..k];
      db.AddTag(TagOf(ds[k]));
    }
    assert ds[..|ds|] == ds;
  }

  /** Definition i is the last one of its name. */
  predicate LastOfName(ds: seq<TagDefinition>, i: nat)
    requires i < |ds|
  {
    forall j :: i < j < |ds| ==> ds[j].name != ds[i].name
  }

  /** The tags are those defined; of definitions with one name the last counts. */
  lemma {:induction false} TagsOfLast(ds: seq<TagDefinition>, i: nat)
    requires i < |ds| && LastOfName(ds, i)
    ensures ds[i].name in TagsOf(ds) && TagsOf(ds)[ds[i].name] == TagOf(ds[i])
  {
    var n := |ds| - 1;
    if i < n {
      assert LastOfName(ds[..n], i);
      TagsOfLast(ds[..n], i);
    }
  }

  /** No tag comes from nowhere, and every tag starts unforced with a value of its declared type. */
  lemma {:induction false} TagsOfDefined(ds: seq<TagDefinition>, name: string)
    requires name in TagsOf(ds)
    ensures exists i :: 0 <= i < |ds| && ds[i].name == name
    ensures var tag := TagsOf(ds)[name]; tag.name == name && tag.WellTyped() && tag.forced.None?
  {
    var n := |ds| - 1;
    if ds[n].name != name {
      TagsOfDefined(ds[..n], name);
      var i :| 0 <= i < n && ds[..n][i].name == name;
      assert ds[i].name == name;
    }
  }

  // ----- Programs -----

  function OrEmpty(s: Option<string>): string {
    if s.Some? then s.value else ""
  }

  /** Either naming scheme; an unknown instruction examines the tag UNKNOWN. */
  function InstructionOf(d: InstructionDefinition): Instruction {
    if d.kind in {"ExamineOpen", "XIC"} then ExamineOpen(OrEmpty(d.tag))
    else if d.kind in {"ExamineClosed", "XIO"} then ExamineClosed(OrEmpty(d.tag))
    else if d.kind in {"OutputCoil", "OTE"} then OutputCoil(OrEmpty(d.tag))
    else if d.kind in {"SetCoil", "OTL"} then SetCoil(OrEmpty(d.tag))
    else if d.kind in {"ResetCoil", "OTU"} then ResetCoil(OrEmpty(d.tag))
    else if d.kind == "BranchStart" then BranchStart
    else if d.kind == "BranchNext" then BranchNext
    else if d.kind == "BranchEnd" then BranchEnd
    else if d.kind in {"TimerOnDelay", "TON"} then
      TimerOnDelay(OrEmpty(d.timerName), OrEmpty(d.enableTag), OrEmpty(d.doneTag),
                   if d.presetMs.Some? then d.presetMs.value else 1000)
    else ExamineOpen("UNKNOWN")
  }

  function RungOf(d: RungDefinition): Rung {
    Rung(d.comment, seq(|d.instructions|, i requires 0 <= i < |d.instructions| => InstructionOf(d.instructions[i])))
  }

  function LanguageOf(text: string): Language {
    if text == "LadderLogic" then LadderLogic
    else if text == "StructuredText" then StructuredText
    else if text == "FunctionBlockDiagram" then FunctionBlockDiagram
    else if text == "SequentialFunctionChart" then SequentialFunctionChart
    else InternalInstructions
  }

  /** A source that does not parse leaves the program without statements. */
  function Compiled(source: Option<string>): seq<StStatement> {
    if source.None? then [] else
      match ParseSt(source.value)
      case Ok(ss) => ss
      case Err(_) => []
  }

  function ProgramOf(d: ProgramDefinition): Program {
    var rungs := if d.rungs.Some? then d.rungs.value else [];
    Program(d.name, LanguageOf(d.language), seq(|rungs|, i requires 0 <= i < |rungs| => RungOf(rungs[i])),
            Compiled(d.stSource), true)
  }

  function ProgramsOf(ds: seq<ProgramDefinition>): seq<Program> {
    seq(|ds|, i requires 0 <= i < |ds| => ProgramOf(ds[i]))
  }

  /** Whatever its layout, a Structured Text program in a project file runs as the statements it was printed from. */
  lemma LoadedTextRuns(d: ProgramDefinition, ss: seq<StStatement>, ps: seq<Piece>, last: Tail, dt: u64, s: PlcState)
    requires d.language == "StructuredText" && d.stSource == Some(Render(ps, last))
    requires WellSpaced(ps, last) && TokensOf(ps) == PrintStatements(ss)
    ensures RunProgram(ProgramOf(d), dt, s).state == ExecStatements(ss, dt, s).state
    ensures var error := ExecStatements(ss, dt, s).error;
            RunProgram(ProgramOf(d), dt, s).errors == if error.Some? then [error.value] else []
  {
    SourceRoundTrip(ss, ps, last);
  }
}
