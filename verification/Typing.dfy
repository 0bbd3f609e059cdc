/** A static type discipline under which no run ever stores a value of the wrong variant. */
module Typing {
  import opened Machine
  import opened Tags
  import opened Plc
  import opened StAst
  import opened StInterpreter
  import opened StInvariants
  import opened Ladder
  import opened ScanEngine
  import opened Project
  import opened Runtime

  type Types = map<string, DataType>

  function Declared(db: Db): Types {
    map n | n in db :: db[n].dataType
  }

  /** The variant an expression evaluates to, if it evaluates at all. */
  function ExprType(e: StExpr, types: Types): DataType {
    match e
    case Literal(lit) => LiteralValue(lit).TypeOf()
    case Variable(n) => if n in types then types[n] else BoolType
    case Unary(op, _) => if op.Not? then BoolType else Float64Type
    case Binary(op, _, _) =>
      match op
      case Add => Float64Type
      case Sub => Float64Type
      case Mul => Float64Type
      case Div => Float64Type
      case Mod => Int32Type
      case _ => BoolType
  }

  /** Only four variants survive an assignment. */
  function StoredType(t: DataType): DataType {
    if t.BoolType? || t.Int32Type? || t.StringType? then t else Float64Type
  }

  /** A tag that is absent or declared with the given type can receive it. */
  predicate Accepts(types: Types, name: string, t: DataType) {
    name in types ==> types[name] == t
  }

  predicate Typed(ss: seq<StStatement>, types: Types)
    decreases ss, 0, 0
  {
    ss == [] || (TypedOne(ss[0], types) && Typed(ss[1..], types))
  }

  predicate TypedOne(st: StStatement, types: Types)
    decreases st, 1, 0
  {
    match st
    case Assignment(v, e) => Accepts(types, v, StoredType(ExprType(e, types)))
    case If(_, thenBody, _, elsePart) =>
      Typed(thenBody, types) && TypedElsifs(st, 0, types) && (elsePart.Else? ==> Typed(elsePart.body, types))
    case While(_, body) => Typed(body, types)
    case Repeat(body, _) => Typed(body, types)
    case For(v, _, _, _, body) => Accepts(types, v, Int32Type) && Typed(body, types)
    case FbCall(n, _) => Accepts(types, n + "_Q", BoolType)
  }

  predicate TypedElsifs(st: StStatement, i: nat, types: Types)
    requires st.If? && i <= |st.elsifs|
    decreases st, 0, |st.elsifs| - i
  {
    i == |st.elsifs| || (Typed(st.elsifs[i].body, types) && TypedElsifs(st, i + 1, types))
  }

  predicate TypedInstruction(i: Instruction, types: Types) {
    match i
    case OutputCoil(tag) => Accepts(types, tag, BoolType)
    case SetCoil(tag) => Accepts(types, tag, BoolType)
    case ResetCoil(tag) => Accepts(types, tag, BoolType)
    case TimerOnDelay(_, _, doneTag, _) => Accepts(types, doneTag, BoolType)
    case _ => true
  }

  predicate TypedProgram(p: Program, types: Types) {
    if p.language.StructuredText? then Typed(p.stAst, types)
    else forall r :: r in p.rungs ==> forall i :: i in r.instructions ==> TypedInstruction(i, types)
  }

  // ----- Preservation -----

  ghost predicate WellTyped(types: Types, s: PlcState) {
    Declared(s.db) == types && forall n :: n in s.db ==> s.db[n].WellTyped()
  }

  ghost function TypeInv(types: Types): PlcState -> bool {
    s => WellTyped(types, s)
  }

  /** Evaluation yields the predicted variant. */
  lemma EvalTyped(e: StExpr, types: Types, s: PlcState)
    requires WellTyped(types, s) && Eval(e, s.db).Ok?
    ensures Eval(e, s.db).value.TypeOf() == ExprType(e, types)
  {
    match e
    case Literal(_) =>
    case Variable(n) => assert n in types <==> n in s.db;
    case Unary(op, _) =>
    case Binary(op, _, _) =>
  }

  lemma WriteTyped(types: Types, s: PlcState, name: string, v: TagValue)
    requires WellTyped(types, s) && Accepts(types, name, v.TypeOf())
    ensures WellTyped(types, WriteTag(s, name, v))
  {
    var s' := WriteTag(s, name, v);
    assert forall n :: n in s.db ==> types[n] == s.db[n].dataType;
    assert Declared(s'.db) == types;
  }

  lemma {:induction false} StableTypes(ss: seq<StStatement>, dt: u64, types: Types)
    requires Typed(ss, types)
    ensures Stable(ss, dt, TypeInv(types))
    decreases ss, 0, 0
  {
    if ss != [] {
      StableTypesOne(ss[0], dt, types);
      StableTypes(ss[1..], dt, types);
    }
  }

  lemma {:induction false} StableTypesOne(st: StStatement, dt: u64, types: Types)
    requires TypedOne(st, types)
    ensures StableOne(st, dt, TypeInv(types))
    decreases st, 1, 0
  {
    var inv := TypeInv(types);
    match st
    case Assignment(v, e) =>
      forall s | inv(s) && Eval(e, s.db).Ok? ensures inv(WriteTag(s, v, Stored(Eval(e, s.db).value))) {
        EvalTyped(e, types, s);
        WriteTyped(types, s, v, Stored(Eval(e, s.db).value));
      }
    case FbCall(n, _) =>
      forall s, inVal, pt: u64 | inv(s) ensures inv(CallTimer(s, n, inVal, pt, dt)) {
        WriteTyped(types, s, n + "_Q", Bool(CallTimer(s, n, inVal, pt, dt).timers[n].done));
      }
    case If(_, thenBody, _, elsePart) =>
      StableTypes(thenBody, dt, types);
      StableTypesElsifs(st, 0, dt, types);
      if elsePart.Else? {
        StableTypes(elsePart.body, dt, types);
      }
    case While(_, body) => StableTypes(body, dt, types);
    case Repeat(body, _) => StableTypes(body, dt, types);
    case For(v, _, _, _, body) =>
      forall s, i: i32 | inv(s) ensures inv(WriteTag(s, v, Int32(i))) {
        WriteTyped(types, s, v, Int32(i));
      }
      StableTypes(body, dt, types);
  }

  lemma {:induction false} StableTypesElsifs(st: StStatement, i: nat, dt: u64, types: Types)
    requires st.If? && i <= |st.elsifs| && TypedElsifs(st, i, types)
    ensures StableElsifs(st, i, dt, TypeInv(types))
    decreases st, 0, |st.elsifs| - i
  {
    if i < |st.elsifs| {
      StableTypes(st.elsifs[i].body, dt, types);
      StableTypesElsifs(st, i + 1, dt, types);
    }
  }

  lemma {:induction false} CodeTyped(code: seq<Instruction>, dt: u64, types: Types, r: RungState)
    requires WellTyped(types, r.plc) && forall i :: i in code ==> TypedInstruction(i, types)
    ensures WellTyped(types, ExecuteAll(code, dt, r).plc)
  {
    if code != [] {
      assert TypedInstruction(code[0], types);
      match code[0] {
        case OutputCoil(tag) => WriteTyped(types, r.plc, tag, Bool(r.power));
        case SetCoil(tag) => WriteTyped(types, r.plc, tag, Bool(true));
        case ResetCoil(tag) => WriteTyped(types, r.plc, tag, Bool(false));
        case TimerOnDelay(n, _, doneTag, _) =>
          WriteTyped(types, r.plc, doneTag, Bool(Execute(code[0], dt, r).plc.timers[n].done));
        case _ =>
      }
      CodeTyped(code[1..], dt, types, Execute(code[0], dt, r));
    }
  }

  lemma {:induction false} RungsTyped(rungs: seq<Rung>, dt: u64, types: Types, s: PlcState)
    requires WellTyped(types, s)
    requires forall r :: r in rungs ==> forall i :: i in r.instructions ==> TypedInstruction(i, types)
    ensures WellTyped(types, RunRungs(rungs, dt, s))
  {
    if rungs != [] {
      CodeTyped(rungs[0].instructions, dt, types, Fresh(s));
      RungsTyped(rungs[1..], dt, types, ExecuteAll(rungs[0].instructions, dt, Fresh(s)).plc);
    }
  }

  lemma {:induction false} PassTyped(ps: seq<Program>, dt: u64, types: Types, s: PlcState)
    requires WellTyped(types, s) && forall p :: p in ps && p.enabled ==> TypedProgram(p, types)
    ensures WellTyped(types, RunPrograms(ps, dt, s).state)
  {
    if ps != [] {
      var p := ps[0];
      assert p.enabled ==> TypedProgram(p, types);
      if !p.enabled {
      } else if p.language.StructuredText? {
        StableTypes(p.stAst, dt, types);
        RunKeeps(p.stAst, dt, s, TypeInv(types));
      } else {
        RungsTyped(p.rungs, dt, types, s);
      }
      PassTyped(ps[1..], dt, types, RunProgram(p, dt, s).state);
    }
  }

  /** What clients may write and force without breaking types. */
  predicate TypedEvent(e: Event, types: Types) {
    match e
    case WriteBool(n, _) => Accepts(types, n, BoolType)
    case WriteF64(n, _) => Accepts(types, n, Float64Type)
    case ForceBool(n, _) => Accepts(types, n, BoolType)
    case _ => true
  }

  /** Type preservation over whole runs: with well-typed programs and client events, after every event every
      stored and forced value has the variant of its tag's declared type, and no declaration changes. */
  lemma {:induction false} TypesPreserved(events: seq<Event>, programs: seq<Program>, types: Types, c: Controller)
    requires WellTyped(types, c.plc)
    requires forall p :: p in programs && p.enabled ==> TypedProgram(p, types)
    requires forall e :: e in events ==> TypedEvent(e, types)
    ensures WellTyped(types, HandleAll(events, programs, c).plc)
  {
    if events != [] {
      assert TypedEvent(events[0], types);
      match events[0] {
        case Scan(_) => PassTyped(programs, c.periodMs, types, c.plc);
        case WriteBool(n, b) => WriteTyped(types, c.plc, n, Bool(b));
        case WriteF64(n, r) => WriteTyped(types, c.plc, n, Float64(r));
        case ForceBool(n, b) =>
        case Unforce(n) =>
        case _ =>
      }
      TypesPreserved(events[1..], programs, types, Handle(events[0], programs, c));
    }
  }

  /** Loading a project establishes the types that well-typed programs then keep: from any project file, in any run. */
  lemma LoadedRunTyped(project: Project, events: seq<Event>, log: seq<StError>)
    requires var types := Declared(TagsOf(project.tags));
             && (forall p :: p in ProgramsOf(project.programs) ==> TypedProgram(p, types))
             && (forall e :: e in events ==> TypedEvent(e, types))
    ensures WellTyped(Declared(TagsOf(project.tags)),
                      HandleAll(events, ProgramsOf(project.programs), Loaded(project, log)).plc)
  {
    var db := TagsOf(project.tags);
    forall n | n in db ensures db[n].WellTyped() {
      TagsOfDefined(project.tags, n);
    }
    TypesPreserved(events, ProgramsOf(project.programs), Declared(db), Loaded(project, log));
  }

  /** The discipline is tight for assignments: an assignment that runs keeps the types exactly when it is typed. */
  lemma AssignmentTypedIff(v: string, e: StExpr, dt: u64, types: Types, s: PlcState)
    requires WellTyped(types, s) && Eval(e, s.db).Ok?
    ensures WellTyped(types, ExecStatement(Assignment(v, e), dt, s).state) <==> TypedOne(Assignment(v, e), types)
  {
    EvalTyped(e, types, s);
    var val := Stored(Eval(e, s.db).value);
    if Accepts(types, v, val.TypeOf()) {
      WriteTyped(types, s, v, val);
    } else {
      assert v in s.db;
      assert !WriteTag(s, v, val).db[v].WellTyped();
    }
  }
}
