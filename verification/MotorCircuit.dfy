/** The start/stop motor circuit in its two shipped forms -- a two-rung ladder latch and a Structured Text
    seal-in -- run side by side. */
module MotorCircuit {
  import opened Machine
  import opened Tags
  import opened Plc
  import opened StAst
  import opened StInterpreter
  import opened Ladder
  import opened ScanEngine
  import opened Diagnostics
  import opened Runtime
  import opened StTokens
  import opened StLexing
  import opened StPrinter
  import opened StSource

  const START := "Start_PB"
  const STOP := "Stop_PB"
  const ESTOP := "EStop_OK"
  const OVERLOAD := "Overload_OK"
  const LATCH := "Motor_Latch"
  const RUN := "Motor_Run"

  /** Start or seal-in, then the permissives, then the coil. */
  const SEAL_BRANCH: seq<Instruction> := [
    BranchStart, ExamineOpen(START), BranchNext, ExamineOpen(LATCH), BranchEnd
  ]

  const PERMISSIVES: seq<Instruction> := [
    ExamineClosed(STOP), ExamineOpen(ESTOP), ExamineOpen(OVERLOAD), OutputCoil(LATCH)
  ]

  const LATCH_RUNG: seq<Instruction> := SEAL_BRANCH + PERMISSIVES

  const RUN_RUNG: seq<Instruction> := [ExamineOpen(LATCH), OutputCoil(RUN)]

  const LADDER_MOTOR := Program("MotorControl", LadderLogic,
                                [Rung("Motor latch", LATCH_RUNG), Rung("Motor run output", RUN_RUNG)], [], true)

  function Both(op: BinaryOp, l: StExpr, r: StExpr): StExpr {
    Binary(op, l, r)
  }

  const START_OR_RUN: StExpr := Both(Or, Variable(START), Variable(RUN))
  const AND_NOT_STOP: StExpr := Both(And, START_OR_RUN, Unary(Not, Variable(STOP)))
  const AND_ESTOP: StExpr := Both(And, AND_NOT_STOP, Variable(ESTOP))
  const SEAL_IN: StExpr := Both(And, AND_ESTOP, Variable(OVERLOAD))

  const TEXT_MOTOR := Program("StMotorControl", StructuredText, [],
                              [If(SEAL_IN, [Assignment(RUN, Literal(BoolLit(true)))], [],
                                  Else([Assignment(RUN, Literal(BoolLit(false)))]))], true)

  /** The shipped text:
      `IF (Start_PB OR Motor_Run) AND NOT Stop_PB AND EStop_OK AND Overload_OK
       THEN Motor_Run := TRUE; ELSE ... END_IF;` */
  const TEXT_CONDITION: seq<Token> := [
    LeftParen, Identifier(START), KwOr, Identifier(RUN), RightParen, KwAnd, KwNot, Identifier(STOP),
    KwAnd, Identifier(ESTOP), KwAnd, Identifier(OVERLOAD)
  ]

  const TEXT_TOKENS: seq<Token> :=
    [KwIf] + TEXT_CONDITION + [KwThen]
    + [Identifier(RUN), Assign, KwTrue, Semicolon]
    + [KwElse, Identifier(RUN), Assign, KwFalse, Semicolon]
    + [KwEndIf, Semicolon]

  lemma ConditionPrints()
    ensures PrintExpr(0, SEAL_IN) == TEXT_CONDITION
  {
    assert PrintExpr(1, START_OR_RUN) == [LeftParen, Identifier(START), KwOr, Identifier(RUN), RightParen];
    assert PrintExpr(2, Unary(Not, Variable(STOP))) == [KwNot, Identifier(STOP)];
    assert PrintExpr(1, AND_NOT_STOP) == PrintExpr(1, START_OR_RUN) + [KwAnd] + [KwNot, Identifier(STOP)];
    assert PrintExpr(1, AND_ESTOP) == PrintExpr(1, AND_NOT_STOP) + [KwAnd] + [Identifier(ESTOP)];
    assert PrintExpr(0, SEAL_IN) == PrintExpr(1, AND_ESTOP) + [KwAnd] + [Identifier(OVERLOAD)];
  }

  lemma AssignmentPrints(b: bool)
    ensures PrintStatements([Assignment(RUN, Literal(BoolLit(b)))])
         == [Identifier(RUN), Assign, LiteralToken(BoolLit(b)), Semicolon]
  {
    var st := Assignment(RUN, Literal(BoolLit(b)));
    assert [st][1..] == [];
    assert PrintExpr(0, Literal(BoolLit(b))) == [LiteralToken(BoolLit(b))];
  }

  /** Any source text with these tokens -- the shipped one, or one laid out, commented or capitalised differently --
      parses to the program modelled here. */
  lemma ShippedTextParses(ps: seq<Piece>, last: Tail)
    requires WellSpaced(ps, last) && TokensOf(ps) == TEXT_TOKENS
    ensures ParseSt(Render(ps, last)) == Ok(TEXT_MOTOR.stAst)
  {
    TextPrints();
    SourceRoundTrip(TEXT_MOTOR.stAst, ps, last);
  }

  lemma TextPrints()
    ensures PrintStatements(TEXT_MOTOR.stAst) == TEXT_TOKENS
  {
    var st := TEXT_MOTOR.stAst[0];
    assert TEXT_MOTOR.stAst[1..] == [];
    ConditionPrints();
    AssignmentPrints(true);
    AssignmentPrints(false);
    assert PrintElsifs([]) == [];
    assert PrintElse(st.elsePart) == [KwElse, Identifier(RUN), Assign, KwFalse, Semicolon];
    assert PrintStatement(st) == TEXT_TOKENS;
  }

  // ----- What one scan computes -----

  /** The four operator inputs as a scan sees them. */
  datatype Inputs = Inputs(start: bool, stop: bool, estop: bool, overload: bool) {
    predicate Permissive() {
      !stop && estop && overload
    }
  }

  function NextMotor(i: Inputs, motor: bool): bool {
    (i.start || motor) && i.Permissive()
  }

  predicate PlainBool(db: Db, name: string) {
    name in db && db[name].forced.None? && db[name].value.Bool?
  }

  predicate MotorTags(db: Db) {
    PlainBool(db, START) && PlainBool(db, STOP) && PlainBool(db, ESTOP) && PlainBool(db, OVERLOAD) && PlainBool(db, RUN)
  }

  function Sees(db: Db): Inputs {
    Inputs(ReadBool(db, START), ReadBool(db, STOP), ReadBool(db, ESTOP), ReadBool(db, OVERLOAD))
  }

  lemma StepAt(code: seq<Instruction>, k: nat, dt: u64, r: RungState)
    requires k < |code|
    ensures ExecuteAll(code[k..], dt, r) == ExecuteAll(code[k + 1..], dt, Execute(code[k], dt, r))
  {
    assert code[k..][1..] == code[k + 1..];
  }

  lemma SealBranch(dt: u64, s: PlcState)
    ensures ExecuteAll(SEAL_BRANCH, dt, Fresh(s)) == RungState(ReadBool(s.db, START) || ReadBool(s.db, LATCH), [], s)
  {
    var code := SEAL_BRANCH;
    var start, m := ReadBool(s.db, START), ReadBool(s.db, LATCH);
    assert code[0..] == code;
    StepAt(code, 0, dt, Fresh(s));
    var f := BranchFrame(true, false);
    StepAt(code, 1, dt, RungState(true, [f], s));
    StepAt(code, 2, dt, RungState(start, [f], s));
    var g := BranchFrame(true, start);
    StepAt(code, 3, dt, RungState(true, [g], s));
    StepAt(code, 4, dt, RungState(m, [g], s));
  }

  lemma Permissives(dt: u64, s: PlcState, power: bool)
    ensures ExecuteAll(PERMISSIVES, dt, RungState(power, [], s)).plc
         == WriteTag(s, LATCH, Bool(power && Sees(s.db).Permissive()))
  {
    var code := PERMISSIVES;
    var i := Sees(s.db);
    assert code[0..] == code;
    StepAt(code, 0, dt, RungState(power, [], s));
    StepAt(code, 1, dt, RungState(power && !i.stop, [], s));
    StepAt(code, 2, dt, RungState(power && !i.stop && i.estop, [], s));
    StepAt(code, 3, dt, RungState(power && i.Permissive(), [], s));
  }

  lemma LatchRung(dt: u64, s: PlcState)
    ensures ExecuteAll(LATCH_RUNG, dt, Fresh(s)).plc
         == WriteTag(s, LATCH, Bool(NextMotor(Sees(s.db), ReadBool(s.db, LATCH))))
  {
    ExecuteAppend(SEAL_BRANCH, PERMISSIVES, dt, Fresh(s));
    SealBranch(dt, s);
    Permissives(dt, s, ReadBool(s.db, START) || ReadBool(s.db, LATCH));
  }

  lemma RunRung(dt: u64, s: PlcState)
    ensures ExecuteAll(RUN_RUNG, dt, Fresh(s)).plc == WriteTag(s, RUN, Bool(ReadBool(s.db, LATCH)))
  {
    assert RUN_RUNG[0..] == RUN_RUNG;
    StepAt(RUN_RUNG, 0, dt, Fresh(s));
    StepAt(RUN_RUNG, 1, dt, RungState(ReadBool(s.db, LATCH), [], s));
  }

  lemma LadderScan(dt: u64, s: PlcState)
    requires MotorTags(s.db) && PlainBool(s.db, LATCH)
    ensures var m := Bool(NextMotor(Sees(s.db), ReadBool(s.db, LATCH)));
            RunPrograms([LADDER_MOTOR], dt, s) == PassEnd(WriteTag(WriteTag(s, LATCH, m), RUN, m), [])
  {
    LatchRung(dt, s);
    var s1 := ExecuteAll(LATCH_RUNG, dt, Fresh(s)).plc;
    RunRung(dt, s1);
    var rungs := LADDER_MOTOR.rungs;
    assert rungs[1..] == [Rung("Motor run output", RUN_RUNG)] && rungs[1..][1..] == [];
    assert RunRungs(rungs[1..], dt, s1) == RunRungs([], dt, ExecuteAll(RUN_RUNG, dt, Fresh(s1)).plc);
  }

  lemma SealInValue(db: Db)
    requires MotorTags(db)
    ensures Eval(SEAL_IN, db) == Ok(Bool(NextMotor(Sees(db), ReadBool(db, RUN))))
  {
    var i, m := Sees(db), ReadBool(db, RUN);
    assert Eval(START_OR_RUN, db) == Ok(Bool(i.start || m));
    assert Eval(Unary(Not, Variable(STOP)), db) == Ok(Bool(!i.stop));
    assert Eval(AND_NOT_STOP, db) == Ok(Bool((i.start || m) && !i.stop));
    assert Eval(AND_ESTOP, db) == Ok(Bool((i.start || m) && !i.stop && i.estop));
  }

  lemma TextScan(dt: u64, s: PlcState)
    requires MotorTags(s.db)
    ensures RunPrograms([TEXT_MOTOR], dt, s)
         == PassEnd(WriteTag(s, RUN, Bool(NextMotor(Sees(s.db), ReadBool(s.db, RUN)))), [])
  {
    var m := NextMotor(Sees(s.db), ReadBool(s.db, RUN));
    SealInValue(s.db);
    SingleStatement(TEXT_MOTOR.stAst[0], dt, s);
    SingleStatement(Assignment(RUN, Literal(BoolLit(m))), dt, s);
  }

  lemma SingleStatement(st: StStatement, dt: u64, s: PlcState)
    ensures var all, one := ExecStatements([st], dt, s), ExecStatement(st, dt, s);
            all.state == one.state && all.error == one.error
  {
    assert [st][1..] == [];
  }

  // ----- Whole runs -----

  predicate IsInput(n: string) {
    n == START || n == STOP || n == ESTOP || n == OVERLOAD
  }

  /** The operator presses and releases; the controller scans, at a period that may change. */
  predicate MotorEvent(e: Event) {
    e.Scan? || e.SetPeriod? || (e.WriteBool? && IsInput(e.name))
  }

  function SetInput(i: Inputs, n: string, b: bool): Inputs {
    if n == START then i.(start := b)
    else if n == STOP then i.(stop := b)
    else if n == ESTOP then i.(estop := b)
    else i.(overload := b)
  }

  /** What each scan of the run sees. */
  function Scans(events: seq<Event>, i: Inputs): seq<Inputs> {
    if events == [] then []
    else match events[0]
         case Scan(_) => [i] + Scans(events[1..], i)
         case WriteBool(n, b) => Scans(events[1..], SetInput(i, n, b))
         case _ => Scans(events[1..], i)
  }

  function MotorAfter(motor: bool, scans: seq<Inputs>): bool
    decreases scans
  {
    if scans == [] then motor else MotorAfter(NextMotor(scans[0], motor), scans[1..])
  }

  /** Both circuits run, see the same inputs, and hold the same motor state, which the ladder also latches. */
  ghost predicate Lockstep(ld: Controller, st: Controller, i: Inputs, motor: bool) {
    && ld.mode.Running? && st.mode.Running?
    && MotorTags(ld.plc.db) && PlainBool(ld.plc.db, LATCH) && MotorTags(st.plc.db)
    && Sees(ld.plc.db) == i && Sees(st.plc.db) == i
    && ReadBool(ld.plc.db, LATCH) == motor && ReadBool(ld.plc.db, RUN) == motor && ReadBool(st.plc.db, RUN) == motor
  }

  lemma MotorWrite(s: PlcState, n: string, b: bool)
    requires MotorTags(s.db) && PlainBool(s.db, n)
    ensures var db := WriteTag(s, n, Bool(b)).db;
            && MotorTags(db) && PlainBool(db, n) && ReadBool(db, n) == b
            && Sees(db) == (if IsInput(n) then SetInput(Sees(s.db), n, b) else Sees(s.db))
            && (n != RUN ==> ReadBool(db, RUN) == ReadBool(s.db, RUN))
            && (n != LATCH ==> ReadBool(db, LATCH) == ReadBool(s.db, LATCH))
            && (PlainBool(s.db, LATCH) ==> PlainBool(db, LATCH))
  {
  }

  lemma ScanLockstep(elapsed: nat, ld: Controller, st: Controller, i: Inputs, motor: bool)
    requires Lockstep(ld, st, i, motor)
    ensures Lockstep(Handle(Scan(elapsed), [LADDER_MOTOR], ld), Handle(Scan(elapsed), [TEXT_MOTOR], st),
                     i, NextMotor(i, motor))
  {
    var m := NextMotor(i, motor);
    LadderScan(ld.periodMs, ld.plc);
    TextScan(st.periodMs, st.plc);
    MotorWrite(ld.plc, LATCH, m);
    MotorWrite(WriteTag(ld.plc, LATCH, Bool(m)), RUN, m);
    MotorWrite(st.plc, RUN, m);
  }

  lemma {:induction false} RunLockstep(events: seq<Event>, ld: Controller, st: Controller, i: Inputs, motor: bool)
    returns (last: Inputs)
    requires Lockstep(ld, st, i, motor) && forall e :: e in events ==> MotorEvent(e)
    ensures Lockstep(HandleAll(events, [LADDER_MOTOR], ld), HandleAll(events, [TEXT_MOTOR], st),
                     last, MotorAfter(motor, Scans(events, i)))
  {
    if events == [] {
      last := i;
    } else {
      var e := events[0];
      assert MotorEvent(e);
      var ld', st' := Handle(e, [LADDER_MOTOR], ld), Handle(e, [TEXT_MOTOR], st);
      match e {
        case Scan(elapsed) =>
          ScanLockstep(elapsed, ld, st, i, motor);
          last := RunLockstep(events[1..], ld', st', i, NextMotor(i, motor));
          var scans := Scans(events, i);
          assert scans[1..] == Scans(events[1..], i);
        case SetPeriod(_) =>
          last := RunLockstep(events[1..], ld', st', i, motor);
        case WriteBool(n, b) =>
          MotorWrite(ld.plc, n, b);
          MotorWrite(st.plc, n, b);
          last := RunLockstep(events[1..], ld', st', SetInput(i, n, b), motor);
      }
    }
  }

  /** Since scan k, which saw the start button, no permissive has dropped. */
  ghost predicate StartedAt(scans: seq<Inputs>, k: nat)
    requires k < |scans|
  {
    scans[k].start && forall j :: k <= j < |scans| ==> scans[j].Permissive()
  }

  /** Some scan saw the start button, and no permissive has dropped since. */
  ghost predicate SealedIn(scans: seq<Inputs>) {
    exists k :: 0 <= k < |scans| && StartedAt(scans, k)
  }

  lemma {:induction false} SealIn(motor: bool, scans: seq<Inputs>)
    ensures MotorAfter(motor, scans) <==>
              || (motor && forall j :: 0 <= j < |scans| ==> scans[j].Permissive())
              || SealedIn(scans)
    decreases scans
  {
    if scans != [] {
      var rest, first := scans[1..], NextMotor(scans[0], motor);
      SealIn(first, rest);
      assert forall j :: 1 <= j < |scans| ==> scans[j] == rest[j - 1];
      forall k | 0 <= k < |rest| ensures StartedAt(rest, k) == StartedAt(scans, k + 1) {
        assert forall j :: k <= j < |rest| ==> rest[j] == scans[j + 1];
      }
      if k :| 0 <= k < |scans| && StartedAt(scans, k) {
        if k > 0 {
          assert StartedAt(rest, k - 1);
        }
      }
      if first && scans[0].start && forall j :: 0 <= j < |rest| ==> rest[j].Permissive() {
        assert StartedAt(scans, 0);
      }
    }
  }

  /** Lockstep and safety.  From motor-off, under any number of button events and scans in any order, both circuits
      show the same motor state, and the motor runs exactly when some scan saw the start button and every scan since
      then, that one included, saw both permissives and no stop. */
  lemma MotorsAgree(events: seq<Event>, ld: Controller, st: Controller, i: Inputs)
    requires Lockstep(ld, st, i, false) && forall e :: e in events ==> MotorEvent(e)
    ensures var ld', st' := HandleAll(events, [LADDER_MOTOR], ld), HandleAll(events, [TEXT_MOTOR], st);
            var scans := Scans(events, i);
            && ReadBool(ld'.plc.db, RUN) == ReadBool(st'.plc.db, RUN)
            && ReadBool(ld'.plc.db, RUN) == SealedIn(scans)
  {
    var _ := RunLockstep(events, ld, st, i, false);
    SealIn(false, Scans(events, i));
  }

  lemma {:induction false} HandleLast(events: seq<Event>, e: Event, programs: seq<Program>, c: Controller)
    ensures HandleAll(events + [e], programs, c) == Handle(e, programs, HandleAll(events, programs, c))
  {
    if events == [] {
      assert [e][1..] == [];
    } else {
      assert (events + [e])[1..] == events[1..] + [e];
      HandleLast(events[1..], e, programs, Handle(events[0], programs, c));
    }
  }

  /** After every scan of every run, if either circuit runs its motor then the tags of both hold EStop_OK, Overload_OK
      and no Stop_PB. */
  lemma RunningIsSafe(events: seq<Event>, elapsed: nat, ld: Controller, st: Controller, i: Inputs)
    requires Lockstep(ld, st, i, false) && forall e :: e in events ==> MotorEvent(e)
    ensures var ld' := HandleAll(events + [Scan(elapsed)], [LADDER_MOTOR], ld);
            var st' := HandleAll(events + [Scan(elapsed)], [TEXT_MOTOR], st);
            ReadBool(ld'.plc.db, RUN) || ReadBool(st'.plc.db, RUN) ==>
              Sees(ld'.plc.db).Permissive() && Sees(st'.plc.db).Permissive()
  {
    var last := RunLockstep(events, ld, st, i, false);
    HandleLast(events, Scan(elapsed), [LADDER_MOTOR], ld);
    HandleLast(events, Scan(elapsed), [TEXT_MOTOR], st);
    ScanLockstep(elapsed, HandleAll(events, [LADDER_MOTOR], ld), HandleAll(events, [TEXT_MOTOR], st),
                 last, MotorAfter(false, Scans(events, i)));
  }

  // ----- The shipped starting point -----

  function BoolTag(name: string, b: bool): Tag {
    NewBool(name).(value := Bool(b))
  }

  /** Permissives on, everything else off. */
  const MOTOR_TAGS: Db := map[
    START := BoolTag(START, false), STOP := BoolTag(STOP, false), ESTOP := BoolTag(ESTOP, true),
    OVERLOAD := BoolTag(OVERLOAD, true), LATCH := BoolTag(LATCH, false), RUN := BoolTag(RUN, false)
  ]

  /** The circuits as shipped start in lockstep with the motor off. */
  lemma ShippedStart(periodMs: u64)
    ensures var c := Controller(Running, PlcState(MOTOR_TAGS, map[]), periodMs, NewStats(Nanos(periodMs)), []);
            Lockstep(c, c, Inputs(false, false, true, true), false)
  {
  }
}
