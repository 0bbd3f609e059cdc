/** The Structured Text interpreter: expression evaluation, guarded statement execution as a
    total function on states, and the imperative interpreter proved to compute that function. */
module StInterpreter {
  import opened Machine
  import opened Tags
  import opened Timers
  import opened Plc
  import opened StAst

  /** Why a statement list stopped early.  The last two are Rust panics: the scan does not survive them. */
  datatype StError =
    | DivisionByZero | WhileGuard | RepeatGuard | ForGuard
    | RemainderPanic | CounterPanic
  {
    predicate IsPanic() {
      RemainderPanic? || CounterPanic?
    }

    predicate IsGuard() {
      WhileGuard? || RepeatGuard? || ForGuard?
    }
  }

  // ----- Expressions -----

  function LiteralValue(lit: StLiteral): TagValue {
    match lit
    case BoolLit(b) => Bool(b)
    case IntLit(i) => Int32(LowI32(i))
    case FloatLit(f) => Float64(f)
    case StringLit(s) => Str(s)
  }

  predicate SameValue(l: TagValue, r: TagValue) {
    Abs(l.AsF64() - r.AsF64()) < EPSILON && l.AsBool() == r.AsBool()
  }

  function ApplyBinary(op: BinaryOp, l: TagValue, r: TagValue): (v: Result<TagValue, StError>)
    ensures v.Err? ==> v.error.DivisionByZero? || v.error.RemainderPanic?
  {
    match op
    case And => Ok(Bool(l.AsBool() && r.AsBool()))
    case Or => Ok(Bool(l.AsBool() || r.AsBool()))
    case Xor => Ok(Bool(l.AsBool() != r.AsBool()))
    case Equal => Ok(Bool(SameValue(l, r)))
    case NotEqual => Ok(Bool(Abs(l.AsF64() - r.AsF64()) >= EPSILON || l.AsBool() != r.AsBool()))
    case LessThan => Ok(Bool(l.AsF64() < r.AsF64()))
    case GreaterThan => Ok(Bool(l.AsF64() > r.AsF64()))
    case LessOrEqual => Ok(Bool(l.AsF64() <= r.AsF64()))
    case GreaterOrEqual => Ok(Bool(l.AsF64() >= r.AsF64()))
    case Add => Ok(Float64(l.AsF64() + r.AsF64()))
    case Sub => Ok(Float64(l.AsF64() - r.AsF64()))
    case Mul => Ok(Float64(l.AsF64() * r.AsF64()))
    case Div =>
      var d := r.AsF64();
      if Abs(d) < EPSILON then Err(DivisionByZero) else Ok(Float64(l.AsF64() / d))
    case Mod =>
      var a, b := ToI64(l.AsF64()), ToI64(r.AsF64());
      if b == 0 || (a == I64_MIN && b == -1) then Err(RemainderPanic)
      else Ok(Int32(LowI32(TruncatedRemainder(a, b))))
  }

  function ApplyUnary(op: UnaryOp, v: TagValue): TagValue {
    match op
    case Not => Bool(!v.AsBool())
    case Negate => Float64(-v.AsF64())
  }

  /** Both operands are always evaluated, left first; an unknown variable reads as FALSE. */
  function Eval(e: StExpr, db: Db): (v: Result<TagValue, StError>)
    ensures v.Err? ==> v.error.DivisionByZero? || v.error.RemainderPanic?
  {
    match e
    case Literal(lit) => Ok(LiteralValue(lit))
    case Variable(n) => Ok(if n in db then db[n].Effective() else Bool(false))
    case Unary(op, x) =>
      var v :- Eval(x, db);
      Ok(ApplyUnary(op, v))
    case Binary(op, x, y) =>
      var l :- Eval(x, db);
      var r :- Eval(y, db);
      ApplyBinary(op, l, r)
  }

  // ----- Primitive effects -----

  /** The value an assignment stores: anything but the four kept variants becomes a float. */
  function Stored(v: TagValue): TagValue {
    if v.Bool? || v.Float64? || v.Int32? || v.Str? then v else Float64(v.AsF64())
  }

  /** The last IN and PT win; other parameters are not even evaluated. */
  function EvalInputs(inputs: seq<FbInput>, inVal: bool, pt: u64, db: Db): (args: Result<(bool, u64), StError>)
    ensures args.Err? ==> args.error.DivisionByZero? || args.error.RemainderPanic?
  {
    if inputs == [] then Ok((inVal, pt)) else
      var param := Upper(inputs[0].param);
      if param == "IN" then
        var v :- Eval(inputs[0].expr, db);
        EvalInputs(inputs[1..], v.AsBool(), pt, db)
      else if param == "PT" then
        var v :- Eval(inputs[0].expr, db);
        EvalInputs(inputs[1..], inVal, ToU64(v.AsF64()), db)
      else
        EvalInputs(inputs[1..], inVal, pt, db)
  }

  /** The truncated start, end and step of a FOR statement; a missing step is 1. */
  function ForBounds(a: StExpr, b: StExpr, step: Option<StExpr>, db: Db)
    : (bounds: Result<(i64, i64, i64), StError>)
    ensures bounds.Err? ==> bounds.error.DivisionByZero? || bounds.error.RemainderPanic?
  {
    var start :- Eval(a, db);
    var end :- Eval(b, db);
    var stride :- if step.Some? then Eval(step.value, db) else Ok(Int32(1));
    Ok((ToI64(start.AsF64()), ToI64(end.AsF64()), ToI64(stride.AsF64())))
  }

  /** One call of the named timer; its output goes to the tag `<name>_Q` when there is one. */
  function CallTimer(s: PlcState, name: string, inVal: bool, pt: u64, dt: u64): PlcState {
    var t := if name in s.timers then s.timers[name] else NewTon(pt);
    var t' := UpdateTon(t.(presetMs := pt), inVal, dt);
    PlcState(SetValue(s.db, name + "_Q", Bool(t'.done)), s.timers[name := t'])
  }

  // ----- Statements -----

  const MAX_LOOP: nat := 10000
  const DEFAULT_PT: u64 := 1000

  /** The state reached, the error that stopped execution early if any, and the number of
      statements and loop iterations started on the way. */
  datatype Outcome = Outcome(state: PlcState, error: Option<StError>, work: nat) {
    function Plus(w: nat): Outcome {
      this.(work := work + w)
    }
  }

  function InRange(current: int, end: int, step: int): bool {
    if step > 0 then current <= end else current >= end
  }

  function ExecStatements(ss: seq<StStatement>, dt: u64, s: PlcState): Outcome
    decreases ss, 0, 0
  {
    if ss == [] then Outcome(s, None, 0) else
      var o := ExecStatement(ss[0], dt, s);
      if o.error.Some? then o else ExecStatements(ss[1..], dt, o.state).Plus(o.work)
  }

  function ExecStatement(st: StStatement, dt: u64, s: PlcState): Outcome
    decreases st, 1, 0
  {
    match st
    case Assignment(v, e) =>
      (match Eval(e, s.db)
       case Err(err) => Outcome(s, Some(err), 1)
       case Ok(val) => Outcome(WriteTag(s, v, Stored(val)), None, 1))
    case If(c, thenBody, _, _) =>
      (match Eval(c, s.db)
       case Err(err) => Outcome(s, Some(err), 1)
       case Ok(val) =>
         if val.AsBool() then ExecStatements(thenBody, dt, s).Plus(1)
         else ExecElsifs(st, 0, dt, s).Plus(1))
    case While(c, body) => WhileLoop(c, body, MAX_LOOP, dt, s).Plus(1)
    case Repeat(body, c) => RepeatLoop(body, c, MAX_LOOP, dt, s).Plus(1)
    case For(v, a, b, step, body) =>
      (match ForBounds(a, b, step, s.db)
       case Err(err) => Outcome(s, Some(err), 1)
       case Ok((start, end, stride)) => ForLoop(v, body, start, end, stride, MAX_LOOP, dt, s).Plus(1))
    case FbCall(n, inputs) =>
      (match EvalInputs(inputs, false, DEFAULT_PT, s.db)
       case Err(err) => Outcome(s, Some(err), 1)
       case Ok((inVal, pt)) => Outcome(CallTimer(s, n, inVal, pt, dt), None, 1))
  }

  /** The ELSIF branches of an IF statement from branch i on, then its ELSE. */
  function ExecElsifs(st: StStatement, i: nat, dt: u64, s: PlcState): Outcome
    requires st.If? && i <= |st.elsifs|
    decreases st, 0, |st.elsifs| - i
  {
    if i == |st.elsifs| then
      match st.elsePart
      case NoElse => Outcome(s, None, 0)
      case Else(body) => ExecStatements(body, dt, s)
    else
      match Eval(st.elsifs[i].cond, s.db)
      case Err(err) => Outcome(s, Some(err), 0)
      case Ok(val) =>
        if val.AsBool() then ExecStatements(st.elsifs[i].body, dt, s)
        else ExecElsifs(st, i + 1, dt, s)
  }

  /** `fuel` is the guard counter: a body that uses up the last of it is an error. */
  function WhileLoop(c: StExpr, body: seq<StStatement>, fuel: nat, dt: u64, s: PlcState): Outcome
    requires fuel > 0
    decreases body, 1, fuel
  {
    match Eval(c, s.db)
    case Err(err) => Outcome(s, Some(err), 0)
    case Ok(val) =>
      if !val.AsBool() then Outcome(s, None, 0) else
        var o := ExecStatements(body, dt, s).Plus(1);
        if o.error.Some? then o
        else if fuel == 1 then o.(error := Some(WhileGuard))
        else WhileLoop(c, body, fuel - 1, dt, o.state).Plus(o.work)
  }

  function RepeatLoop(body: seq<StStatement>, c: StExpr, fuel: nat, dt: u64, s: PlcState): Outcome
    requires fuel > 0
    decreases body, 1, fuel
  {
    var o := ExecStatements(body, dt, s).Plus(1);
    if o.error.Some? then o else
      match Eval(c, o.state.db)
      case Err(err) => o.(error := Some(err))
      case Ok(val) =>
        if val.AsBool() then o
        else if fuel == 1 then o.(error := Some(RepeatGuard))
        else RepeatLoop(body, c, fuel - 1, dt, o.state).Plus(o.work)
  }

  function ForLoop(v: string, body: seq<StStatement>, current: i64, end: i64, step: i64,
                   fuel: nat, dt: u64, s: PlcState): Outcome
    requires fuel > 0
    decreases body, 1, fuel
  {
    if !InRange(current, end, step) then Outcome(s, None, 0) else
      var o := ExecStatements(body, dt, WriteTag(s, v, Int32(LowI32(current)))).Plus(1);
      if o.error.Some? then o
      else match AddI64(current, step)
           case None => o.(error := Some(CounterPanic))
           case Some(next) =>
             if fuel == 1 then o.(error := Some(ForGuard))
             else ForLoop(v, body, next, end, step, fuel - 1, dt, o.state).Plus(o.work)
  }

  // ----- The interpreter as an object updated in place -----

  class Interpreter {
    const db: TagDatabase
    const table: TimerTable
    const scanTimeMs: u64

    constructor (db: TagDatabase, table: TimerTable, scanTimeMs: u64)
      ensures this.db == db && this.table == table && this.scanTimeMs == scanTimeMs
    {
      this.db, this.table, this.scanTimeMs := db, table, scanTimeMs;
    }

    ghost function State(): PlcState
      reads db, table
    {
      PlcState(db.tags, table.timers)
    }

    method ExecuteStatements(ss: seq<StStatement>) returns (error: Option<StError>, ghost work: nat)
      modifies db, table
      ensures Outcome(State(), error, work) == ExecStatements(ss, scanTimeMs, old(State()))
      decreases ss, 0
    {
      error, work := None, 0;
      for i := 0 to |ss|
        invariant ExecStatements(ss, scanTimeMs, old(State()))
               == ExecStatements(ss[i..], scanTimeMs, State()).Plus(work)
      {
        ghost var w;
        error, w := ExecuteStatement(ss[i]);
        work := work + w;
        if error.Some? {
          return;
        }
      }
      error := None;
    }

    method ExecuteStatement(st: StStatement) returns (error: Option<StError>, ghost work: nat)
      modifies db, table
      ensures Outcome(State(), error, work) == ExecStatement(st, scanTimeMs, old(State()))
      decreases st, 1
    {
      work := 1;
      match st
      case Assignment(v, e) =>
        var val := Eval(e, db.tags);
        if val.Err? {
          return Some(val.error), work;
        }
        match val.value {
          case Bool(b) => db.WriteBool(v, b);
          case Float64(f) => db.WriteF64(v, f);
          case Int32(i) => db.SetTagValue(v, Int32(i));
          case Str(t) => db.SetTagValue(v, Str(t));
          case other => db.WriteF64(v, other.AsF64());
        }
        error := None;
      case If(_, _, _, _) =>
        error, work := ExecuteIf(st);
      case While(_, _) =>
        error, work := ExecuteWhile(st);
      case Repeat(_, _) =>
        error, work := ExecuteRepeat(st);
      case For(_, _, _, _, _) =>
        error, work := ExecuteFor(st);
      case FbCall(n, inputs) =>
        error := ExecuteFbCall(n, inputs);
    }

    method ExecuteIf(st: StStatement) returns (error: Option<StError>, ghost work: nat)
      requires st.If?
      modifies db, table
      ensures Outcome(State(), error, work) == ExecStatement(st, scanTimeMs, old(State()))
      decreases st, 0
    {
      var c := Eval(st.condition, db.tags);
      if c.Err? {
        return Some(c.error), 1;
      }
      if c.value.AsBool() {
        error, work := ExecuteStatements(st.thenBody);
        work := work + 1;
        return;
      }
      for i := 0 to |st.elsifs|
        invariant State() == old(State())
        invariant ExecElsifs(st, 0, scanTimeMs, State()) == ExecElsifs(st, i, scanTimeMs, State())
      {
        var branch := Eval(st.elsifs[i].cond, db.tags);
        if branch.Err? {
          return Some(branch.error), 1;
        }
        if branch.value.AsBool() {
          error, work := ExecuteStatements(st.elsifs[i].body);
          work := work + 1;
          return;
        }
      }
      error, work := None, 1;
      if st.elsePart.Else? {
        error, work := ExecuteStatements(st.elsePart.body);
        work := work + 1;
      }
    }

    method ExecuteWhile(st: StStatement) returns (error: Option<StError>, ghost work: nat)
      requires st.While?
      modifies db, table
      ensures Outcome(State(), error, work) == ExecStatement(st, scanTimeMs, old(State()))
      decreases st, 0
    {
      work := 1;
      var maxLoop := MAX_LOOP;
      while true
        invariant 0 < maxLoop
        invariant ExecStatement(st, scanTimeMs, old(State()))
               == WhileLoop(st.whileCond, st.whileBody, maxLoop, scanTimeMs, State()).Plus(work)
        decreases maxLoop
      {
        var c := Eval(st.whileCond, db.tags);
        if c.Err? {
          return Some(c.error), work;
        }
        if !c.value.AsBool() {
          return None, work;
        }
        ghost var w;
        error, w := ExecuteStatements(st.whileBody);
        work := work + w + 1;
        if error.Some? {
          return;
        }
        maxLoop := maxLoop - 1;
        if maxLoop == 0 {
          return Some(WhileGuard), work;
        }
      }
    }

    method ExecuteRepeat(st: StStatement) returns (error: Option<StError>, ghost work: nat)
      requires st.Repeat?
      modifies db, table
      ensures Outcome(State(), error, work) == ExecStatement(st, scanTimeMs, old(State()))
      decreases st, 0
    {
      work := 1;
      var maxLoop := MAX_LOOP;
      while true
        invariant 0 < maxLoop
        invariant ExecStatement(st, scanTimeMs, old(State()))
               == RepeatLoop(st.repeatBody, st.untilCond, maxLoop, scanTimeMs, State()).Plus(work)
        decreases maxLoop
      {
        ghost var w;
        error, w := ExecuteStatements(st.repeatBody);
        work := work + w + 1;
        if error.Some? {
          return;
        }
        var c := Eval(st.untilCond, db.tags);
        if c.Err? {
          return Some(c.error), work;
        }
        if c.value.AsBool() {
          return None, work;
        }
        maxLoop := maxLoop - 1;
        if maxLoop == 0 {
          return Some(RepeatGuard), work;
        }
      }
    }

    method ExecuteFor(st: StStatement) returns (error: Option<StError>, ghost work: nat)
      requires st.For?
      modifies db, table
      ensures Outcome(State(), error, work) == ExecStatement(st, scanTimeMs, old(State()))
      decreases st, 0
    {
      var bounds := ForBounds(st.start, st.end, st.step, db.tags);
      if bounds.Err? {
        return Some(bounds.error), 1;
      }
      error, work := IterateFor(st.loopVar, st.forBody, bounds.value.0, bounds.value.1, bounds.value.2);
      work := work + 1;
    }

    method IterateFor(v: string, body: seq<StStatement>, start: i64, end: i64, stride: i64)
      returns (error: Option<StError>, ghost work: nat)
      modifies db, table
      ensures Outcome(State(), error, work) == ForLoop(v, body, start, end, stride, MAX_LOOP, scanTimeMs, old(State()))
      decreases body, 1
    {
      work := 0;
      var current: i64 := start;
      var maxLoop := MAX_LOOP;
      while InRange(current, end, stride)
        invariant 0 < maxLoop
        invariant ForLoop(v, body, start, end, stride, MAX_LOOP, scanTimeMs, old(State()))
               == ForLoop(v, body, current, end, stride, maxLoop, scanTimeMs, State()).Plus(work)
        decreases maxLoop
      {
        db.SetTagValue(v, Int32(LowI32(current)));
        ghost var w;
        error, w := ExecuteStatements(body);
        work := work + w + 1;
        if error.Some? {
          return;
        }
        var next := AddI64(current, stride);
        if next.None? {
          return Some(CounterPanic), work;
        }
        current := next.value;
        maxLoop := maxLoop - 1;
        if maxLoop == 0 {
          return Some(ForGuard), work;
        }
      }
      error := None;
    }

    method ExecuteFbCall(name: string, inputs: seq<FbInput>) returns (error: Option<StError>)
      modifies db, table
      ensures Outcome(State(), error, 1) == ExecStatement(FbCall(name, inputs), scanTimeMs, old(State()))
    {
      var inVal, pt := false, DEFAULT_PT;
      for i := 0 to |inputs|
        invariant State() == old(State())
        invariant EvalInputs(inputs, false, DEFAULT_PT, db.tags) == EvalInputs(inputs[i..], inVal, pt, db.tags)
      {
        var param := Upper(inputs[i].param);
        if param == "IN" {
          var v := Eval(inputs[i].expr, db.tags);
          if v.Err? {
            return Some(v.error);
          }
          inVal := v.value.AsBool();
        } else if param == "PT" {
          var v := Eval(inputs[i].expr, db.tags);
          if v.Err? {
            return Some(v.error);
          }
          pt := ToU64(v.value.AsF64());
        }
      }
      var t := if name in table.timers then table.timers[name] else NewTon(pt);
      t := UpdateTon(t.(presetMs := pt), inVal, scanTimeMs);
      table.timers := table.timers[name := t];
      var q := name + "_Q";
      if q in db.tags {
        db.WriteBool(q, t.done);
      }
      error := None;
    }
  }
}
