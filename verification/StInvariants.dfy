/** An invariant principle for Structured Text runs, and what follows from it: a run touches only the
    tags and timers its text names as targets, never a force, a type or the set of tags. */
module StInvariants {
  import opened Machine
  import opened Tags
  import opened Plc
  import opened StAst
  import opened StInterpreter

  /** Every primitive effect that occurs in the statements keeps `inv`. */
  ghost predicate Stable(ss: seq<StStatement>, dt: u64, inv: PlcState -> bool)
    decreases ss, 0, 0
  {
    ss == [] || (StableOne(ss[0], dt, inv) && Stable(ss[1..], dt, inv))
  }

  ghost predicate StableOne(st: StStatement, dt: u64, inv: PlcState -> bool)
    decreases st, 1, 0
  {
    match st
    case Assignment(v, e) =>
      forall s :: inv(s) && Eval(e, s.db).Ok? ==> inv(WriteTag(s, v, Stored(Eval(e, s.db).value)))
    case If(_, thenBody, _, elsePart) =>
      && Stable(thenBody, dt, inv)
      && StableElsifs(st, 0, dt, inv)
      && (elsePart.Else? ==> Stable(elsePart.body, dt, inv))
    case While(_, body) => Stable(body, dt, inv)
    case Repeat(body, _) => Stable(body, dt, inv)
    case For(v, _, _, _, body) =>
      && (forall s, i: i32 :: inv(s) ==> inv(WriteTag(s, v, Int32(i))))
      && Stable(body, dt, inv)
    case FbCall(n, _) =>
      forall s, inVal, pt: u64 :: inv(s) ==> inv(CallTimer(s, n, inVal, pt, dt))
  }

  ghost predicate StableElsifs(st: StStatement, i: nat, dt: u64, inv: PlcState -> bool)
    requires st.If? && i <= |st.elsifs|
    decreases st, 0, |st.elsifs| - i
  {
    i == |st.elsifs| || (Stable(st.elsifs[i].body, dt, inv) && StableElsifs(st, i + 1, dt, inv))
  }

  /** An invariant kept by every primitive effect is kept by the whole run, however it ends. */
  lemma {:induction false} RunKeeps(ss: seq<StStatement>, dt: u64, s: PlcState, inv: PlcState -> bool)
    requires inv(s) && Stable(ss, dt, inv)
    ensures inv(ExecStatements(ss, dt, s).state)
    decreases ss, 0, 0
  {
    if ss != [] {
      StatementKeeps(ss[0], dt, s, inv);
      RunKeeps(ss[1..], dt, ExecStatement(ss[0], dt, s).state, inv);
    }
  }

  lemma {:induction false} StatementKeeps(st: StStatement, dt: u64, s: PlcState, inv: PlcState -> bool)
    requires inv(s) && StableOne(st, dt, inv)
    ensures inv(ExecStatement(st, dt, s).state)
    decreases st, 1, 0
  {
    match st
    case Assignment(_, _) =>
    case FbCall(_, _) =>
    case If(_, thenBody, _, _) =>
      RunKeeps(thenBody, dt, s, inv);
      ElsifsKeep(st, 0, dt, s, inv);
    case While(c, body) => WhileKeeps(c, body, MAX_LOOP, dt, s, inv);
    case Repeat(body, c) => RepeatKeeps(body, c, MAX_LOOP, dt, s, inv);
    case For(v, a, b, step, body) =>
      var bounds := ForBounds(a, b, step, s.db);
      if bounds.Ok? {
        ForKeeps(v, body, bounds.value.0, bounds.value.1, bounds.value.2, MAX_LOOP, dt, s, inv);
      }
  }

  lemma {:induction false} ElsifsKeep(st: StStatement, i: nat, dt: u64, s: PlcState, inv: PlcState -> bool)
    requires st.If? && i <= |st.elsifs| && inv(s) && StableElsifs(st, i, dt, inv)
    requires st.elsePart.Else? ==> Stable(st.elsePart.body, dt, inv)
    ensures inv(ExecElsifs(st, i, dt, s).state)
    decreases st, 0, |st.elsifs| - i
  {
    if i < |st.elsifs| {
      RunKeeps(st.elsifs[i].body, dt, s, inv);
      ElsifsKeep(st, i + 1, dt, s, inv);
    } else if st.elsePart.Else? {
      RunKeeps(st.elsePart.body, dt, s, inv);
    }
  }

  lemma {:induction false} WhileKeeps(c: StExpr, body: seq<StStatement>, fuel: nat, dt: u64, s: PlcState,
                                      inv: PlcState -> bool)
    requires fuel > 0 && inv(s) && Stable(body, dt, inv)
    ensures inv(WhileLoop(c, body, fuel, dt, s).state)
    decreases body, 1, fuel
  {
    RunKeeps(body, dt, s, inv);
    if fuel > 1 {
      WhileKeeps(c, body, fuel - 1, dt, ExecStatements(body, dt, s).state, inv);
    }
  }

  lemma {:induction false} RepeatKeeps(body: seq<StStatement>, c: StExpr, fuel: nat, dt: u64, s: PlcState,
                                       inv: PlcState -> bool)
    requires fuel > 0 && inv(s) && Stable(body, dt, inv)
    ensures inv(RepeatLoop(body, c, fuel, dt, s).state)
    decreases body, 1, fuel
  {
    RunKeeps(body, dt, s, inv);
    if fuel > 1 {
      RepeatKeeps(body, c, fuel - 1, dt, ExecStatements(body, dt, s).state, inv);
    }
  }

  lemma {:induction false} ForKeeps(v: string, body: seq<StStatement>, current: i64, end: i64, step: i64, fuel: nat,
                                    dt: u64, s: PlcState, inv: PlcState -> bool)
    requires fuel > 0 && inv(s) && Stable(body, dt, inv)
    requires forall s, i: i32 :: inv(s) ==> inv(WriteTag(s, v, Int32(i)))
    ensures inv(ForLoop(v, body, current, end, step, fuel, dt, s).state)
    decreases body, 1, fuel
  {
    var s1 := WriteTag(s, v, Int32(LowI32(current)));
    RunKeeps(body, dt, s1, inv);
    var next := AddI64(current, step);
    if fuel > 1 && next.Some? {
      ForKeeps(v, body, next.value, end, step, fuel - 1, dt, ExecStatements(body, dt, s1).state, inv);
    }
  }

  // ----- Footprints -----

  function ReadsOf(e: StExpr): set<string> {
    match e
    case Literal(_) => {}
    case Variable(n) => {n}
    case Unary(_, x) => ReadsOf(x)
    case Binary(_, x, y) => ReadsOf(x) + ReadsOf(y)
  }

  function InputReads(inputs: seq<FbInput>): set<string> {
    if inputs == [] then {} else ReadsOf(inputs[0].expr) + InputReads(inputs[1..])
  }

  function FootprintOf(ss: seq<StStatement>): Footprint
    decreases ss, 0, 0
  {
    if ss == [] then Footprint({}, {}, {}) else FootprintOne(ss[0]).Union(FootprintOf(ss[1..]))
  }

  function FootprintOne(st: StStatement): Footprint
    decreases st, 1, 0
  {
    match st
    case Assignment(v, e) => Footprint(ReadsOf(e), {v}, {})
    case If(c, thenBody, _, _) => Reading(ReadsOf(c)).Union(FootprintOf(thenBody)).Union(ElsifFootprint(st, 0))
    case While(c, body) => Reading(ReadsOf(c)).Union(FootprintOf(body))
    case Repeat(body, c) => Reading(ReadsOf(c)).Union(FootprintOf(body))
    case For(v, a, b, step, body) =>
      Footprint(ReadsOf(a) + ReadsOf(b) + (if step.Some? then ReadsOf(step.value) else {}), {v}, {})
      .Union(FootprintOf(body))
    case FbCall(n, inputs) => Footprint(InputReads(inputs), {n + "_Q"}, {n})
  }

  function ElsifFootprint(st: StStatement, i: nat): Footprint
    requires st.If? && i <= |st.elsifs|
    decreases st, 0, |st.elsifs| - i
  {
    if i == |st.elsifs| then
      match st.elsePart
      case NoElse => Footprint({}, {}, {})
      case Else(body) => FootprintOf(body)
    else
      Reading(ReadsOf(st.elsifs[i].cond)).Union(FootprintOf(st.elsifs[i].body)).Union(ElsifFootprint(st, i + 1))
  }

  // ----- Frame -----

  ghost function FrameInv(s0: PlcState, tags: set<string>, timers: set<string>): PlcState -> bool {
    s => Framed(s0, s, tags, timers)
  }

  lemma {:induction false} StableFrame(ss: seq<StStatement>, dt: u64, s0: PlcState, tags: set<string>,
                                       timers: set<string>)
    requires FootprintOf(ss).written <= tags && FootprintOf(ss).timers <= timers
    ensures Stable(ss, dt, FrameInv(s0, tags, timers))
    decreases ss, 0, 0
  {
    if ss != [] {
      StableFrameOne(ss[0], dt, s0, tags, timers);
      StableFrame(ss[1..], dt, s0, tags, timers);
    }
  }

  lemma {:induction false} StableFrameOne(st: StStatement, dt: u64, s0: PlcState, tags: set<string>,
                                          timers: set<string>)
    requires FootprintOne(st).written <= tags && FootprintOne(st).timers <= timers
    ensures StableOne(st, dt, FrameInv(s0, tags, timers))
    decreases st, 1, 0
  {
    var inv := FrameInv(s0, tags, timers);
    match st
    case Assignment(v, e) =>
      forall s | inv(s) && Eval(e, s.db).Ok? ensures inv(WriteTag(s, v, Stored(Eval(e, s.db).value))) {
        FramedWrite(s0, s, tags, timers, v, Stored(Eval(e, s.db).value));
      }
    case FbCall(n, _) =>
      forall s, inVal, pt: u64 | inv(s) ensures inv(CallTimer(s, n, inVal, pt, dt)) {
      }
    case If(_, thenBody, _, elsePart) =>
      StableFrame(thenBody, dt, s0, tags, timers);
      StableFrameElsifs(st, 0, dt, s0, tags, timers);
    case While(_, body) => StableFrame(body, dt, s0, tags, timers);
    case Repeat(body, _) => StableFrame(body, dt, s0, tags, timers);
    case For(v, _, _, _, body) =>
      forall s, i: i32 | inv(s) ensures inv(WriteTag(s, v, Int32(i))) {
        FramedWrite(s0, s, tags, timers, v, Int32(i));
      }
      StableFrame(body, dt, s0, tags, timers);
  }

  lemma {:induction false} StableFrameElsifs(st: StStatement, i: nat, dt: u64, s0: PlcState, tags: set<string>,
                                             timers: set<string>)
    requires st.If? && i <= |st.elsifs|
    requires ElsifFootprint(st, i).written <= tags && ElsifFootprint(st, i).timers <= timers
    ensures StableElsifs(st, i, dt, FrameInv(s0, tags, timers))
    ensures st.elsePart.Else? ==> Stable(st.elsePart.body, dt, FrameInv(s0, tags, timers))
    decreases st, 0, |st.elsifs| - i
  {
    if i < |st.elsifs| {
      StableFrame(st.elsifs[i].body, dt, s0, tags, timers);
      StableFrameElsifs(st, i + 1, dt, s0, tags, timers);
    } else if st.elsePart.Else? {
      StableFrame(st.elsePart.body, dt, s0, tags, timers);
    }
  }

  /** Frame theorem: a run, however it ends, changes at most the values of its written tags (assignment
      targets, FOR variables, `<timer>_Q`) and the timers it calls. */
  lemma RunFrame(ss: seq<StStatement>, dt: u64, s: PlcState)
    ensures Framed(s, ExecStatements(ss, dt, s).state, FootprintOf(ss).written, FootprintOf(ss).timers)
  {
    var f := FootprintOf(ss);
    StableFrame(ss, dt, s, f.written, f.timers);
    RunKeeps(ss, dt, s, FrameInv(s, f.written, f.timers));
  }
}
