/** Two runs of the same program side by side: what a run depends on. */
module TwoRuns {
  import opened Machine
  import opened Tags
  import opened Plc
  import opened StAst
  import opened StInterpreter
  import opened StInvariants
  import opened Ladder

  /** Equal tags; where a difference may hide, the same forced tag with possibly another stored value. */
  predicate SameTag(mayHide: bool, t1: Tag, t2: Tag) {
    t1 == t2 || (mayHide && t1.forced.Some? && t2 == t1.(value := t2.value))
  }

  /** The two states agree on the tags in `tags` and the timers in `timers`, except that the stored values
      of forced tags in `hidden` may differ. */
  ghost predicate Agree(tags: iset<string>, hidden: set<string>, timers: iset<string>, s1: PlcState, s2: PlcState) {
    && (forall n :: n in tags ==>
          && (n in s1.db <==> n in s2.db)
          && (n in s1.db ==> SameTag(n in hidden, s1.db[n], s2.db[n])))
    && (forall n :: n in timers ==>
          && (n in s1.timers <==> n in s2.timers)
          && (n in s1.timers ==> s1.timers[n] == s2.timers[n]))
  }

  ghost predicate Within(names: set<string>, universe: iset<string>) {
    forall n :: n in names ==> n in universe
  }

  /** The program names only tags and timers from the given universes. */
  ghost predicate Covered(f: Footprint, tags: iset<string>, timers: iset<string>) {
    Within(f.read, tags) && Within(f.written, tags) && Within(f.timers, timers)
  }

  ghost predicate SameOutcome(tags: iset<string>, hidden: set<string>, timers: iset<string>, o1: Outcome, o2: Outcome) {
    o1.error == o2.error && o1.work == o2.work && Agree(tags, hidden, timers, o1.state, o2.state)
  }

  // ----- Primitive steps -----

  lemma {:induction false} EvalAgrees(e: StExpr, tags: iset<string>, hidden: set<string>, timers: iset<string>,
                                      s1: PlcState, s2: PlcState)
    requires Agree(tags, hidden, timers, s1, s2) && Within(ReadsOf(e), tags)
    ensures Eval(e, s1.db) == Eval(e, s2.db)
  {
    match e
    case Literal(_) =>
    case Variable(n) => assert n in tags;
    case Unary(_, x) => EvalAgrees(x, tags, hidden, timers, s1, s2);
    case Binary(_, x, y) =>
      EvalAgrees(x, tags, hidden, timers, s1, s2);
      EvalAgrees(y, tags, hidden, timers, s1, s2);
  }

  lemma {:induction false} InputsAgree(inputs: seq<FbInput>, inVal: bool, pt: u64, tags: iset<string>,
                                       hidden: set<string>,
                                       timers: iset<string>, s1: PlcState, s2: PlcState)
    requires Agree(tags, hidden, timers, s1, s2) && Within(InputReads(inputs), tags)
    ensures EvalInputs(inputs, inVal, pt, s1.db) == EvalInputs(inputs, inVal, pt, s2.db)
  {
    if inputs != [] {
      EvalAgrees(inputs[0].expr, tags, hidden, timers, s1, s2);
      var v := Eval(inputs[0].expr, s1.db);
      var param := Upper(inputs[0].param);
      if param == "IN" {
        if v.Ok? {
          InputsAgree(inputs[1..], v.value.AsBool(), pt, tags, hidden, timers, s1, s2);
        }
      } else if param == "PT" {
        if v.Ok? {
          InputsAgree(inputs[1..], inVal, ToU64(v.value.AsF64()), tags, hidden, timers, s1, s2);
        }
      } else {
        InputsAgree(inputs[1..], inVal, pt, tags, hidden, timers, s1, s2);
      }
    }
  }

  lemma BoundsAgree(a: StExpr, b: StExpr, step: Option<StExpr>, tags: iset<string>, hidden: set<string>,
                    timers: iset<string>, s1: PlcState, s2: PlcState)
    requires Agree(tags, hidden, timers, s1, s2)
    requires Within(ReadsOf(a), tags) && Within(ReadsOf(b), tags) && (step.Some? ==> Within(ReadsOf(step.value), tags))
    ensures ForBounds(a, b, step, s1.db) == ForBounds(a, b, step, s2.db)
  {
    EvalAgrees(a, tags, hidden, timers, s1, s2);
    EvalAgrees(b, tags, hidden, timers, s1, s2);
    if step.Some? {
      EvalAgrees(step.value, tags, hidden, timers, s1, s2);
    }
  }

  lemma WriteAgrees(name: string, v: TagValue, tags: iset<string>, hidden: set<string>, timers: iset<string>,
                    s1: PlcState, s2: PlcState)
    requires Agree(tags, hidden, timers, s1, s2) && name in tags
    ensures Agree(tags, hidden, timers, WriteTag(s1, name, v), WriteTag(s2, name, v))
  {
  }

  lemma CallAgrees(n: string, inVal: bool, pt: u64, dt: u64, tags: iset<string>, hidden: set<string>,
                   timers: iset<string>, s1: PlcState, s2: PlcState)
    requires Agree(tags, hidden, timers, s1, s2) && n + "_Q" in tags && n in timers
    ensures Agree(tags, hidden, timers, CallTimer(s1, n, inVal, pt, dt), CallTimer(s2, n, inVal, pt, dt))
  {
    var t := CallTimer(s1, n, inVal, pt, dt).timers[n];
    WriteAgrees(n + "_Q", Bool(t.done), tags, hidden, timers,
                s1.(timers := s1.timers[n := t]), s2.(timers := s2.timers[n := t]));
  }

  // ----- Structured Text -----

  lemma {:induction false} StatementsAgree(ss: seq<StStatement>, dt: u64, tags: iset<string>, hidden: set<string>,
                                           timers: iset<string>, s1: PlcState, s2: PlcState)
    requires Agree(tags, hidden, timers, s1, s2) && Covered(FootprintOf(ss), tags, timers)
    ensures SameOutcome(tags, hidden, timers, ExecStatements(ss, dt, s1), ExecStatements(ss, dt, s2))
    decreases ss, 0, 0
  {
    if ss != [] {
      StatementAgrees(ss[0], dt, tags, hidden, timers, s1, s2);
      StatementsAgree(ss[1..], dt, tags, hidden, timers,
                      ExecStatement(ss[0], dt, s1).state, ExecStatement(ss[0], dt, s2).state);
    }
  }

  /** A statement's outcome, error and work included, depends only on the tags and timers it names, and
      not on the hidden values of forced tags. */
  lemma {:induction false} StatementAgrees(st: StStatement, dt: u64, tags: iset<string>, hidden: set<string>,
                                           timers: iset<string>, s1: PlcState, s2: PlcState)
    requires Agree(tags, hidden, timers, s1, s2) && Covered(FootprintOne(st), tags, timers)
    ensures SameOutcome(tags, hidden, timers, ExecStatement(st, dt, s1), ExecStatement(st, dt, s2))
    decreases st, 1, 0
  {
    match st
    case Assignment(v, e) =>
      EvalAgrees(e, tags, hidden, timers, s1, s2);
      var val := Eval(e, s1.db);
      if val.Ok? {
        WriteAgrees(v, Stored(val.value), tags, hidden, timers, s1, s2);
      }
    case If(c, thenBody, _, _) =>
      EvalAgrees(c, tags, hidden, timers, s1, s2);
      StatementsAgree(thenBody, dt, tags, hidden, timers, s1, s2);
      ElsifsAgree(st, 0, dt, tags, hidden, timers, s1, s2);
    case While(c, body) => WhileAgrees(c, body, MAX_LOOP, dt, tags, hidden, timers, s1, s2);
    case Repeat(body, c) => RepeatAgrees(body, c, MAX_LOOP, dt, tags, hidden, timers, s1, s2);
    case For(v, a, b, step, body) =>
      BoundsAgree(a, b, step, tags, hidden, timers, s1, s2);
      var bounds := ForBounds(a, b, step, s1.db);
      if bounds.Ok? {
        var (start, end, stride) := bounds.value;
        ForAgrees(v, body, start, end, stride, MAX_LOOP, dt, tags, hidden, timers, s1, s2);
      }
    case FbCall(n, inputs) =>
      InputsAgree(inputs, false, DEFAULT_PT, tags, hidden, timers, s1, s2);
      var args := EvalInputs(inputs, false, DEFAULT_PT, s1.db);
      if args.Ok? {
        CallAgrees(n, args.value.0, args.value.1, dt, tags, hidden, timers, s1, s2);
      }
  }

  lemma {:induction false} ElsifsAgree(st: StStatement, i: nat, dt: u64, tags: iset<string>, hidden: set<string>,
                                       timers: iset<string>, s1: PlcState, s2: PlcState)
    requires st.If? && i <= |st.elsifs|
    requires Agree(tags, hidden, timers, s1, s2) && Covered(ElsifFootprint(st, i), tags, timers)
    ensures SameOutcome(tags, hidden, timers, ExecElsifs(st, i, dt, s1), ExecElsifs(st, i, dt, s2))
    decreases st, 0, |st.elsifs| - i
  {
    if i < |st.elsifs| {
      EvalAgrees(st.elsifs[i].cond, tags, hidden, timers, s1, s2);
      StatementsAgree(st.elsifs[i].body, dt, tags, hidden, timers, s1, s2);
      ElsifsAgree(st, i + 1, dt, tags, hidden, timers, s1, s2);
    } else if st.elsePart.Else? {
      StatementsAgree(st.elsePart.body, dt, tags, hidden, timers, s1, s2);
    }
  }

  lemma {:induction false} WhileAgrees(c: StExpr, body: seq<StStatement>, fuel: nat, dt: u64, tags: iset<string>,
                                       hidden: set<string>, timers: iset<string>, s1: PlcState, s2: PlcState)
    requires fuel > 0 && Agree(tags, hidden, timers, s1, s2)
    requires Within(ReadsOf(c), tags) && Covered(FootprintOf(body), tags, timers)
    ensures SameOutcome(tags, hidden, timers, WhileLoop(c, body, fuel, dt, s1), WhileLoop(c, body, fuel, dt, s2))
    decreases body, 1, fuel
  {
    EvalAgrees(c, tags, hidden, timers, s1, s2);
    StatementsAgree(body, dt, tags, hidden, timers, s1, s2);
    if fuel > 1 {
      WhileAgrees(c, body, fuel - 1, dt, tags, hidden, timers,
                  ExecStatements(body, dt, s1).state, ExecStatements(body, dt, s2).state);
    }
  }

  lemma {:induction false} RepeatAgrees(body: seq<StStatement>, c: StExpr, fuel: nat, dt: u64, tags: iset<string>,
                                        hidden: set<string>, timers: iset<string>, s1: PlcState, s2: PlcState)
    requires fuel > 0 && Agree(tags, hidden, timers, s1, s2)
    requires Within(ReadsOf(c), tags) && Covered(FootprintOf(body), tags, timers)
    ensures SameOutcome(tags, hidden, timers, RepeatLoop(body, c, fuel, dt, s1), RepeatLoop(body, c, fuel, dt, s2))
    decreases body, 1, fuel
  {
    StatementsAgree(body, dt, tags, hidden, timers, s1, s2);
    var t1, t2 := ExecStatements(body, dt, s1).state, ExecStatements(body, dt, s2).state;
    EvalAgrees(c, tags, hidden, timers, t1, t2);
    if fuel > 1 {
      RepeatAgrees(body, c, fuel - 1, dt, tags, hidden, timers, t1, t2);
    }
  }

  lemma {:induction false} ForAgrees(v: string, body: seq<StStatement>, current: i64, end: i64, step: i64, fuel: nat,
                                     dt: u64, tags: iset<string>, hidden: set<string>, timers: iset<string>,
                                     s1: PlcState, s2: PlcState)
    requires fuel > 0 && Agree(tags, hidden, timers, s1, s2)
    requires v in tags && Covered(FootprintOf(body), tags, timers)
    ensures SameOutcome(tags, hidden, timers,
                        ForLoop(v, body, current, end, step, fuel, dt, s1),
                        ForLoop(v, body, current, end, step, fuel, dt, s2))
    decreases body, 1, fuel
  {
    var i := Int32(LowI32(current));
    var t1, t2 := WriteTag(s1, v, i), WriteTag(s2, v, i);
    WriteAgrees(v, i, tags, hidden, timers, s1, s2);
    StatementsAgree(body, dt, tags, hidden, timers, t1, t2);
    var next := AddI64(current, step);
    if fuel > 1 && next.Some? {
      ForAgrees(v, body, next.value, end, step, fuel - 1, dt, tags, hidden, timers,
                ExecStatements(body, dt, t1).state, ExecStatements(body, dt, t2).state);
    }
  }

  // ----- Ladder -----

  lemma InstructionAgrees(i: Instruction, dt: u64, tags: iset<string>, hidden: set<string>, timers: iset<string>,
                          r1: RungState, r2: RungState)
    requires r1.power == r2.power && r1.stack == r2.stack && Agree(tags, hidden, timers, r1.plc, r2.plc)
    requires Covered(InstructionFootprint(i), tags, timers)
    ensures var q1, q2 := Execute(i, dt, r1), Execute(i, dt, r2);
            q1.power == q2.power && q1.stack == q2.stack && Agree(tags, hidden, timers, q1.plc, q2.plc)
  {
    match i
    case ExamineOpen(tag) =>
    case ExamineClosed(tag) =>
    case OutputCoil(tag) => WriteAgrees(tag, Bool(r1.power), tags, hidden, timers, r1.plc, r2.plc);
    case SetCoil(tag) => WriteAgrees(tag, Bool(true), tags, hidden, timers, r1.plc, r2.plc);
    case ResetCoil(tag) => WriteAgrees(tag, Bool(false), tags, hidden, timers, r1.plc, r2.plc);
    case TimerOnDelay(n, enableTag, doneTag, _) =>
      var t := Execute(i, dt, r1).plc.timers[n];
      WriteAgrees(doneTag, Bool(t.done), tags, hidden, timers,
                  r1.plc.(timers := r1.plc.timers[n := t]), r2.plc.(timers := r2.plc.timers[n := t]));
    case _ =>
  }

  lemma {:induction false} CodeAgrees(code: seq<Instruction>, dt: u64, tags: iset<string>, hidden: set<string>,
                                      timers: iset<string>, r1: RungState, r2: RungState)
    requires r1.power == r2.power && r1.stack == r2.stack && Agree(tags, hidden, timers, r1.plc, r2.plc)
    requires Covered(CodeFootprint(code), tags, timers)
    ensures var q1, q2 := ExecuteAll(code, dt, r1), ExecuteAll(code, dt, r2);
            q1.power == q2.power && q1.stack == q2.stack && Agree(tags, hidden, timers, q1.plc, q2.plc)
  {
    if code != [] {
      InstructionAgrees(code[0], dt, tags, hidden, timers, r1, r2);
      CodeAgrees(code[1..], dt, tags, hidden, timers, Execute(code[0], dt, r1), Execute(code[0], dt, r2));
    }
  }
}
