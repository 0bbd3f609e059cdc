/** What the iteration limits change.  The unguarded semantics ends in at most one way; the interpreter ends that way
    or stops with a guard error, and does the latter exactly when the run exceeds the limits; and for loops that end by
    themselves at any chosen count, this is where the limits begin to bite. */
module StLimits {
  import opened Machine
  import opened Tags
  import opened Plc
  import opened StAst
  import opened StInterpreter
  import opened StBigStep

  // ----- The limits only restrict -----

  lemma {:induction false} StepsUncap(ss: seq<StStatement>, dt: u64, s: PlcState, e: End)
    requires Steps(ss, dt, s, e, true)
    ensures Steps(ss, dt, s, e, false)
    decreases ss, 0, 0
  {
    if ss != [] {
      var f := StepsFirst(ss, dt, s, e, true);
      StepUncap(ss[0], dt, s, f);
      if f.error.None? {
        StepsUncap(ss[1..], dt, f.state, e);
      }
    }
  }

  lemma {:induction false} StepUncap(st: StStatement, dt: u64, s: PlcState, e: End)
    requires Step(st, dt, s, e, true)
    ensures Step(st, dt, s, e, false)
    decreases st, 1, 0
  {
    match st
    case Assignment(_, _) =>
    case FbCall(_, _) =>
    case If(c, thenBody, _, _) =>
      if Evaluates(c, s, true) {
        StepsUncap(thenBody, dt, s, e);
      } else if Evaluates(c, s, false) {
        ElsifUncap(st, 0, dt, s, e);
      }
    case While(c, body) =>
      var n: nat :| WhileSteps(c, body, n, dt, s, e, true) && n < MAX_LOOP;
      WhileUncap(c, body, n, dt, s, e);
    case Repeat(body, c) =>
      var n: nat :| RepeatSteps(body, c, n, dt, s, e, true) && n < MAX_LOOP;
      RepeatUncap(body, c, n, dt, s, e);
    case For(v, a, b, step, body) =>
      var bounds := ForBounds(a, b, step, s.db);
      if bounds.Ok? {
        var (start, end, stride) := bounds.value;
        var n: nat :| ForSteps(v, body, start, end, stride, n, dt, s, e, true) && n < MAX_LOOP;
        ForUncap(v, body, start, end, stride, n, dt, s, e);
      }
  }

  lemma {:induction false} ElsifUncap(st: StStatement, i: nat, dt: u64, s: PlcState, e: End)
    requires st.If? && i <= |st.elsifs| && ElsifStep(st, i, dt, s, e, true)
    ensures ElsifStep(st, i, dt, s, e, false)
    decreases st, 0, |st.elsifs| - i
  {
    if i < |st.elsifs| {
      if Evaluates(st.elsifs[i].cond, s, true) {
        StepsUncap(st.elsifs[i].body, dt, s, e);
      } else if Evaluates(st.elsifs[i].cond, s, false) {
        ElsifUncap(st, i + 1, dt, s, e);
      }
    } else if st.elsePart.Else? {
      StepsUncap(st.elsePart.body, dt, s, e);
    }
  }

  lemma {:induction false} WhileUncap(c: StExpr, body: seq<StStatement>, n: nat, dt: u64, s: PlcState, e: End)
    requires WhileSteps(c, body, n, dt, s, e, true)
    ensures WhileSteps(c, body, n, dt, s, e, false)
    decreases body, 1, n
  {
    if Evaluates(c, s, true) {
      var f := WhileFirst(c, body, n, dt, s, e, true);
      StepsUncap(body, dt, s, f);
      if f.error.None? {
        WhileUncap(c, body, n - 1, dt, f.state, e);
      }
    }
  }

  lemma {:induction false} RepeatUncap(body: seq<StStatement>, c: StExpr, n: nat, dt: u64, s: PlcState, e: End)
    requires RepeatSteps(body, c, n, dt, s, e, true)
    ensures RepeatSteps(body, c, n, dt, s, e, false)
    decreases body, 1, n
  {
    var f := RepeatFirst(body, c, n, dt, s, e, true);
    StepsUncap(body, dt, s, f);
    if f.error.None? && Evaluates(c, f.state, false) {
      RepeatUncap(body, c, n - 1, dt, f.state, e);
    }
  }

  lemma {:induction false} ForUncap(v: string, body: seq<StStatement>, current: i64, end: i64, step: i64, n: nat,
                                    dt: u64, s: PlcState, e: End)
    requires ForSteps(v, body, current, end, step, n, dt, s, e, true)
    ensures ForSteps(v, body, current, end, step, n, dt, s, e, false)
    decreases body, 1, n
  {
    if InRange(current, end, step) {
      var f := ForFirst(v, body, current, end, step, n, dt, s, e, true);
      StepsUncap(body, dt, WriteTag(s, v, Int32(LowI32(current))), f);
      var next := AddI64(current, step);
      if f.error.None? && next.Some? {
        ForUncap(v, body, next.value, end, step, n - 1, dt, f.state, e);
      }
    }
  }

  // ----- The unguarded semantics is deterministic -----

  lemma {:induction false} StepsDeterministic(ss: seq<StStatement>, dt: u64, s: PlcState, e1: End, e2: End)
    requires Steps(ss, dt, s, e1, false) && Steps(ss, dt, s, e2, false)
    ensures e1 == e2
    decreases ss, 0, 0
  {
    if ss != [] {
      var f1 := StepsFirst(ss, dt, s, e1, false);
      var f2 := StepsFirst(ss, dt, s, e2, false);
      StepDeterministic(ss[0], dt, s, f1, f2);
      if f1.error.None? {
        StepsDeterministic(ss[1..], dt, f1.state, e1, e2);
      }
    }
  }

  /** However long its loops, a statement ends in at most one way. */
  lemma {:induction false} StepDeterministic(st: StStatement, dt: u64, s: PlcState, e1: End, e2: End)
    requires Step(st, dt, s, e1, false) && Step(st, dt, s, e2, false)
    ensures e1 == e2
    decreases st, 1, 0
  {
    match st
    case Assignment(_, _) =>
    case FbCall(_, _) =>
    case If(c, thenBody, _, _) =>
      if Evaluates(c, s, true) {
        StepsDeterministic(thenBody, dt, s, e1, e2);
      } else if Evaluates(c, s, false) {
        ElsifDeterministic(st, 0, dt, s, e1, e2);
      }
    case While(c, body) =>
      var n1: nat :| WhileSteps(c, body, n1, dt, s, e1, false);
      var n2: nat :| WhileSteps(c, body, n2, dt, s, e2, false);
      WhileDeterministic(c, body, n1, n2, dt, s, e1, e2);
    case Repeat(body, c) =>
      var n1: nat :| RepeatSteps(body, c, n1, dt, s, e1, false);
      var n2: nat :| RepeatSteps(body, c, n2, dt, s, e2, false);
      RepeatDeterministic(body, c, n1, n2, dt, s, e1, e2);
    case For(v, a, b, step, body) =>
      var bounds := ForBounds(a, b, step, s.db);
      if bounds.Ok? {
        var (start, end, stride) := bounds.value;
        var n1: nat :| ForSteps(v, body, start, end, stride, n1, dt, s, e1, false);
        var n2: nat :| ForSteps(v, body, start, end, stride, n2, dt, s, e2, false);
        ForDeterministic(v, body, start, end, stride, n1, n2, dt, s, e1, e2);
      }
  }

  lemma {:induction false} ElsifDeterministic(st: StStatement, i: nat, dt: u64, s: PlcState, e1: End, e2: End)
    requires st.If? && i <= |st.elsifs| && ElsifStep(st, i, dt, s, e1, false) && ElsifStep(st, i, dt, s, e2, false)
    ensures e1 == e2
    decreases st, 0, |st.elsifs| - i
  {
    if i < |st.elsifs| {
      if Evaluates(st.elsifs[i].cond, s, true) {
        StepsDeterministic(st.elsifs[i].body, dt, s, e1, e2);
      } else if Evaluates(st.elsifs[i].cond, s, false) {
        ElsifDeterministic(st, i + 1, dt, s, e1, e2);
      }
    } else if st.elsePart.Else? {
      StepsDeterministic(st.elsePart.body, dt, s, e1, e2);
    }
  }

  /** The number of iterations is determined too. */
  lemma {:induction false} WhileDeterministic(c: StExpr, body: seq<StStatement>, n1: nat, n2: nat, dt: u64,
                                              s: PlcState, e1: End, e2: End)
    requires WhileSteps(c, body, n1, dt, s, e1, false) && WhileSteps(c, body, n2, dt, s, e2, false)
    ensures n1 == n2 && e1 == e2
    decreases body, 1, n1, 1
  {
    if Evaluates(c, s, true) {
      var f1 := WhileFirst(c, body, n1, dt, s, e1, false);
      var f2 := WhileFirst(c, body, n2, dt, s, e2, false);
      StepsDeterministic(body, dt, s, f1, f2);
      WhileRestDeterministic(c, body, n1, n2, dt, f1, e1, e2);
    }
  }

  /** The rest of the loop after a first pass that ended in f. */
  lemma {:induction false} WhileRestDeterministic(c: StExpr, body: seq<StStatement>, n1: nat, n2: nat, dt: u64,
                                                  f: End, e1: End, e2: End)
    requires WhileRest(c, body, n1, dt, f, e1, false) && WhileRest(c, body, n2, dt, f, e2, false)
    ensures n1 == n2 && e1 == e2
    decreases body, 1, n1, 0
  {
    if f.error.None? {
      WhileDeterministic(c, body, n1 - 1, n2 - 1, dt, f.state, e1, e2);
    }
  }

  lemma {:induction false} RepeatDeterministic(body: seq<StStatement>, c: StExpr, n1: nat, n2: nat, dt: u64,
                                               s: PlcState, e1: End, e2: End)
    requires RepeatSteps(body, c, n1, dt, s, e1, false) && RepeatSteps(body, c, n2, dt, s, e2, false)
    ensures n1 == n2 && e1 == e2
    decreases body, 1, n1, 1
  {
    var f1 := RepeatFirst(body, c, n1, dt, s, e1, false);
    var f2 := RepeatFirst(body, c, n2, dt, s, e2, false);
    StepsDeterministic(body, dt, s, f1, f2);
    RepeatRestDeterministic(body, c, n1, n2, dt, f1, e1, e2);
  }

  lemma {:induction false} RepeatRestDeterministic(body: seq<StStatement>, c: StExpr, n1: nat, n2: nat, dt: u64,
                                                   f: End, e1: End, e2: End)
    requires RepeatRest(body, c, n1, dt, f, e1, false) && RepeatRest(body, c, n2, dt, f, e2, false)
    ensures n1 == n2 && e1 == e2
    decreases body, 1, n1, 0
  {
    if f.error.None? && Evaluates(c, f.state, false) {
      RepeatDeterministic(body, c, n1 - 1, n2 - 1, dt, f.state, e1, e2);
    }
  }

  lemma {:induction false} ForDeterministic(v: string, body: seq<StStatement>, current: i64, end: i64, step: i64,
                                            n1: nat, n2: nat, dt: u64, s: PlcState, e1: End, e2: End)
    requires ForSteps(v, body, current, end, step, n1, dt, s, e1, false)
    requires ForSteps(v, body, current, end, step, n2, dt, s, e2, false)
    ensures n1 == n2 && e1 == e2
    decreases body, 1, n1, 1
  {
    if InRange(current, end, step) {
      var f1 := ForFirst(v, body, current, end, step, n1, dt, s, e1, false);
      var f2 := ForFirst(v, body, current, end, step, n2, dt, s, e2, false);
      StepsDeterministic(body, dt, WriteTag(s, v, Int32(LowI32(current))), f1, f2);
      ForRestDeterministic(v, body, current, end, step, n1, n2, dt, f1, e1, e2);
    }
  }

  lemma {:induction false} ForRestDeterministic(v: string, body: seq<StStatement>, current: i64, end: i64, step: i64,
                                                n1: nat, n2: nat, dt: u64, f: End, e1: End, e2: End)
    requires ForRest(v, body, current, end, step, n1, dt, f, e1, false)
    requires ForRest(v, body, current, end, step, n2, dt, f, e2, false)
    ensures n1 == n2 && e1 == e2
    decreases body, 1, n1, 0
  {
    var next := AddI64(current, step);
    if f.error.None? && next.Some? {
      ForDeterministic(v, body, next.value, end, step, n1 - 1, n2 - 1, dt, f.state, e1, e2);
    }
  }

  // ----- Main results -----

  /** The interpreter ends in e, and no guard stopped it, exactly when the unguarded semantics relates s to e by a run
      in which every loop comes back to its head at most 9999 times: a WHILE or FOR completes at most 9999 iterations,
      a REPEAT starts at most 10000.  Normal ends, division errors and panics alike. */
  lemma InterpreterMeetsSemantics(ss: seq<StStatement>, dt: u64, s: PlcState, e: End)
    ensures var o := ExecStatements(ss, dt, s);
            !Guarded(o.error) && EndOf(o) == e <==> Steps(ss, dt, s, e, true)
  {
    StepsSound(ss, dt, s);
    if Steps(ss, dt, s, e, true) {
      StepsComplete(ss, dt, s, e, true);
    }
  }

  /** Guards only ever stop a run: where the unguarded semantics ends in e, the interpreter ends in e or reports
      a guard error, and whatever else it ends in is what the unguarded semantics gives. */
  lemma GuardsOnlyStop(ss: seq<StStatement>, dt: u64, s: PlcState, e: End)
    ensures var o := ExecStatements(ss, dt, s);
            && (Steps(ss, dt, s, e, false) ==> Guarded(o.error) || EndOf(o) == e)
            && (!Guarded(o.error) ==> Steps(ss, dt, s, EndOf(o), false))
  {
    StepsSound(ss, dt, s);
    var o := ExecStatements(ss, dt, s);
    if !Guarded(o.error) {
      StepsUncap(ss, dt, s, EndOf(o));
    }
    if Steps(ss, dt, s, e, false) {
      StepsComplete(ss, dt, s, e, false);
    }
  }

  /** A guard stops a run that would end by itself exactly when that run, and there is only one, exceeds the limits. */
  lemma GuardExactly(ss: seq<StStatement>, dt: u64, s: PlcState, e: End)
    requires Steps(ss, dt, s, e, false)
    ensures Guarded(ExecStatements(ss, dt, s).error) <==> !Steps(ss, dt, s, e, true)
  {
    InterpreterMeetsSemantics(ss, dt, s, e);
    GuardsOnlyStop(ss, dt, s, e);
  }

  // ----- FOR v := 1 TO n DO END_FOR -----

  function EmptyFor(v: string, n: i64): StStatement {
    For(v, Literal(IntLit(1)), Literal(IntLit(n)), None, [])
  }

  lemma {:induction false} EmptyForRuns(v: string, current: i64, n: i64, fuel: nat, dt: u64, s: PlcState)
    returns (e: End)
    requires fuel > 0 && 1 <= current <= n + 1 && n < 0x8000_0000
    ensures e.error.None? && ForSteps(v, [], current, n, 1, n + 1 - current, dt, s, e, false)
    ensures ForLoop(v, [], current, n, 1, fuel, dt, s).error == if n + 1 - current < fuel then None else Some(ForGuard)
    decreases n + 1 - current
  {
    if current > n {
      e := Done(s);
    } else {
      var s1 := WriteTag(s, v, Int32(LowI32(current)));
      assert Steps([], dt, s1, Done(s1), false);
      e := EmptyForRuns(v, current + 1, n, if fuel > 1 then fuel - 1 else 1, dt, s1);
      assert ForRest(v, [], current, n, 1, n + 1 - current, dt, Done(s1), e, false);
    }
  }

  /** A FOR over 1 .. n with nothing to do ends by itself for every n; the interpreter finishes it for n up to 9999,
      and reports the guard error from n = 10000 on. */
  lemma {:induction false} EmptyForLimit(v: string, n: i64, dt: u64, s: PlcState)
    requires 0 <= n < 0x8000_0000
    ensures exists s' :: Step(EmptyFor(v, n), dt, s, Done(s'), false)
    ensures ExecStatement(EmptyFor(v, n), dt, s).error == if n <= 9999 then None else Some(ForGuard)
  {
    var e := EmptyForRuns(v, 1, n, MAX_LOOP, dt, s);
    EmptyForStep(v, n, dt, s, e);
    assert e == Done(e.state);
  }

  lemma {:induction false} EmptyForStep(v: string, n: i64, dt: u64, s: PlcState, e: End)
    requires 0 <= n < 0x8000_0000 && ForSteps(v, [], 1, n, 1, n, dt, s, e, false)
    ensures Step(EmptyFor(v, n), dt, s, e, false)
    ensures ExecStatement(EmptyFor(v, n), dt, s).error == ForLoop(v, [], 1, n, 1, MAX_LOOP, dt, s).error
  {
  }

  // ----- WHILE x < n DO x := x + 1; END_WHILE -----

  function Below(x: string, n: nat): StExpr {
    Binary(LessThan, Variable(x), Literal(FloatLit(n as real)))
  }

  function Increment(x: string): seq<StStatement> {
    [Assignment(x, Binary(Add, Variable(x), Literal(FloatLit(1.0))))]
  }

  function CountingWhile(x: string, n: nat): StStatement {
    While(Below(x, n), Increment(x))
  }

  predicate Holds(s: PlcState, x: string, k: nat) {
    x in s.db && s.db[x].forced.None? && s.db[x].value == Float64(k as real)
  }

  lemma Increments(x: string, k: nat, dt: u64, s: PlcState)
    requires Holds(s, x, k)
    ensures var o := ExecStatements(Increment(x), dt, s); o.error.None? && Holds(o.state, x, k + 1)
  {
    var st := Increment(x)[0];
    assert Increment(x)[1..] == [];
    assert Eval(Variable(x), s.db) == Ok(Float64(k as real));
    assert (k + 1) as real == k as real + 1.0;
    assert Eval(st.value, s.db) == Ok(Float64((k + 1) as real));
    assert ExecStatement(st, dt, s) == Outcome(WriteTag(s, x, Float64((k + 1) as real)), None, 1);
  }

  lemma BelowEvaluates(x: string, k: nat, n: nat, s: PlcState)
    requires Holds(s, x, k)
    ensures Eval(Below(x, n), s.db) == Ok(Bool(k < n))
  {
    assert Eval(Variable(x), s.db) == Ok(Float64(k as real));
  }

  lemma {:induction false} CountingWhileRuns(x: string, k: nat, n: nat, fuel: nat, dt: u64, s: PlcState)
    returns (e: End)
    requires fuel > 0 && k <= n && Holds(s, x, k)
    ensures e.error.None? && Holds(e.state, x, n) && WhileSteps(Below(x, n), Increment(x), n - k, dt, s, e, false)
    ensures WhileLoop(Below(x, n), Increment(x), fuel, dt, s).error == if n - k < fuel then None else Some(WhileGuard)
    decreases n - k
  {
    BelowEvaluates(x, k, n, s);
    if k == n {
      e := Done(s);
    } else {
      var o := ExecStatements(Increment(x), dt, s);
      Increments(x, k, dt, s);
      GuardsOnlyStop(Increment(x), dt, s, Done(o.state));
      e := CountingWhileRuns(x, k + 1, n, if fuel > 1 then fuel - 1 else 1, dt, o.state);
      assert WhileRest(Below(x, n), Increment(x), n - k, dt, Done(o.state), e, false);
    }
  }

  /** Counting from 0 to n by a WHILE ends by itself for every n, with n in the tag; the interpreter finishes it for n
      up to 9999, and reports the guard error from n = 10000 on, although at n = 10000 the condition has just become
      false. */
  lemma {:induction false} CountingWhileLimit(x: string, n: nat, dt: u64, s: PlcState)
    requires Holds(s, x, 0)
    ensures exists s' :: Step(CountingWhile(x, n), dt, s, Done(s'), false) && Holds(s', x, n)
    ensures ExecStatement(CountingWhile(x, n), dt, s).error == if n <= 9999 then None else Some(WhileGuard)
  {
    var e := CountingWhileRuns(x, 0, n, MAX_LOOP, dt, s);
    assert Step(CountingWhile(x, n), dt, s, Done(e.state), false);
  }
}
