/** An independent meaning for Structured Text: a relation between the state before a terminating run and how the
    run ends, in which loops iterate as often as they like.  A run ends normally, with an error of its own, or in
    a panic; the iteration limits are not part of the relation.  The guarded interpreter is sound for it, and complete
    up to the limits. */
module StBigStep {
  import opened Machine
  import opened Tags
  import opened Plc
  import opened StAst
  import opened StInterpreter

  /** How a run ends: the state it leaves, and the error that stopped it, if any. */
  datatype End = End(state: PlcState, error: Option<StError>)

  function Done(s: PlcState): End {
    End(s, None)
  }

  predicate Evaluates(c: StExpr, s: PlcState, truth: bool) {
    var v := Eval(c, s.db);
    v.Ok? && v.value.AsBool() == truth
  }

  predicate Fails(c: StExpr, s: PlcState, e: End) {
    var v := Eval(c, s.db);
    v.Err? && e == End(s, Some(v.error))
  }

  /** `capped` additionally demands that every loop execution, at every nesting depth, stays within
      the interpreter's limits. */
  ghost predicate Steps(ss: seq<StStatement>, dt: u64, s: PlcState, e: End, capped: bool)
    decreases ss, 0, 0
  {
    if ss == [] then e == Done(s) else
      exists f: End ::
        && Step(ss[0], dt, s, f, capped)
        && if f.error.Some? then e == f else Steps(ss[1..], dt, f.state, e, capped)
  }

  ghost predicate Step(st: StStatement, dt: u64, s: PlcState, e: End, capped: bool)
    decreases st, 1, 0
  {
    match st
    case Assignment(v, x) =>
      (match Eval(x, s.db)
       case Err(err) => e == End(s, Some(err))
       case Ok(val) => e == Done(WriteTag(s, v, Stored(val))))
    case If(c, thenBody, _, _) =>
      || Fails(c, s, e)
      || (Evaluates(c, s, true) && Steps(thenBody, dt, s, e, capped))
      || (Evaluates(c, s, false) && ElsifStep(st, 0, dt, s, e, capped))
    case While(c, body) =>
      exists n: nat :: WhileSteps(c, body, n, dt, s, e, capped) && (capped ==> n < MAX_LOOP)
    case Repeat(body, c) =>
      exists n: nat :: RepeatSteps(body, c, n, dt, s, e, capped) && (capped ==> n < MAX_LOOP)
    case For(v, a, b, step, body) =>
      (match ForBounds(a, b, step, s.db)
       case Err(err) => e == End(s, Some(err))
       case Ok((start, end, stride)) =>
         exists n: nat :: ForSteps(v, body, start, end, stride, n, dt, s, e, capped) && (capped ==> n < MAX_LOOP))
    case FbCall(n, inputs) =>
      (match EvalInputs(inputs, false, DEFAULT_PT, s.db)
       case Err(err) => e == End(s, Some(err))
       case Ok((inVal, pt)) => e == Done(CallTimer(s, n, inVal, pt, dt)))
  }

  ghost predicate ElsifStep(st: StStatement, i: nat, dt: u64, s: PlcState, e: End, capped: bool)
    requires st.If? && i <= |st.elsifs|
    decreases st, 0, |st.elsifs| - i
  {
    if i == |st.elsifs| then
      match st.elsePart
      case NoElse => e == Done(s)
      case Else(body) => Steps(body, dt, s, e, capped)
    else
      || Fails(st.elsifs[i].cond, s, e)
      || (Evaluates(st.elsifs[i].cond, s, true) && Steps(st.elsifs[i].body, dt, s, e, capped))
      || (Evaluates(st.elsifs[i].cond, s, false) && ElsifStep(st, i + 1, dt, s, e, capped))
  }

  /** n times the loop comes back to its head. */
  ghost predicate WhileSteps(c: StExpr, body: seq<StStatement>, n: nat, dt: u64, s: PlcState, e: End, capped: bool)
    decreases body, 1, n, 1
  {
    if Evaluates(c, s, true) then
      exists f: End :: Steps(body, dt, s, f, capped) && WhileRest(c, body, n, dt, f, e, capped)
    else
      n == 0 && (Fails(c, s, e) || (Evaluates(c, s, false) && e == Done(s)))
  }

  /** The rest of a loop after a pass through its body that ended in f. */
  ghost predicate WhileRest(c: StExpr, body: seq<StStatement>, n: nat, dt: u64, f: End, e: End, capped: bool)
    decreases body, 1, n, 0
  {
    if f.error.Some? then n == 0 && e == f else n > 0 && WhileSteps(c, body, n - 1, dt, f.state, e, capped)
  }

  ghost predicate RepeatSteps(body: seq<StStatement>, c: StExpr, n: nat, dt: u64, s: PlcState, e: End, capped: bool)
    decreases body, 1, n, 1
  {
    exists f: End :: Steps(body, dt, s, f, capped) && RepeatRest(body, c, n, dt, f, e, capped)
  }

  ghost predicate RepeatRest(body: seq<StStatement>, c: StExpr, n: nat, dt: u64, f: End, e: End, capped: bool)
    decreases body, 1, n, 0
  {
    if f.error.Some? then n == 0 && e == f
    else if Evaluates(c, f.state, false) then n > 0 && RepeatSteps(body, c, n - 1, dt, f.state, e, capped)
    else n == 0 && (Fails(c, f.state, e) || (Evaluates(c, f.state, true) && e == f))
  }

  ghost predicate ForSteps(v: string, body: seq<StStatement>, current: i64, end: i64, step: i64, n: nat,
                           dt: u64, s: PlcState, e: End, capped: bool)
    decreases body, 1, n, 1
  {
    if !InRange(current, end, step) then n == 0 && e == Done(s) else
      exists f: End ::
        && Steps(body, dt, WriteTag(s, v, Int32(LowI32(current))), f, capped)
        && ForRest(v, body, current, end, step, n, dt, f, e, capped)
  }

  ghost predicate ForRest(v: string, body: seq<StStatement>, current: i64, end: i64, step: i64, n: nat,
                          dt: u64, f: End, e: End, capped: bool)
    decreases body, 1, n, 0
  {
    if f.error.Some? then n == 0 && e == f else
      match AddI64(current, step)
      case None => n == 0 && e == f.(error := Some(CounterPanic))
      case Some(next) => n > 0 && ForSteps(v, body, next, end, step, n - 1, dt, f.state, e, capped)
  }

  // ----- Soundness -----

  function EndOf(o: Outcome): End {
    End(o.state, o.error)
  }

  predicate Guarded(error: Option<StError>) {
    error.Some? && error.value.IsGuard()
  }

  lemma {:induction false} StepsSound(ss: seq<StStatement>, dt: u64, s: PlcState)
    ensures var o := ExecStatements(ss, dt, s); !Guarded(o.error) ==> Steps(ss, dt, s, EndOf(o), true)
    decreases ss, 0, 0
  {
    if ss != [] {
      var o := ExecStatement(ss[0], dt, s);
      StepSound(ss[0], dt, s);
      if o.error.None? {
        StepsSound(ss[1..], dt, o.state);
      }
    }
  }

  /** A run that no guard stops ends as the unguarded semantics says, and respects the limits. */
  lemma {:induction false} StepSound(st: StStatement, dt: u64, s: PlcState)
    ensures var o := ExecStatement(st, dt, s); !Guarded(o.error) ==> Step(st, dt, s, EndOf(o), true)
    decreases st, 1, 0
  {
    match st
    case Assignment(_, _) =>
    case FbCall(_, _) =>
    case If(c, thenBody, _, _) =>
      StepsSound(thenBody, dt, s);
      ElsifSound(st, 0, dt, s);
    case While(c, body) =>
      var n := WhileSound(c, body, MAX_LOOP, dt, s);
    case Repeat(body, c) =>
      var n := RepeatSound(body, c, MAX_LOOP, dt, s);
    case For(v, a, b, step, body) =>
      var bounds := ForBounds(a, b, step, s.db);
      if bounds.Ok? {
        var n := ForSound(v, body, bounds.value.0, bounds.value.1, bounds.value.2, MAX_LOOP, dt, s);
      }
  }

  lemma {:induction false} ElsifSound(st: StStatement, i: nat, dt: u64, s: PlcState)
    requires st.If? && i <= |st.elsifs|
    ensures var o := ExecElsifs(st, i, dt, s); !Guarded(o.error) ==> ElsifStep(st, i, dt, s, EndOf(o), true)
    decreases st, 0, |st.elsifs| - i
  {
    if i < |st.elsifs| {
      StepsSound(st.elsifs[i].body, dt, s);
      ElsifSound(st, i + 1, dt, s);
    } else if st.elsePart.Else? {
      StepsSound(st.elsePart.body, dt, s);
    }
  }

  lemma {:induction false} WhileSound(c: StExpr, body: seq<StStatement>, fuel: nat, dt: u64, s: PlcState)
    returns (n: nat)
    requires fuel > 0
    ensures var o := WhileLoop(c, body, fuel, dt, s);
            !Guarded(o.error) ==> n < fuel && WhileSteps(c, body, n, dt, s, EndOf(o), true)
    decreases body, 1, fuel
  {
    n := 0;
    if Evaluates(c, s, true) {
      StepsSound(body, dt, s);
      var o := ExecStatements(body, dt, s);
      if o.error.None? && fuel > 1 {
        n := WhileSound(c, body, fuel - 1, dt, o.state);
        n := n + 1;
      }
    }
  }

  lemma {:induction false} RepeatSound(body: seq<StStatement>, c: StExpr, fuel: nat, dt: u64, s: PlcState)
    returns (n: nat)
    requires fuel > 0
    ensures var o := RepeatLoop(body, c, fuel, dt, s);
            !Guarded(o.error) ==> n < fuel && RepeatSteps(body, c, n, dt, s, EndOf(o), true)
    decreases body, 1, fuel
  {
    n := 0;
    StepsSound(body, dt, s);
    var o := ExecStatements(body, dt, s);
    if o.error.None? && Evaluates(c, o.state, false) && fuel > 1 {
      n := RepeatSound(body, c, fuel - 1, dt, o.state);
      n := n + 1;
    }
  }

  /** How the guarded loop ends after a pass with outcome p. */
  function ForRestEnd(v: string, body: seq<StStatement>, current: i64, end: i64, step: i64, fuel: nat, dt: u64,
                      p: Outcome): End
    requires fuel > 0
  {
    if p.error.Some? then EndOf(p) else
      match AddI64(current, step)
      case None => End(p.state, Some(CounterPanic))
      case Some(next) =>
        if fuel == 1 then End(p.state, Some(ForGuard))
        else EndOf(ForLoop(v, body, next, end, step, fuel - 1, dt, p.state))
  }

  lemma {:induction false} ForSound(v: string, body: seq<StStatement>, current: i64, end: i64, step: i64,
                                    fuel: nat, dt: u64, s: PlcState)
    returns (n: nat)
    requires fuel > 0
    ensures var o := ForLoop(v, body, current, end, step, fuel, dt, s);
            !Guarded(o.error) ==> n < fuel && ForSteps(v, body, current, end, step, n, dt, s, EndOf(o), true)
    decreases body, 1, fuel, 1
  {
    n := 0;
    if InRange(current, end, step) {
      var s1 := WriteTag(s, v, Int32(LowI32(current)));
      StepsSound(body, dt, s1);
      n := ForRestSound(v, body, current, end, step, fuel, dt, ExecStatements(body, dt, s1));
    }
  }

  /** The rest of the loop after a pass with outcome p. */
  lemma {:induction false} ForRestSound(v: string, body: seq<StStatement>, current: i64, end: i64, step: i64,
                                        fuel: nat, dt: u64, p: Outcome)
    returns (n: nat)
    requires fuel > 0
    ensures var e := ForRestEnd(v, body, current, end, step, fuel, dt, p);
            !Guarded(e.error) ==> n < fuel && ForRest(v, body, current, end, step, n, dt, EndOf(p), e, true)
    decreases body, 1, fuel, 0
  {
    n := 0;
    var next := AddI64(current, step);
    if p.error.None? && next.Some? && fuel > 1 {
      n := ForSound(v, body, next.value, end, step, fuel - 1, dt, p.state);
      n := n + 1;
    }
  }

  // ----- Completeness up to the guards -----

  /** What the interpreter does where the unguarded semantics ends in e, which no guard causes: it ends there too,
      or, if some loop of that run is longer than the limits, it may stop with a guard error instead. */
  predicate Reproduces(o: Outcome, e: End, capped: bool) {
    !Guarded(e.error) && (EndOf(o) == e || (!capped && Guarded(o.error)))
  }

  /** The end of the first statement. */
  lemma StepsFirst(ss: seq<StStatement>, dt: u64, s: PlcState, e: End, capped: bool) returns (f: End)
    requires ss != [] && Steps(ss, dt, s, e, capped)
    ensures Step(ss[0], dt, s, f, capped)
    ensures if f.error.Some? then e == f else Steps(ss[1..], dt, f.state, e, capped)
  {
    f :| Step(ss[0], dt, s, f, capped) && if f.error.Some? then e == f else Steps(ss[1..], dt, f.state, e, capped);
  }

  lemma {:induction false} StepsComplete(ss: seq<StStatement>, dt: u64, s: PlcState, e: End, capped: bool)
    requires Steps(ss, dt, s, e, capped)
    ensures Reproduces(ExecStatements(ss, dt, s), e, capped)
    decreases ss, 0, 0
  {
    if ss != [] {
      var f := StepsFirst(ss, dt, s, e, capped);
      StepComplete(ss[0], dt, s, f, capped);
      if f.error.None? {
        StepsComplete(ss[1..], dt, f.state, e, capped);
      }
    }
  }

  /** Every run of the unguarded semantics is reproduced, or cut short by a guard; within the limits it
      is always reproduced. */
  lemma {:induction false} StepComplete(st: StStatement, dt: u64, s: PlcState, e: End, capped: bool)
    requires Step(st, dt, s, e, capped)
    ensures Reproduces(ExecStatement(st, dt, s), e, capped)
    decreases st, 1, 0
  {
    match st
    case Assignment(_, _) =>
    case FbCall(_, _) =>
    case If(c, thenBody, _, _) =>
      if Evaluates(c, s, true) {
        StepsComplete(thenBody, dt, s, e, capped);
      } else if Evaluates(c, s, false) {
        ElsifComplete(st, 0, dt, s, e, capped);
      }
    case While(c, body) =>
      var n: nat :| WhileSteps(c, body, n, dt, s, e, capped) && (capped ==> n < MAX_LOOP);
      WhileComplete(c, body, MAX_LOOP, n, dt, s, e, capped);
    case Repeat(body, c) =>
      var n: nat :| RepeatSteps(body, c, n, dt, s, e, capped) && (capped ==> n < MAX_LOOP);
      RepeatComplete(body, c, MAX_LOOP, n, dt, s, e, capped);
    case For(v, a, b, step, body) =>
      var bounds := ForBounds(a, b, step, s.db);
      if bounds.Ok? {
        var (start, end, stride) := bounds.value;
        var n: nat :| ForSteps(v, body, start, end, stride, n, dt, s, e, capped) && (capped ==> n < MAX_LOOP);
        ForComplete(v, body, start, end, stride, MAX_LOOP, n, dt, s, e, capped);
      }
  }

  lemma {:induction false} ElsifComplete(st: StStatement, i: nat, dt: u64, s: PlcState, e: End, capped: bool)
    requires st.If? && i <= |st.elsifs| && ElsifStep(st, i, dt, s, e, capped)
    ensures Reproduces(ExecElsifs(st, i, dt, s), e, capped)
    decreases st, 0, |st.elsifs| - i
  {
    if i < |st.elsifs| {
      if Evaluates(st.elsifs[i].cond, s, true) {
        StepsComplete(st.elsifs[i].body, dt, s, e, capped);
      } else if Evaluates(st.elsifs[i].cond, s, false) {
        ElsifComplete(st, i + 1, dt, s, e, capped);
      }
    } else if st.elsePart.Else? {
      StepsComplete(st.elsePart.body, dt, s, e, capped);
    }
  }

  /** The end of the first pass through the body of a loop whose condition holds. */
  lemma WhileFirst(c: StExpr, body: seq<StStatement>, n: nat, dt: u64, s: PlcState, e: End, capped: bool)
    returns (f: End)
    requires WhileSteps(c, body, n, dt, s, e, capped) && Evaluates(c, s, true)
    ensures Steps(body, dt, s, f, capped) && WhileRest(c, body, n, dt, f, e, capped)
  {
    f :| Steps(body, dt, s, f, capped) && WhileRest(c, body, n, dt, f, e, capped);
  }

  lemma {:induction false} WhileComplete(c: StExpr, body: seq<StStatement>, fuel: nat, n: nat, dt: u64,
                                         s: PlcState, e: End, capped: bool)
    requires fuel > 0 && WhileSteps(c, body, n, dt, s, e, capped) && (capped ==> n < fuel)
    ensures Reproduces(WhileLoop(c, body, fuel, dt, s), e, capped)
    decreases body, 1, n
  {
    if Evaluates(c, s, true) {
      var f := WhileFirst(c, body, n, dt, s, e, capped);
      StepsComplete(body, dt, s, f, capped);
      if f.error.None? {
        WhileComplete(c, body, if fuel > 1 then fuel - 1 else 1, n - 1, dt, f.state, e, capped);
      }
    }
  }

  lemma RepeatFirst(body: seq<StStatement>, c: StExpr, n: nat, dt: u64, s: PlcState, e: End, capped: bool)
    returns (f: End)
    requires RepeatSteps(body, c, n, dt, s, e, capped)
    ensures Steps(body, dt, s, f, capped)
    ensures RepeatRest(body, c, n, dt, f, e, capped)
  {
    f :| Steps(body, dt, s, f, capped) && RepeatRest(body, c, n, dt, f, e, capped);
  }

  lemma {:induction false} RepeatComplete(body: seq<StStatement>, c: StExpr, fuel: nat, n: nat, dt: u64,
                                          s: PlcState, e: End, capped: bool)
    requires fuel > 0 && RepeatSteps(body, c, n, dt, s, e, capped) && (capped ==> n < fuel)
    ensures Reproduces(RepeatLoop(body, c, fuel, dt, s), e, capped)
    decreases body, 1, n
  {
    var f := RepeatFirst(body, c, n, dt, s, e, capped);
    StepsComplete(body, dt, s, f, capped);
    if f.error.None? && Evaluates(c, f.state, false) {
      RepeatComplete(body, c, if fuel > 1 then fuel - 1 else 1, n - 1, dt, f.state, e, capped);
    }
  }

  lemma ForFirst(v: string, body: seq<StStatement>, current: i64, end: i64, step: i64, n: nat,
                 dt: u64, s: PlcState, e: End, capped: bool) returns (f: End)
    requires ForSteps(v, body, current, end, step, n, dt, s, e, capped) && InRange(current, end, step)
    ensures Steps(body, dt, WriteTag(s, v, Int32(LowI32(current))), f, capped)
    ensures ForRest(v, body, current, end, step, n, dt, f, e, capped)
  {
    f :| && Steps(body, dt, WriteTag(s, v, Int32(LowI32(current))), f, capped)
         && ForRest(v, body, current, end, step, n, dt, f, e, capped);
  }

  lemma {:induction false} ForComplete(v: string, body: seq<StStatement>, current: i64, end: i64, step: i64,
                                       fuel: nat, n: nat, dt: u64, s: PlcState, e: End, capped: bool)
    requires fuel > 0 && ForSteps(v, body, current, end, step, n, dt, s, e, capped) && (capped ==> n < fuel)
    ensures Reproduces(ForLoop(v, body, current, end, step, fuel, dt, s), e, capped)
    decreases body, 1, n
  {
    if InRange(current, end, step) {
      var f := ForFirst(v, body, current, end, step, n, dt, s, e, capped);
      StepsComplete(body, dt, WriteTag(s, v, Int32(LowI32(current))), f, capped);
      var next := AddI64(current, step);
      if f.error.None? && next.Some? {
        ForComplete(v, body, next.value, end, step, if fuel > 1 then fuel - 1 else 1, n - 1, dt, f.state, e, capped);
      }
    }
  }
}
