/** The closed form of FOR: how many bodies run, from which states, and how the loop ends. */
module StForLoop {
  import opened Machine
  import opened Tags
  import opened Plc
  import opened StAst
  import opened StInterpreter
  import opened StInvariants

  // ----- Counting -----

  /** How many of start, start + step, ... lie in the range, but no more than the limit: a zero step never leaves it. */
  function Count(start: int, end: int, step: int, limit: nat): nat {
    if !InRange(start, end, step) then 0
    else if step == 0 then limit
    else
      var n := Magnitude(end - start) / Magnitude(step) + 1;
      if n <= limit then n else limit
  }

  /** The count is right: below the limit, the i-th counter value is in range exactly for i below the count. */
  lemma CountSpec(start: int, end: int, step: int, limit: nat, i: nat)
    requires i < limit
    ensures InRange(start + i * step, end, step) <==> i < Count(start, end, step, limit)
  {
    var m := Magnitude(step);
    assert i * step == if step > 0 then i * m else -(i * m);
    if InRange(start, end, step) && step != 0 {
      QuotientSpec(i, Magnitude(end - start), m);
    } else {
      assert i * m >= 0;
    }
  }

  lemma QuotientStep(d: nat, m: nat)
    requires m > 0 && d >= m
    ensures (d - m) / m == d / m - 1
  {
    var q := d / m;
    QuotientSpec(1, d, m);
    QuotientSpec(q, d, m);
    QuotientSpec(q + 1, d, m);
    assert (q - 1) * m == q * m - m && (q + 1) * m == q * m + m;
    QuotientSpec(q - 1, d - m, m);
    QuotientSpec(q, d - m, m);
  }

  lemma CountStep(start: int, end: int, step: int, limit: nat)
    requires limit > 0 && InRange(start, end, step)
    ensures Count(start, end, step, limit) == 1 + Count(start + step, end, step, limit - 1)
  {
    var d, m := Magnitude(end - start), Magnitude(step);
    if step != 0 {
      if d >= m {
        QuotientStep(d, m);
        assert Magnitude(end - (start + step)) == d - m;
      } else {
        QuotientSpec(1, d, m);
      }
    }
  }

  // ----- Runs of clean iterations -----

  /** The body, entered with the low 32 bits of the counter in the loop variable, meets no error and leads from a
      to b; and the counter can be advanced. */
  predicate CleanIteration(v: string, body: seq<StStatement>, current: int, step: int, dt: u64, a: PlcState,
                           b: PlcState) {
    var o := ExecStatements(body, dt, WriteTag(a, v, Int32(LowI32(current))));
    o.error.None? && o.state == b && FitsI64(current + step)
  }

  /** The states at the loop head: one more than there are iterations. */
  predicate CleanRun(v: string, body: seq<StStatement>, current: int, step: int, dt: u64, run: seq<PlcState>)
    decreases |run|
  {
    && run != []
    && (|run| > 1 ==>
          && CleanIteration(v, body, current, step, dt, run[0], run[1])
          && CleanRun(v, body, current + step, step, dt, run[1..]))
  }

  lemma {:induction false} LoopCloses(v: string, body: seq<StStatement>, current: i64, end: i64, step: i64, fuel: nat,
                                      dt: u64, run: seq<PlcState>)
    requires fuel > 0 && CleanRun(v, body, current, step, dt, run)
    requires |run| == Count(current, end, step, fuel) + 1
    ensures var o := ForLoop(v, body, current, end, step, fuel, dt, run[0]);
            o.state == run[|run| - 1] && o.error == if |run| <= fuel then None else Some(ForGuard)
    decreases fuel
  {
    if InRange(current, end, step) {
      CountStep(current, end, step, fuel);
      if fuel > 1 {
        LoopCloses(v, body, current + step, end, step, fuel - 1, dt, run[1..]);
      }
    }
  }

  /** FOR closed form.  Let n be the number of counter values in the range, at most 10000.  If n iterations are clean,
      exactly those n bodies run, one after the other; the loop succeeds if n is at most 9999, and otherwise reports
      the guard error, even if the range is exhausted. */
  lemma ForClosedForm(v: string, body: seq<StStatement>, start: i64, end: i64, step: i64, dt: u64, run: seq<PlcState>)
    requires CleanRun(v, body, start, step, dt, run) && |run| == Count(start, end, step, 10000) + 1
    ensures var o := ForLoop(v, body, start, end, step, MAX_LOOP, dt, run[0]);
            && o.state == run[|run| - 1]
            && (o.error.None? <==> Count(start, end, step, 10000) <= 9999)
            && (o.error.Some? ==> o.error.value == ForGuard)
  {
    LoopCloses(v, body, start, end, step, MAX_LOOP, dt, run);
  }

  /** Iteration i of a clean run starts from start + i * step, whatever earlier bodies stored in the loop variable. */
  lemma {:induction false} IterationStartsAt(v: string, body: seq<StStatement>, start: int, step: int, dt: u64,
                                             run: seq<PlcState>, i: nat)
    requires CleanRun(v, body, start, step, dt, run) && i + 1 < |run|
    ensures CleanIteration(v, body, start + i * step, step, dt, run[i], run[i + 1])
    decreases i
  {
    if i > 0 {
      IterationStartsAt(v, body, start + step, step, dt, run[1..], i - 1);
      assert start + step + (i - 1) * step == start + i * step;
    }
  }

  lemma {:induction false} TagsStay(v: string, body: seq<StStatement>, start: int, step: int, dt: u64,
                                    run: seq<PlcState>, i: nat)
    requires CleanRun(v, body, start, step, dt, run) && i < |run|
    ensures run[i].db.Keys == run[0].db.Keys
    ensures forall n :: n in run[0].db ==> run[i].db[n].forced == run[0].db[n].forced
    decreases i
  {
    if i > 0 {
      RunFrame(body, dt, WriteTag(run[0], v, Int32(LowI32(start))));
      TagsStay(v, body, start + step, step, dt, run[1..], i - 1);
    }
  }

  /** The body of iteration i finds the low 32 bits of start + i * step in an unforced loop variable, and the force in
      a forced one. */
  lemma {:induction false} LoopVariableAt(v: string, body: seq<StStatement>, start: int, step: int, dt: u64,
                                          run: seq<PlcState>, i: nat)
    requires CleanRun(v, body, start, step, dt, run) && i + 1 < |run| && v in run[0].db
    ensures var entered := WriteTag(run[i], v, Int32(LowI32(start + i * step)));
            && ExecStatements(body, dt, entered).state == run[i + 1]
            && v in entered.db
            && entered.db[v].Effective() ==
                 (if run[0].db[v].forced.Some? then run[0].db[v].forced.value else Int32(LowI32(start + i * step)))
  {
    IterationStartsAt(v, body, start, step, dt, run, i);
    TagsStay(v, body, start, step, dt, run, i);
  }
}
