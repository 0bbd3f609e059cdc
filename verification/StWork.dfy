/** How much a Structured Text run can do: a syntactic bound, the same for every state and every outcome. */
module StWork {
  import opened Machine
  import opened Tags
  import opened Plc
  import opened StAst
  import opened StInterpreter

  function Dearest(a: nat, b: nat): nat {
    if a >= b then a else b
  }

  /** Sequences add up, an IF costs its dearest arm, a loop multiplies by the iteration limit. */
  function Bound(ss: seq<StStatement>): nat
    decreases ss, 0, 0
  {
    if ss == [] then 0 else BoundOne(ss[0]) + Bound(ss[1..])
  }

  function BoundOne(st: StStatement): nat
    decreases st, 1, 0
  {
    match st
    case Assignment(_, _) => 1
    case FbCall(_, _) => 1
    case If(_, thenBody, _, _) => 1 + Dearest(Bound(thenBody), ElsifBound(st, 0))
    case While(_, body) => 1 + MAX_LOOP * (1 + Bound(body))
    case Repeat(body, _) => 1 + MAX_LOOP * (1 + Bound(body))
    case For(_, _, _, _, body) => 1 + MAX_LOOP * (1 + Bound(body))
  }

  function ElsifBound(st: StStatement, i: nat): nat
    requires st.If? && i <= |st.elsifs|
    decreases st, 0, |st.elsifs| - i
  {
    if i == |st.elsifs| then
      match st.elsePart
      case NoElse => 0
      case Else(body) => Bound(body)
    else Dearest(Bound(st.elsifs[i].body), ElsifBound(st, i + 1))
  }

  /** The statements and loop iterations that one run starts never exceed the bound, whether it succeeds,
      fails, or panics. */
  lemma {:induction false} WorkBounded(ss: seq<StStatement>, dt: u64, s: PlcState)
    ensures ExecStatements(ss, dt, s).work <= Bound(ss)
    decreases ss, 0, 0
  {
    if ss != [] {
      StatementBounded(ss[0], dt, s);
      WorkBounded(ss[1..], dt, ExecStatement(ss[0], dt, s).state);
    }
  }

  lemma {:induction false} StatementBounded(st: StStatement, dt: u64, s: PlcState)
    ensures ExecStatement(st, dt, s).work <= BoundOne(st)
    decreases st, 1, 0
  {
    match st
    case Assignment(_, _) =>
    case FbCall(_, _) =>
    case If(_, thenBody, _, _) =>
      WorkBounded(thenBody, dt, s);
      ElsifsBounded(st, 0, dt, s);
    case While(c, body) => WhileBounded(c, body, MAX_LOOP, dt, s);
    case Repeat(body, c) => RepeatBounded(body, c, MAX_LOOP, dt, s);
    case For(v, a, b, step, body) =>
      var bounds := ForBounds(a, b, step, s.db);
      if bounds.Ok? {
        ForBounded(v, body, bounds.value.0, bounds.value.1, bounds.value.2, MAX_LOOP, dt, s);
      }
  }

  lemma {:induction false} ElsifsBounded(st: StStatement, i: nat, dt: u64, s: PlcState)
    requires st.If? && i <= |st.elsifs|
    ensures ExecElsifs(st, i, dt, s).work <= ElsifBound(st, i)
    decreases st, 0, |st.elsifs| - i
  {
    if i < |st.elsifs| {
      WorkBounded(st.elsifs[i].body, dt, s);
      ElsifsBounded(st, i + 1, dt, s);
    } else if st.elsePart.Else? {
      WorkBounded(st.elsePart.body, dt, s);
    }
  }

  lemma {:induction false} WhileBounded(c: StExpr, body: seq<StStatement>, fuel: nat, dt: u64, s: PlcState)
    requires fuel > 0
    ensures WhileLoop(c, body, fuel, dt, s).work <= fuel * (1 + Bound(body))
    decreases body, 1, fuel
  {
    WorkBounded(body, dt, s);
    Peel(fuel, 1 + Bound(body));
    if fuel > 1 {
      WhileBounded(c, body, fuel - 1, dt, ExecStatements(body, dt, s).state);
    }
  }

  lemma {:induction false} RepeatBounded(body: seq<StStatement>, c: StExpr, fuel: nat, dt: u64, s: PlcState)
    requires fuel > 0
    ensures RepeatLoop(body, c, fuel, dt, s).work <= fuel * (1 + Bound(body))
    decreases body, 1, fuel
  {
    WorkBounded(body, dt, s);
    Peel(fuel, 1 + Bound(body));
    if fuel > 1 {
      RepeatBounded(body, c, fuel - 1, dt, ExecStatements(body, dt, s).state);
    }
  }

  lemma {:induction false} ForBounded(v: string, body: seq<StStatement>, current: i64, end: i64, step: i64, fuel: nat,
                                      dt: u64, s: PlcState)
    requires fuel > 0
    ensures ForLoop(v, body, current, end, step, fuel, dt, s).work <= fuel * (1 + Bound(body))
    decreases body, 1, fuel
  {
    var s1 := WriteTag(s, v, Int32(LowI32(current)));
    WorkBounded(body, dt, s1);
    Peel(fuel, 1 + Bound(body));
    var next := AddI64(current, step);
    if fuel > 1 && next.Some? {
      ForBounded(v, body, next.value, end, step, fuel - 1, dt, ExecStatements(body, dt, s1).state);
    }
  }

  lemma Peel(fuel: nat, cost: nat)
    requires fuel > 0
    ensures fuel * cost == cost + (fuel - 1) * cost && (fuel - 1) * cost >= 0
  {
  }

  /** The bound is attained, and by an endless loop: `WHILE TRUE DO v := lit; END_WHILE` starts exactly
      as many statements and iterations as it says before the guard stops it. */
  lemma BoundAttained(v: string, lit: StLiteral, dt: u64, s: PlcState)
    ensures var loop := While(Literal(BoolLit(true)), [Assignment(v, Literal(lit))]);
            var o := ExecStatement(loop, dt, s);
            o.work == BoundOne(loop) && o.error == Some(WhileGuard)
  {
    EndlessLoop(v, lit, MAX_LOOP, dt, s);
  }

  lemma {:induction false} EndlessLoop(v: string, lit: StLiteral, fuel: nat, dt: u64, s: PlcState)
    requires fuel > 0
    ensures var body := [Assignment(v, Literal(lit))];
            var o := WhileLoop(Literal(BoolLit(true)), body, fuel, dt, s);
            o.work == fuel * (1 + Bound(body)) && o.error == Some(WhileGuard)
  {
    var body := [Assignment(v, Literal(lit))];
    assert body[1..] == [];
    assert ExecStatements(body, dt, s).work == 1 && ExecStatements(body, dt, s).error.None?;
    assert Bound(body) == 1;
    if fuel > 1 {
      EndlessLoop(v, lit, fuel - 1, dt, ExecStatements(body, dt, s).state);
    }
  }
}
