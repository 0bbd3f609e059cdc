/** Parsing conserves the identifiers and literals of the text: none is lost, invented or reordered. */
module StLeaves {
  import opened Machine
  import opened StAst
  import opened StTokens
  import opened StParser
  import opened StGrammar
  import opened StAdequacy

  /** Tokens that carry text of their own. */
  predicate IsLeaf(t: Token) {
    t.Identifier? || t.IntLiteral? || t.FloatLiteral? || t.StringLiteral? || t.KwTrue? || t.KwFalse?
  }

  function Leaves(ts: seq<Token>): seq<Token> {
    if ts == [] then [] else (if IsLeaf(ts[0]) then [ts[0]] else []) + Leaves(ts[1..])
  }

  // ----- The same leaves, read off the syntax -----

  function ExprLeaves(e: StExpr): seq<Token> {
    match e
    case Literal(lit) => [LiteralToken(lit)]
    case Variable(n) => [Identifier(n)]
    case Unary(_, x) => ExprLeaves(x)
    case Binary(_, l, r) => ExprLeaves(l) + ExprLeaves(r)
  }

  function StepLeaves(step: Option<StExpr>): seq<Token> {
    if step.None? then [] else ExprLeaves(step.value)
  }

  function InputLeaves(inputs: seq<FbInput>): seq<Token> {
    if inputs == [] then [] else [Identifier(inputs[0].param)] + (ExprLeaves(inputs[0].expr) + InputLeaves(inputs[1..]))
  }

  function ProgramLeaves(ss: seq<StStatement>): seq<Token>
    decreases ss, 0
  {
    if ss == [] then [] else StatementLeaves(ss[0]) + ProgramLeaves(ss[1..])
  }

  function StatementLeaves(st: StStatement): seq<Token>
    decreases st, 0
  {
    match st
    case Assignment(v, e) => [Identifier(v)] + ExprLeaves(e)
    case If(c, thenBody, elsifs, elsePart) =>
      ExprLeaves(c) + (ProgramLeaves(thenBody) + (ElsifLeaves(elsifs) + ElseLeaves(elsePart)))
    case While(c, body) => ExprLeaves(c) + ProgramLeaves(body)
    case Repeat(body, c) => ProgramLeaves(body) + ExprLeaves(c)
    case For(v, a, b, step, body) =>
      [Identifier(v)] + (ExprLeaves(a) + (ExprLeaves(b) + (StepLeaves(step) + ProgramLeaves(body))))
    case FbCall(n, inputs) => [Identifier(n)] + InputLeaves(inputs)
  }

  function ElsifLeaves(bs: seq<ElsifBranch>): seq<Token>
    decreases bs, 0
  {
    if bs == [] then [] else ExprLeaves(bs[0].cond) + (ProgramLeaves(bs[0].body) + ElsifLeaves(bs[1..]))
  }

  function ElseLeaves(part: ElsePart): seq<Token>
    decreases part, 0
  {
    if part.NoElse? then [] else ProgramLeaves(part.body)
  }

  // ----- Leaves of concatenations and forms -----

  lemma {:induction false} LeavesAppend(a: seq<Token>, b: seq<Token>)
    ensures Leaves(a + b) == Leaves(a) + Leaves(b)
  {
    if a == [] {
      assert a + b == b;
    } else {
      var head := if IsLeaf(a[0]) then [a[0]] else [];
      assert (a + b)[0] == a[0] && (a + b)[1..] == a[1..] + b;
      LeavesAppend(a[1..], b);
      assert head + (Leaves(a[1..]) + Leaves(b)) == (head + Leaves(a[1..])) + Leaves(b);
    }
  }

  lemma LeavesPush(t: Token, ts: seq<Token>)
    requires IsLeaf(t)
    ensures Leaves([t] + ts) == [t] + Leaves(ts)
  {
    assert ([t] + ts)[1..] == ts;
  }

  lemma LeavesSkip(t: Token, ts: seq<Token>)
    requires !IsLeaf(t)
    ensures Leaves([t] + ts) == Leaves(ts)
  {
    assert ([t] + ts)[1..] == ts;
  }

  /** A token that is no leaf changes nothing, wherever it stands. */
  lemma LeavesAround(a: seq<Token>, t: Token, b: seq<Token>)
    requires !IsLeaf(t)
    ensures Leaves(a + ([t] + b)) == Leaves(a) + Leaves(b)
  {
    LeavesAppend(a, [t] + b);
    LeavesSkip(t, b);
  }

  lemma {:induction false} LeavesOfExpr(lvl: nat, ts: seq<Token>, e: StExpr)
    requires lvl <= PRIMARY && DerivesExpr(lvl, ts, e)
    ensures Leaves(ts) == ExprLeaves(e)
    decreases |ts|, PRIMARY - lvl
  {
    if lvl < UNARY {
      if DerivesExpr(lvl + 1, ts, e) {
        LeavesOfExpr(lvl + 1, ts, e);
      } else {
        var l, r := Operands(lvl, ts, e);
        LeavesOfExpr(LeftLevel(lvl), l, e.left);
        LeavesOfExpr(lvl + 1, r, e.right);
        LeavesAround(l, OperatorToken(e.op), r);
        Assoc(l, [OperatorToken(e.op)], r);
      }
    } else if lvl == UNARY && !DerivesExpr(PRIMARY, ts, e) {
      LeavesOfExpr(UNARY, ts[1..], e.expr);
    } else if lvl == UNARY {
      LeavesOfExpr(PRIMARY, ts, e);
    } else if |ts| > 2 {
      var inner := ts[1..|ts| - 1];
      LeavesOfExpr(0, inner, e);
      LeavesAround(inner, RightParen, []);
      assert ts[1..] == inner + ([RightParen] + []);
    } else {
      LeavesPush(ts[0], []);
      assert ts == [ts[0]] + [];
    }
  }

  // ----- Statements -----

  /** `... END_X ;` adds nothing. */
  lemma LeavesBeforeEnd(a: seq<Token>, end: Token)
    requires !IsLeaf(end)
    ensures Leaves(a + ([end] + ([Semicolon] + []))) == Leaves(a)
  {
    LeavesAround(a, end, [Semicolon] + []);
    LeavesSkip(Semicolon, []);
  }

  lemma {:induction false} LeavesOfProgram(ts: seq<Token>, ss: seq<StStatement>)
    requires DerivesStatements(ts, ss)
    ensures Leaves(ts) == ProgramLeaves(ss)
    decreases |ts|, 3, |ss|
  {
    if ss != [] {
      var first, more := SplitStatements(ts, ss);
      LeavesOfStatement(first, ss[0]);
      LeavesOfProgram(more, ss[1..]);
      LeavesAppend(first, more);
    }
  }

  lemma {:induction false} LeavesOfStatement(ts: seq<Token>, st: StStatement)
    requires DerivesStatement(ts, st)
    ensures Leaves(ts) == StatementLeaves(st)
    decreases |ts|, 2, 0
  {
    assert ts + [] == ts;
    match st
    case Assignment(_, _) => LeavesOfAssignment(ts, st);
    case FbCall(_, _) => LeavesOfCall(ts, st);
    case If(_, _, _, _) => LeavesOfIf(ts, st);
    case While(_, _) => LeavesOfWhile(ts, st);
    case Repeat(_, _) => LeavesOfRepeat(ts, st);
    case For(_, _, _, _, _) => LeavesOfFor(ts, st);
  }

  lemma AssignmentFormLeaves(v: string, x: seq<Token>)
    ensures Leaves(AssignmentForm(v, x) + []) == [Identifier(v)] + Leaves(x)
  {
    AssignmentThen(v, x, []);
    var t1 := x + ([Semicolon] + []);
    LeavesPush(Identifier(v), [Assign] + t1);
    LeavesSkip(Assign, t1);
    LeavesAround(x, Semicolon, []);
  }

  lemma LeavesOfAssignment(ts: seq<Token>, st: StStatement)
    requires st.Assignment? && DerivesAssignment(ts, st)
    ensures Leaves(ts + []) == StatementLeaves(st)
  {
    var x :| ts == AssignmentForm(st.variable, x) && DerivesExpr(0, x, st.value);
    AssignmentFormLeaves(st.variable, x);
    LeavesOfExpr(0, x, st.value);
  }

  lemma CallFormLeaves(n: string, a: seq<Token>)
    ensures Leaves(CallForm(n, a) + []) == [Identifier(n)] + Leaves(a)
  {
    CallThen(n, a, []);
    var t1 := a + ([RightParen] + ([Semicolon] + []));
    LeavesPush(Identifier(n), [LeftParen] + t1);
    LeavesSkip(LeftParen, t1);
    LeavesBeforeEnd(a, RightParen);
  }

  lemma LeavesOfCall(ts: seq<Token>, st: StStatement)
    requires st.FbCall? && DerivesCall(ts, st)
    ensures Leaves(ts + []) == StatementLeaves(st)
  {
    var a := SplitCall(ts, st);
    CallFormLeaves(st.name, a);
    LeavesOfInputs(a, st.inputs);
  }

  lemma {:induction false} LeavesOfInputs(ts: seq<Token>, inputs: seq<FbInput>)
    requires DerivesInputs(ts, inputs)
    ensures Leaves(ts) == InputLeaves(inputs)
    decreases |ts|, |inputs|
  {
    if inputs != [] {
      var n := inputs[0].param;
      var mark, x, comma, more := SplitInputs(ts, inputs);
      InputThen(n, mark, x, comma, more);
      LeavesPush(Identifier(n), mark + (x + (comma + more)));
      LeavesOptional(mark, x + (comma + more));
      LeavesAppend(x, comma + more);
      LeavesOptional(comma, more);
      LeavesOfExpr(0, x, inputs[0].expr);
      LeavesOfInputs(more, inputs[1..]);
    }
  }

  lemma LeavesOptional(a: seq<Token>, b: seq<Token>)
    requires a in {[], [Assign], [OutputAssign], [Comma]}
    ensures Leaves(a + b) == Leaves(b)
  {
    if a == [] {
      assert a + b == b;
    } else {
      LeavesSkip(a[0], b);
    }
  }

  lemma {:induction false} LeavesOfWhile(ts: seq<Token>, st: StStatement)
    requires st.While? && DerivesWhile(ts, st)
    ensures Leaves(ts + []) == StatementLeaves(st)
    decreases |ts|, 1, 0
  {
    var c, b :| ts == WhileForm(c, b) && DerivesExpr(0, c, st.whileCond) && DerivesStatements(b, st.whileBody);
    WhileThen(c, b, []);
    var t1 := b + ([KwEndWhile] + ([Semicolon] + []));
    LeavesSkip(KwWhile, c + ([KwDo] + t1));
    LeavesAround(c, KwDo, t1);
    LeavesBeforeEnd(b, KwEndWhile);
    LeavesOfExpr(0, c, st.whileCond);
    LeavesOfProgram(b, st.whileBody);
  }

  lemma {:induction false} LeavesOfRepeat(ts: seq<Token>, st: StStatement)
    requires st.Repeat? && DerivesRepeat(ts, st)
    ensures Leaves(ts + []) == StatementLeaves(st)
    decreases |ts|, 1, 0
  {
    var b, c :| ts == RepeatForm(b, c) && DerivesStatements(b, st.repeatBody) && DerivesExpr(0, c, st.untilCond);
    RepeatThen(b, c, []);
    var t1 := c + ([KwEndRepeat] + ([Semicolon] + []));
    LeavesSkip(KwRepeat, b + ([KwUntil] + t1));
    LeavesAround(b, KwUntil, t1);
    LeavesBeforeEnd(c, KwEndRepeat);
    LeavesOfProgram(b, st.repeatBody);
    LeavesOfExpr(0, c, st.untilCond);
  }

  lemma LeavesOfStep(ts: seq<Token>, step: Option<StExpr>)
    requires DerivesStep(ts, step)
    ensures Leaves(ts) == StepLeaves(step)
  {
    if step.Some? {
      LeavesOfExpr(0, ts[1..], step.value);
    }
  }

  lemma ForHeadLeaves(v: string, a: seq<Token>, rest: seq<Token>)
    ensures Leaves([KwFor] + ([Identifier(v)] + ([Assign] + (a + ([KwTo] + rest)))))
         == [Identifier(v)] + (Leaves(a) + Leaves(rest))
  {
    var t1 := a + ([KwTo] + rest);
    LeavesSkip(KwFor, [Identifier(v)] + ([Assign] + t1));
    LeavesPush(Identifier(v), [Assign] + t1);
    LeavesSkip(Assign, t1);
    LeavesAround(a, KwTo, rest);
  }

  lemma ForFormLeaves(v: string, a: seq<Token>, b: seq<Token>, step: seq<Token>, body: seq<Token>)
    ensures Leaves(ForForm(v, a, b, step, body) + [])
         == [Identifier(v)] + (Leaves(a) + (Leaves(b) + (Leaves(step) + Leaves(body))))
  {
    ForThen(v, a, b, step, body, []);
    var t4 := body + ([KwEndFor] + ([Semicolon] + []));
    var t3 := step + ([KwDo] + t4);
    ForHeadLeaves(v, a, b + t3);
    LeavesAppend(b, t3);
    LeavesAround(step, KwDo, t4);
    LeavesBeforeEnd(body, KwEndFor);
  }

  lemma {:induction false} LeavesOfFor(ts: seq<Token>, st: StStatement)
    requires st.For? && DerivesFor(ts, st)
    ensures Leaves(ts + []) == StatementLeaves(st)
    decreases |ts|, 1, 0
  {
    var a, b, step, body := SplitFor(ts, st);
    ForFormLeaves(st.loopVar, a, b, step, body);
    LeavesOfExpr(0, a, st.start);
    LeavesOfExpr(0, b, st.end);
    LeavesOfStep(step, st.step);
    LeavesOfProgram(body, st.forBody);
  }

  lemma IfFormLeaves(c: seq<Token>, body: seq<Token>, elsifs: seq<Token>, last: seq<Token>)
    ensures Leaves(IfForm(c, body, elsifs, last) + [])
         == Leaves(c) + (Leaves(body) + (Leaves(elsifs) + Leaves(last)))
  {
    IfThen(c, body, elsifs, last, []);
    var t4 := last + ([KwEndIf] + ([Semicolon] + []));
    var t3 := elsifs + t4;
    var t2 := body + t3;
    LeavesSkip(KwIf, c + ([KwThen] + t2));
    LeavesAround(c, KwThen, t2);
    LeavesAppend(body, t3);
    LeavesAppend(elsifs, t4);
    LeavesBeforeEnd(last, KwEndIf);
  }

  lemma {:induction false} LeavesOfIf(ts: seq<Token>, st: StStatement)
    requires st.If? && DerivesIf(ts, st)
    ensures Leaves(ts + []) == StatementLeaves(st)
    decreases |ts|, 1, 0
  {
    var c, body, elsifs, last := SplitIf(ts, st);
    IfFormLeaves(c, body, elsifs, last);
    LeavesOfExpr(0, c, st.condition);
    LeavesOfProgram(body, st.thenBody);
    LeavesOfElsifs(elsifs, st.elsifs);
    LeavesOfElse(last, st.elsePart);
  }

  lemma ElsifFormLeaves(c: seq<Token>, body: seq<Token>, more: seq<Token>)
    ensures Leaves(ElsifForm(c, body) + more) == Leaves(c) + (Leaves(body) + Leaves(more))
  {
    ElsifThen(c, body, more);
    LeavesSkip(KwElsif, c + ([KwThen] + (body + more)));
    LeavesAround(c, KwThen, body + more);
    LeavesAppend(body, more);
  }

  lemma {:induction false} LeavesOfElsifs(ts: seq<Token>, bs: seq<ElsifBranch>)
    requires DerivesElsifs(ts, bs)
    ensures Leaves(ts) == ElsifLeaves(bs)
    decreases |ts|, 0, |bs|
  {
    if bs != [] {
      var c, body, more := SplitElsifs(ts, bs);
      ElsifFormLeaves(c, body, more);
      LeavesOfExpr(0, c, bs[0].cond);
      LeavesOfProgram(body, bs[0].body);
      LeavesOfElsifs(more, bs[1..]);
    }
  }

  lemma {:induction false} LeavesOfElse(ts: seq<Token>, part: ElsePart)
    requires DerivesElse(ts, part)
    ensures Leaves(ts) == ElseLeaves(part)
    decreases |ts|, 0, 0
  {
    if part.Else? {
      LeavesOfProgram(ts[1..], part.body);
    }
  }

  /** Conservation: the identifiers and literals of a program that parses, read left to right, are exactly those
      of its token list.  Only keywords, operators and punctuation are interpreted. */
  lemma ParsingConservesLeaves(ts: seq<Token>, ss: seq<StStatement>)
    requires ParseProgram(ts) == Ok(ss)
    ensures Leaves(ts) == ProgramLeaves(ss)
  {
    ParserAdequate(ts, ss);
    LeavesOfProgram(ts, ss);
  }
}
