/** A declarative grammar for Structured Text, and the proof that the parser accepts exactly its
    sentences and returns their only derivation. */
module StGrammar {
  import opened Machine
  import opened StAst
  import opened StTokens
  import opened StParser

  // ----- Expressions -----

  /** Left operands may be chains of the same level, except that relational operators do not chain. */
  function LeftLevel(lvl: nat): nat {
    if lvl == 2 then 3 else lvl
  }

  /**
      E(lvl)  ::=  E(lvl + 1)  |  E(LeftLevel(lvl)) op E(lvl + 1)      for op of level lvl <= 4
      E(5)    ::=  NOT E(5)  |  - E(5)  |  E(6)
      E(6)    ::=  literal  |  identifier  |  ( E(0) )
   */
  ghost predicate DerivesExpr(lvl: nat, ts: seq<Token>, e: StExpr)
    requires lvl <= PRIMARY
    decreases |ts|, PRIMARY - lvl
  {
    if lvl < UNARY then
      || DerivesExpr(lvl + 1, ts, e)
      || DerivesBinary(lvl, ts, e)
    else if lvl == UNARY then
      || (e.Unary? && ts != [] && ts[0] == UnaryToken(e.uop) && DerivesExpr(UNARY, ts[1..], e.expr))
      || DerivesExpr(PRIMARY, ts, e)
    else
      || (e.Literal? && ts == [LiteralToken(e.lit)])
      || (e.Variable? && ts == [Identifier(e.name)])
      || (|ts| > 2 && ts[0] == LeftParen && ts[|ts| - 1] == RightParen && DerivesExpr(0, ts[1..|ts| - 1], e))
  }

  ghost predicate DerivesBinary(lvl: nat, ts: seq<Token>, e: StExpr)
    requires lvl < UNARY
    decreases |ts|, 0
  {
    && e.Binary? && LevelOf(e.op) == lvl
    && exists l, r ::
         && ts == l + [OperatorToken(e.op)] + r
         && DerivesExpr(LeftLevel(lvl), l, e.left)
         && DerivesExpr(lvl + 1, r, e.right)
  }

  // ----- Sentence forms -----

  function AssignmentForm(v: string, x: seq<Token>): seq<Token> {
    [Identifier(v), Assign] + x + [Semicolon]
  }

  function CallForm(n: string, inputs: seq<Token>): seq<Token> {
    [Identifier(n), LeftParen] + inputs + [RightParen, Semicolon]
  }

  /** After a parameter name, `:=`, `=>` or nothing; after its value, a comma or nothing. */
  function InputForm(n: string, mark: seq<Token>, x: seq<Token>, comma: seq<Token>): seq<Token> {
    [Identifier(n)] + mark + x + comma
  }

  function IfForm(c: seq<Token>, body: seq<Token>, elsifs: seq<Token>, last: seq<Token>): seq<Token> {
    [KwIf] + c + [KwThen] + body + elsifs + last + [KwEndIf, Semicolon]
  }

  function ElsifForm(c: seq<Token>, body: seq<Token>): seq<Token> {
    [KwElsif] + c + [KwThen] + body
  }

  function WhileForm(c: seq<Token>, body: seq<Token>): seq<Token> {
    [KwWhile] + c + [KwDo] + body + [KwEndWhile, Semicolon]
  }

  function RepeatForm(body: seq<Token>, c: seq<Token>): seq<Token> {
    [KwRepeat] + body + [KwUntil] + c + [KwEndRepeat, Semicolon]
  }

  function ForForm(v: string, a: seq<Token>, b: seq<Token>, step: seq<Token>, body: seq<Token>): seq<Token> {
    [KwFor, Identifier(v), Assign] + a + [KwTo] + b + step + [KwDo] + body + [KwEndFor, Semicolon]
  }

  // ----- Statements -----

  ghost predicate DerivesStatements(ts: seq<Token>, ss: seq<StStatement>)
    decreases |ts|, 3, |ss|
  {
    if ss == [] then ts == [] else
      exists first, more ::
        ts == first + more && DerivesStatement(first, ss[0]) && DerivesStatements(more, ss[1..])
  }

  ghost predicate DerivesStatement(ts: seq<Token>, st: StStatement)
    decreases |ts|, 2, 0
  {
    match st
    case Assignment(_, _) => DerivesAssignment(ts, st)
    case If(_, _, _, _) => DerivesIf(ts, st)
    case While(_, _) => DerivesWhile(ts, st)
    case Repeat(_, _) => DerivesRepeat(ts, st)
    case For(_, _, _, _, _) => DerivesFor(ts, st)
    case FbCall(_, _) => DerivesCall(ts, st)
  }

  ghost predicate DerivesAssignment(ts: seq<Token>, st: StStatement)
    requires st.Assignment?
    decreases |ts|, 1, 0
  {
    exists x :: ts == AssignmentForm(st.variable, x) && DerivesExpr(0, x, st.value)
  }

  ghost predicate DerivesCall(ts: seq<Token>, st: StStatement)
    requires st.FbCall?
    decreases |ts|, 1, 0
  {
    exists a :: ts == CallForm(st.name, a) && DerivesInputs(a, st.inputs)
  }

  ghost predicate DerivesInputs(ts: seq<Token>, inputs: seq<FbInput>)
    decreases |ts|, 0, |inputs|
  {
    if inputs == [] then ts == [] else
      exists mark, x, comma, more ::
        && ts == InputForm(inputs[0].param, mark, x, comma) + more
        && mark in {[], [Assign], [OutputAssign]} && comma in {[], [Comma]}
        && DerivesExpr(0, x, inputs[0].expr)
        && DerivesInputs(more, inputs[1..])
  }

  ghost predicate DerivesIf(ts: seq<Token>, st: StStatement)
    requires st.If?
    decreases |ts|, 1, 0
  {
    exists c, body, elsifs, last ::
      && ts == IfForm(c, body, elsifs, last)
      && DerivesExpr(0, c, st.condition) && DerivesStatements(body, st.thenBody)
      && DerivesElsifs(elsifs, st.elsifs) && DerivesElse(last, st.elsePart)
  }

  ghost predicate DerivesElsifs(ts: seq<Token>, bs: seq<ElsifBranch>)
    decreases |ts|, 0, |bs|
  {
    if bs == [] then ts == [] else
      exists c, body, more ::
        && ts == ElsifForm(c, body) + more
        && DerivesExpr(0, c, bs[0].cond) && DerivesStatements(body, bs[0].body)
        && DerivesElsifs(more, bs[1..])
  }

  ghost predicate DerivesElse(ts: seq<Token>, part: ElsePart)
    decreases |ts|, 0, 0
  {
    if part.NoElse? then ts == [] else ts != [] && ts[0] == KwElse && DerivesStatements(ts[1..], part.body)
  }

  ghost predicate DerivesWhile(ts: seq<Token>, st: StStatement)
    requires st.While?
    decreases |ts|, 1, 0
  {
    exists c, b :: ts == WhileForm(c, b) && DerivesExpr(0, c, st.whileCond) && DerivesStatements(b, st.whileBody)
  }

  ghost predicate DerivesRepeat(ts: seq<Token>, st: StStatement)
    requires st.Repeat?
    decreases |ts|, 1, 0
  {
    exists b, c :: ts == RepeatForm(b, c) && DerivesStatements(b, st.repeatBody) && DerivesExpr(0, c, st.untilCond)
  }

  ghost predicate DerivesFor(ts: seq<Token>, st: StStatement)
    requires st.For?
    decreases |ts|, 1, 0
  {
    exists a, b, step, body ::
      && ts == ForForm(st.loopVar, a, b, step, body)
      && DerivesExpr(0, a, st.start) && DerivesExpr(0, b, st.end)
      && DerivesStep(step, st.step) && DerivesStatements(body, st.forBody)
  }

  ghost predicate DerivesStep(ts: seq<Token>, step: Option<StExpr>)
    decreases |ts|, 0, 0
  {
    if step.None? then ts == [] else ts != [] && ts[0] == KwBy && DerivesExpr(0, ts[1..], step.value)
  }

  // ----- Soundness: what the parser returns is derived by the tokens it consumed -----

  lemma {:induction false} LevelSound(lvl: nat, ts: seq<Token>) returns (xs: seq<Token>)
    requires lvl <= PRIMARY && ParseLevel(lvl, ts).Ok?
    ensures var p := ParseLevel(lvl, ts).value; ts == xs + p.rest && DerivesExpr(lvl, xs, p.value)
    decreases |ts|, PRIMARY - lvl, 1
  {
    var p := ParseLevel(lvl, ts).value;
    if lvl < UNARY {
      var left := ParseLevel(lvl + 1, ts).value;
      var l := LevelSound(lvl + 1, ts);
      xs := TailSound(lvl, left.value, l, left.rest);
    } else if lvl == UNARY {
      if ts[0] == KwNot || ts[0] == Minus {
        var inner := LevelSound(UNARY, ts[1..]);
        xs := [ts[0]] + inner;
        assert xs[1..] == inner;
      } else {
        xs := LevelSound(PRIMARY, ts);
      }
    } else {
      xs := PrimarySound(ts);
    }
  }

  lemma {:induction false} PrimarySound(ts: seq<Token>) returns (xs: seq<Token>)
    requires ParseLevel(PRIMARY, ts).Ok?
    ensures var p := ParseLevel(PRIMARY, ts).value; ts == xs + p.rest && DerivesExpr(PRIMARY, xs, p.value)
    decreases |ts|, 0, 0
  {
    if ts[0] == LeftParen {
      var inner := LevelSound(0, ts[1..]);
      xs := [LeftParen] + inner + [RightParen];
      assert xs[1..|xs| - 1] == inner;
      DerivesNonempty(0, inner, ParseLevel(PRIMARY, ts).value.value);
    } else {
      xs := [ts[0]];
    }
  }

  /** Two operands and the operator between them. */
  lemma Joined(lvl: nat, op: BinaryOp, l: seq<Token>, left: StExpr, r: seq<Token>, right: StExpr,
               ts: seq<Token>, rest: seq<Token>) returns (xs: seq<Token>)
    requires lvl < UNARY && LevelOf(op) == lvl && DerivesExpr(LeftLevel(lvl), l, left) && DerivesExpr(lvl + 1, r, right)
    requires ts != [] && ts[0] == OperatorToken(op) && ts[1..] == r + rest
    ensures l + ts == xs + rest && DerivesExpr(lvl, xs, Binary(op, left, right))
  {
    xs := l + [OperatorToken(op)] + r;
    assert DerivesBinary(lvl, xs, Binary(op, left, right));
    assert ts == [OperatorToken(op)] + ts[1..];
  }

  lemma {:induction false} TailSound(lvl: nat, left: StExpr, l: seq<Token>, ts: seq<Token>) returns (xs: seq<Token>)
    requires lvl < UNARY && ParseTail(lvl, left, ts).Ok? && DerivesExpr(LeftLevel(lvl), l, left)
    ensures var p := ParseTail(lvl, left, ts).value; l + ts == xs + p.rest && DerivesExpr(lvl, xs, p.value)
    decreases |ts|, PRIMARY + 1, 0
  {
    var op := OperatorAt(lvl, ts);
    if op.None? {
      xs := l;
    } else {
      var right := ParseLevel(lvl + 1, ts[1..]).value;
      var r := LevelSound(lvl + 1, ts[1..]);
      var both := Binary(op.value, left, right.value);
      xs := Joined(lvl, op.value, l, left, r, right.value, ts, right.rest);
      if lvl != 2 {
        xs := TailSound(lvl, both, xs, right.rest);
      }
    }
  }

  lemma {:induction false} DerivesNonempty(lvl: nat, ts: seq<Token>, e: StExpr)
    requires lvl <= PRIMARY && DerivesExpr(lvl, ts, e)
    ensures ts != []
    decreases PRIMARY - lvl
  {
    if lvl < UNARY && DerivesExpr(lvl + 1, ts, e) {
      DerivesNonempty(lvl + 1, ts, e);
    }
  }

  // ----- Completeness: a derivation is what the parser finds -----

  /** No binary operator of the given level or stronger follows. */
  predicate NoOperatorFrom(lvl: nat, ts: seq<Token>) {
    ts == [] || OperatorOf(ts[0]).None? || LevelOf(OperatorOf(ts[0]).value) < lvl
  }

  lemma Operands(lvl: nat, xs: seq<Token>, e: StExpr) returns (l: seq<Token>, r: seq<Token>)
    requires lvl < UNARY && DerivesBinary(lvl, xs, e)
    ensures xs == l + [OperatorToken(e.op)] + r && |l| < |xs| && |r| < |xs|
    ensures DerivesExpr(LeftLevel(lvl), l, e.left) && DerivesExpr(lvl + 1, r, e.right)
  {
    l, r :| && xs == l + [OperatorToken(e.op)] + r
            && DerivesExpr(LeftLevel(lvl), l, e.left) && DerivesExpr(lvl + 1, r, e.right);
  }

  lemma OperatorFound(op: BinaryOp, ts: seq<Token>)
    ensures OperatorAt(LevelOf(op), [OperatorToken(op)] + ts) == Some(op)
    ensures ([OperatorToken(op)] + ts)[1..] == ts
  {
  }

  /** One round of the tail loop. */
  lemma TailRound(lvl: nat, left: StExpr, op: BinaryOp, right: StExpr, r: seq<Token>, rest: seq<Token>)
    requires lvl == LevelOf(op) && ParseLevel(lvl + 1, r + rest) == Ok(Parsed(right, rest))
    ensures var both := Binary(op, left, right);
            ParseTail(lvl, left, [OperatorToken(op)] + (r + rest)) ==
              if lvl == 2 then Ok(Parsed(both, rest)) else ParseTail(lvl, both, rest)
  {
    OperatorFound(op, r + rest);
  }

  /** A chain of one level is folded up to the tail that continues it. */
  lemma {:induction false} Spine(lvl: nat, xs: seq<Token>, e: StExpr, rest: seq<Token>)
    requires lvl < UNARY && lvl != 2 && DerivesExpr(lvl, xs, e) && NoOperatorFrom(lvl + 1, rest)
    ensures ParseLevel(lvl, xs + rest) == ParseTail(lvl, e, rest)
    decreases |xs|, PRIMARY - lvl, 0
  {
    if DerivesExpr(lvl + 1, xs, e) {
      LevelComplete(lvl + 1, xs, e, rest);
      FirstOperand(lvl, xs + rest, e, rest);
    } else {
      var l, r := Operands(lvl, xs, e);
      var after := [OperatorToken(e.op)] + (r + rest);
      Regroup(l, [OperatorToken(e.op)], r, rest);
      Spine(lvl, l, e.left, after);
      LevelComplete(lvl + 1, r, e.right, rest);
      TailRound(lvl, e.left, e.op, e.right, r, rest);
    }
  }

  lemma FirstOperand(lvl: nat, ts: seq<Token>, e: StExpr, rest: seq<Token>)
    requires lvl < UNARY && ParseLevel(lvl + 1, ts) == Ok(Parsed(e, rest))
    ensures ParseLevel(lvl, ts) == ParseTail(lvl, e, rest)
  {
  }

  lemma Regroup(l: seq<Token>, op: seq<Token>, r: seq<Token>, rest: seq<Token>)
    ensures (l + op + r) + rest == l + (op + (r + rest))
  {
  }

  /** Parsing a derived expression stops exactly where it ends, provided no operator continues it. */
  lemma {:induction false} LevelComplete(lvl: nat, xs: seq<Token>, e: StExpr, rest: seq<Token>)
    requires lvl <= PRIMARY && DerivesExpr(lvl, xs, e) && NoOperatorFrom(lvl, rest)
    ensures ParseLevel(lvl, xs + rest) == Ok(Parsed(e, rest))
    decreases |xs|, PRIMARY - lvl, 1
  {
    if lvl < UNARY && lvl != 2 {
      Spine(lvl, xs, e, rest);
    } else if lvl == 2 {
      RelationComplete(xs, e, rest);
    } else if lvl == UNARY {
      UnaryComplete(xs, e, rest);
    } else {
      PrimaryComplete(xs, e, rest);
    }
  }

  lemma {:induction false} UnaryComplete(xs: seq<Token>, e: StExpr, rest: seq<Token>)
    requires DerivesExpr(UNARY, xs, e) && NoOperatorFrom(UNARY, rest)
    ensures ParseLevel(UNARY, xs + rest) == Ok(Parsed(e, rest))
    decreases |xs|, PRIMARY - UNARY, 0
  {
    if e.Unary? && xs != [] && xs[0] == UnaryToken(e.uop) && DerivesExpr(UNARY, xs[1..], e.expr) {
      assert (xs + rest)[1..] == xs[1..] + rest;
      LevelComplete(UNARY, xs[1..], e.expr, rest);
    } else {
      LevelComplete(PRIMARY, xs, e, rest);
    }
  }

  lemma {:induction false} PrimaryComplete(xs: seq<Token>, e: StExpr, rest: seq<Token>)
    requires DerivesExpr(PRIMARY, xs, e)
    ensures ParseLevel(PRIMARY, xs + rest) == Ok(Parsed(e, rest))
    decreases |xs|, PRIMARY - PRIMARY, 0
  {
    assert xs != [] && (xs + rest)[0] == xs[0];
    if |xs| > 2 {
      var inner := xs[1..|xs| - 1];
      var after := [RightParen] + rest;
      assert (xs + rest)[1..] == inner + after;
      LevelComplete(0, inner, e, after);
    } else {
      assert (xs + rest)[1..] == rest;
    }
  }

  lemma {:induction false} RelationComplete(xs: seq<Token>, e: StExpr, rest: seq<Token>)
    requires DerivesExpr(2, xs, e) && NoOperatorFrom(2, rest)
    ensures ParseLevel(2, xs + rest) == Ok(Parsed(e, rest))
    decreases |xs|, PRIMARY - 2, 0
  {
    if DerivesExpr(3, xs, e) {
      LevelComplete(3, xs, e, rest);
    } else {
      var l, r := Operands(2, xs, e);
      var after := [OperatorToken(e.op)] + (r + rest);
      Regroup(l, [OperatorToken(e.op)], r, rest);
      LevelComplete(3, l, e.left, after);
      FirstOperand(2, xs + rest, e.left, after);
      LevelComplete(3, r, e.right, rest);
      TailRound(2, e.left, e.op, e.right, r, rest);
    }
  }

  /** Expressions: the parser accepts a token list completely, with result e, exactly when it derives e. */
  lemma ExpressionAdequate(ts: seq<Token>, e: StExpr)
    ensures ParseExpression(ts) == Ok(Parsed(e, [])) <==> DerivesExpr(0, ts, e)
  {
    if ParseExpression(ts) == Ok(Parsed(e, [])) {
      var xs := LevelSound(0, ts);
      assert xs + [] == xs;
    }
    if DerivesExpr(0, ts, e) {
      LevelComplete(0, ts, e, []);
      assert ts + [] == ts;
    }
  }
}
