/** Printing syntax back to tokens with as few parentheses as possible, and the round trip through the parser. */
module StPrinter {
  import opened Machine
  import opened StAst
  import opened StTokens
  import opened StParser
  import opened StGrammar
  import opened StAdequacy

  /** The strongest level at which an expression can stand without parentheses. */
  function OwnLevel(e: StExpr): (lvl: nat)
    ensures lvl <= PRIMARY
  {
    match e
    case Literal(_) => PRIMARY
    case Variable(_) => PRIMARY
    case Unary(_, _) => UNARY
    case Binary(op, _, _) => LevelOf(op)
  }

  function PrintBare(e: StExpr): seq<Token>
    decreases e, 0
  {
    match e
    case Literal(lit) => [LiteralToken(lit)]
    case Variable(n) => [Identifier(n)]
    case Unary(op, x) => [UnaryToken(op)] + PrintExpr(UNARY, x)
    case Binary(op, l, r) => PrintExpr(LeftLevel(LevelOf(op)), l) + [OperatorToken(op)] + PrintExpr(LevelOf(op) + 1, r)
  }

  /** Parentheses appear only where the context binds tighter than the expression. */
  function PrintExpr(lvl: nat, e: StExpr): seq<Token>
    decreases e, 1
  {
    if OwnLevel(e) >= lvl then PrintBare(e) else [LeftParen] + PrintBare(e) + [RightParen]
  }

  function PrintStep(step: Option<StExpr>): seq<Token> {
    if step.None? then [] else [KwBy] + PrintExpr(0, step.value)
  }

  function PrintInputs(inputs: seq<FbInput>): seq<Token> {
    if inputs == [] then [] else
      InputForm(inputs[0].param, [Assign], PrintExpr(0, inputs[0].expr), [Comma]) + PrintInputs(inputs[1..])
  }

  function PrintStatements(ss: seq<StStatement>): seq<Token>
    decreases ss, 0
  {
    if ss == [] then [] else PrintStatement(ss[0]) + PrintStatements(ss[1..])
  }

  function PrintStatement(st: StStatement): seq<Token>
    decreases st, 0
  {
    match st
    case Assignment(v, e) => AssignmentForm(v, PrintExpr(0, e))
    case If(c, thenBody, elsifs, elsePart) =>
      IfForm(PrintExpr(0, c), PrintStatements(thenBody), PrintElsifs(elsifs), PrintElse(elsePart))
    case While(c, body) => WhileForm(PrintExpr(0, c), PrintStatements(body))
    case Repeat(body, c) => RepeatForm(PrintStatements(body), PrintExpr(0, c))
    case For(v, a, b, step, body) =>
      ForForm(v, PrintExpr(0, a), PrintExpr(0, b), PrintStep(step), PrintStatements(body))
    case FbCall(n, inputs) => CallForm(n, PrintInputs(inputs))
  }

  function PrintElsifs(bs: seq<ElsifBranch>): seq<Token>
    decreases bs, 0
  {
    if bs == [] then [] else
      ElsifForm(PrintExpr(0, bs[0].cond), PrintStatements(bs[0].body)) + PrintElsifs(bs[1..])
  }

  function PrintElse(part: ElsePart): seq<Token>
    decreases part, 0
  {
    match part
    case NoElse => []
    case Else(body) => [KwElse] + PrintStatements(body)
  }

  // ----- What is printed derives what was printed -----

  lemma {:induction false} Loosen(tight: nat, loose: nat, ts: seq<Token>, e: StExpr)
    requires loose <= tight <= PRIMARY && DerivesExpr(tight, ts, e)
    ensures DerivesExpr(loose, ts, e)
    decreases tight - loose
  {
    if loose < tight {
      Loosen(tight, loose + 1, ts, e);
    }
  }

  lemma {:induction false} BareDerives(e: StExpr)
    ensures DerivesExpr(OwnLevel(e), PrintBare(e), e)
    decreases e, 0
  {
    match e
    case Literal(_) =>
    case Variable(_) =>
    case Unary(op, x) =>
      PrintDerives(UNARY, x);
      assert PrintBare(e)[1..] == PrintExpr(UNARY, x);
    case Binary(op, l, r) =>
      PrintDerives(LeftLevel(LevelOf(op)), l);
      PrintDerives(LevelOf(op) + 1, r);
      assert DerivesBinary(LevelOf(op), PrintBare(e), e);
  }

  lemma {:induction false} PrintDerives(lvl: nat, e: StExpr)
    requires lvl <= PRIMARY
    ensures DerivesExpr(lvl, PrintExpr(lvl, e), e)
    decreases e, 1
  {
    BareDerives(e);
    if OwnLevel(e) >= lvl {
      Loosen(OwnLevel(e), lvl, PrintBare(e), e);
    } else {
      var ts := PrintExpr(lvl, e);
      Loosen(OwnLevel(e), 0, PrintBare(e), e);
      DerivesNonempty(0, PrintBare(e), e);
      assert ts[1..|ts| - 1] == PrintBare(e);
      assert DerivesExpr(PRIMARY, ts, e);
      Loosen(PRIMARY, lvl, ts, e);
    }
  }

  lemma {:induction false} StatementsDerive(ss: seq<StStatement>)
    ensures DerivesStatements(PrintStatements(ss), ss)
    decreases ss, 0
  {
    if ss != [] {
      StatementDerives(ss[0]);
      StatementsDerive(ss[1..]);
    }
  }

  lemma {:induction false} StatementDerives(st: StStatement)
    ensures DerivesStatement(PrintStatement(st), st)
    decreases st, 0
  {
    match st
    case Assignment(v, e) =>
      PrintDerives(0, e);
    case If(c, thenBody, elsifs, elsePart) =>
      PrintDerives(0, c);
      StatementsDerive(thenBody);
      ElsifsDerive(elsifs);
      ElseDerives(elsePart);
      assert DerivesIf(PrintStatement(st), st);
    case While(c, body) =>
      PrintDerives(0, c);
      StatementsDerive(body);
      assert DerivesWhile(PrintStatement(st), st);
    case Repeat(body, c) =>
      StatementsDerive(body);
      PrintDerives(0, c);
      assert DerivesRepeat(PrintStatement(st), st);
    case For(v, a, b, step, body) =>
      PrintDerives(0, a);
      PrintDerives(0, b);
      StepDerives(step);
      StatementsDerive(body);
      assert DerivesFor(PrintStatement(st), st);
    case FbCall(n, inputs) =>
      InputsDerive(inputs);
      assert DerivesCall(PrintStatement(st), st);
  }

  lemma {:induction false} ElsifsDerive(bs: seq<ElsifBranch>)
    ensures DerivesElsifs(PrintElsifs(bs), bs)
    decreases bs, 0
  {
    if bs != [] {
      PrintDerives(0, bs[0].cond);
      StatementsDerive(bs[0].body);
      ElsifsDerive(bs[1..]);
    }
  }

  lemma {:induction false} ElseDerives(part: ElsePart)
    ensures DerivesElse(PrintElse(part), part)
    decreases part, 0
  {
    if part.Else? {
      StatementsDerive(part.body);
      assert PrintElse(part)[1..] == PrintStatements(part.body);
    }
  }

  lemma StepDerives(step: Option<StExpr>)
    ensures DerivesStep(PrintStep(step), step)
  {
    if step.Some? {
      PrintDerives(0, step.value);
      assert PrintStep(step)[1..] == PrintExpr(0, step.value);
    }
  }

  lemma {:induction false} InputsDerive(inputs: seq<FbInput>)
    ensures DerivesInputs(PrintInputs(inputs), inputs)
  {
    if inputs != [] {
      PrintDerives(0, inputs[0].expr);
      InputsDerive(inputs[1..]);
      JoinInputs(inputs[0].param, [Assign], PrintExpr(0, inputs[0].expr), inputs[0].expr, [Comma],
                 PrintInputs(inputs[1..]), inputs[1..]);
      assert [FbInput(inputs[0].param, inputs[0].expr)] + inputs[1..] == inputs;
    }
  }

  // ----- Main results -----

  /** Printing any program and parsing the tokens gives back exactly that program. */
  lemma RoundTrip(ss: seq<StStatement>)
    ensures ParseProgram(PrintStatements(ss)) == Ok(ss)
  {
    StatementsDerive(ss);
    ParserAdequate(PrintStatements(ss), ss);
  }

  /** An expression can be read back from the middle of any text, as long as no operator continues it. */
  lemma ExpressionRoundTrip(e: StExpr, rest: seq<Token>)
    requires NoOperatorFrom(0, rest)
    ensures ParseExpression(PrintExpr(0, e) + rest) == Ok(Parsed(e, rest))
  {
    PrintDerives(0, e);
    LevelComplete(0, PrintExpr(0, e), e, rest);
  }

  /** No shorter token list parses to the expression: the printed parentheses are all needed. */
  lemma {:induction false} PrintShortest(lvl: nat, ts: seq<Token>, e: StExpr)
    requires lvl <= PRIMARY && DerivesExpr(lvl, ts, e)
    ensures |PrintExpr(lvl, e)| <= |ts|
    decreases |ts|, PRIMARY - lvl
  {
    if lvl < UNARY {
      if DerivesExpr(lvl + 1, ts, e) {
        PrintShortest(lvl + 1, ts, e);
      } else {
        var l, r := Operands(lvl, ts, e);
        PrintShortest(LeftLevel(lvl), l, e.left);
        PrintShortest(lvl + 1, r, e.right);
      }
    } else if lvl == UNARY {
      if DerivesExpr(PRIMARY, ts, e) {
        PrintShortest(PRIMARY, ts, e);
      } else {
        PrintShortest(UNARY, ts[1..], e.expr);
      }
    } else if |ts| > 1 {
      PrintShortest(0, ts[1..|ts| - 1], e);
    }
  }

  lemma NothingShorterParses(ts: seq<Token>, e: StExpr)
    requires ParseExpression(ts) == Ok(Parsed(e, []))
    ensures |PrintExpr(0, e)| <= |ts|
  {
    ExpressionAdequate(ts, e);
    PrintShortest(0, ts, e);
  }
}
