/** Statements: the parser accepts exactly the sentences of the grammar, each with its only derivation. */
module StAdequacy {
  import opened Machine
  import opened StAst
  import opened StTokens
  import opened StParser
  import opened StGrammar

  // ----- Forms followed by more tokens, read from the left -----

  lemma AssignmentThen(v: string, x: seq<Token>, rest: seq<Token>)
    ensures AssignmentForm(v, x) + rest == [Identifier(v)] + ([Assign] + (x + ([Semicolon] + rest)))
  {
  }

  lemma CallThen(n: string, a: seq<Token>, rest: seq<Token>)
    ensures CallForm(n, a) + rest == [Identifier(n)] + ([LeftParen] + (a + ([RightParen] + ([Semicolon] + rest))))
  {
  }

  lemma InputThen(n: string, mark: seq<Token>, x: seq<Token>, comma: seq<Token>, rest: seq<Token>)
    ensures InputForm(n, mark, x, comma) + rest == [Identifier(n)] + (mark + (x + (comma + rest)))
  {
  }

  lemma IfThen(c: seq<Token>, body: seq<Token>, elsifs: seq<Token>, last: seq<Token>, rest: seq<Token>)
    ensures IfForm(c, body, elsifs, last) + rest
         == [KwIf] + (c + ([KwThen] + (body + (elsifs + (last + ([KwEndIf] + ([Semicolon] + rest)))))))
  {
  }

  lemma ElsifThen(c: seq<Token>, body: seq<Token>, rest: seq<Token>)
    ensures ElsifForm(c, body) + rest == [KwElsif] + (c + ([KwThen] + (body + rest)))
  {
  }

  lemma WhileThen(c: seq<Token>, b: seq<Token>, rest: seq<Token>)
    ensures WhileForm(c, b) + rest == [KwWhile] + (c + ([KwDo] + (b + ([KwEndWhile] + ([Semicolon] + rest)))))
  {
  }

  lemma RepeatThen(b: seq<Token>, c: seq<Token>, rest: seq<Token>)
    ensures RepeatForm(b, c) + rest == [KwRepeat] + (b + ([KwUntil] + (c + ([KwEndRepeat] + ([Semicolon] + rest)))))
  {
  }

  lemma ForThen(v: string, a: seq<Token>, b: seq<Token>, step: seq<Token>, body: seq<Token>, rest: seq<Token>)
    ensures ForForm(v, a, b, step, body) + rest
         == [KwFor] + ([Identifier(v)] + ([Assign] + (a + ([KwTo] + (b + (step + ([KwDo] + (body
            + ([KwEndFor] + ([Semicolon] + rest))))))))))
  {
  }

  lemma Assoc(a: seq<Token>, b: seq<Token>, c: seq<Token>)
    ensures (a + b) + c == a + (b + c)
  {
  }

  lemma Uncons(ts: seq<Token>)
    requires ts != []
    ensures ts == [ts[0]] + ts[1..]
  {
  }

  // ----- Soundness -----

  lemma {:induction false} StatementsSound(stops: set<Token>, ts: seq<Token>) returns (xs: seq<Token>)
    requires ParseStatements(stops, ts).Ok?
    ensures var p := ParseStatements(stops, ts).value; ts == xs + p.rest && DerivesStatements(xs, p.value)
    decreases |ts|, 3
  {
    if ts == [] || ts[0] in stops {
      xs := [];
    } else {
      var first := ParseStatement(ts).value;
      var more := ParseStatements(stops, first.rest).value;
      var a := StatementSound(ts);
      var b := StatementsSound(stops, first.rest);
      xs := a + b;
      Assoc(a, b, more.rest);
    }
  }

  lemma {:induction false} StatementSound(ts: seq<Token>) returns (xs: seq<Token>)
    requires ParseStatement(ts).Ok?
    ensures var p := ParseStatement(ts).value; ts == xs + p.rest && DerivesStatement(xs, p.value)
    decreases |ts|, 2
  {
    match ts[0]
    case KwIf => xs := IfSound(ts);
    case KwWhile => xs := WhileSound(ts);
    case KwRepeat => xs := RepeatSound(ts);
    case KwFor => xs := ForSound(ts);
    case Identifier(id) => xs := SimpleSound(id, ts);
  }

  lemma {:induction false} SimpleSound(name: string, ts: seq<Token>) returns (xs: seq<Token>)
    requires ts != [] && ts[0] == Identifier(name) && ParseSimple(name, ts).Ok?
    ensures var p := ParseSimple(name, ts).value; ts == xs + p.rest && DerivesStatement(xs, p.value)
    decreases |ts|, 1
  {
    if Peek(ts[1..]) == Some(Assign) {
      xs := AssignmentSound(name, ts);
    } else {
      xs := CallSound(name, ts);
    }
  }

  lemma AssignmentSound(name: string, ts: seq<Token>) returns (xs: seq<Token>)
    requires ts != [] && ts[0] == Identifier(name) && ParseSimple(name, ts).Ok? && Peek(ts[1..]) == Some(Assign)
    ensures var p := ParseSimple(name, ts).value;
            p.value.Assignment? && ts == xs + p.rest && DerivesAssignment(xs, p.value)
  {
    var t0 := ts[1..];
    var t1 := t0[1..];
    Uncons(ts);
    Uncons(t0);
    var x := LevelSound(0, t1);
    var t2 := ParseExpression(t1).value.rest;
    Uncons(t2);
    xs := AssignmentForm(name, x);
    AssignmentThen(name, x, t2[1..]);
  }

  lemma CallParts(name: string, ts: seq<Token>) returns (t: seq<Token>, inputs: seq<FbInput>, rest: seq<Token>)
    requires ts != [] && ts[0] == Identifier(name) && ParseSimple(name, ts).Ok? && Peek(ts[1..]) != Some(Assign)
    ensures ts == [Identifier(name)] + ([LeftParen] + t)
    ensures ParseInputs(t) == Ok(Parsed(inputs, [RightParen] + ([Semicolon] + rest)))
    ensures ParseSimple(name, ts) == Ok(Parsed(FbCall(name, inputs), rest))
  {
    Uncons(ts);
    Uncons(ts[1..]);
    t := ts[1..][1..];
    var p := ParseInputs(t).value;
    inputs := p.value;
    Uncons(p.rest);
    Uncons(p.rest[1..]);
    rest := p.rest[1..][1..];
  }

  lemma CallSound(name: string, ts: seq<Token>) returns (xs: seq<Token>)
    requires ts != [] && ts[0] == Identifier(name) && ParseSimple(name, ts).Ok? && Peek(ts[1..]) != Some(Assign)
    ensures var p := ParseSimple(name, ts).value;
            p.value.FbCall? && ts == xs + p.rest && DerivesCall(xs, p.value)
  {
    var t, inputs, rest := CallParts(name, ts);
    var a := InputsSound(t);
    xs := CallForm(name, a);
    CallThen(name, a, rest);
  }

  lemma JoinInputs(n: string, mark: seq<Token>, x: seq<Token>, e: StExpr, comma: seq<Token>, b: seq<Token>,
                   inputs: seq<FbInput>)
    requires mark in {[], [Assign], [OutputAssign]} && comma in {[], [Comma]}
    requires DerivesExpr(0, x, e) && DerivesInputs(b, inputs)
    ensures DerivesInputs(InputForm(n, mark, x, comma) + b, [FbInput(n, e)] + inputs)
  {
    var all := [FbInput(n, e)] + inputs;
    assert all[0] == FbInput(n, e) && all[1..] == inputs;
  }

  /** The optional mark before a parameter's value. */
  lemma MarkOf(marked: seq<Token>) returns (mark: seq<Token>, start: seq<Token>)
    ensures mark in {[], [Assign], [OutputAssign]} && marked == mark + start
    ensures start == if Peek(marked) == Some(Assign) || Peek(marked) == Some(OutputAssign) then marked[1..] else marked
  {
    mark, start := [], marked;
    if Peek(marked) == Some(Assign) || Peek(marked) == Some(OutputAssign) {
      mark, start := [marked[0]], marked[1..];
    }
  }

  /** The optional comma after it. */
  lemma CommaOf(after: seq<Token>) returns (comma: seq<Token>, next: seq<Token>)
    ensures comma in {[], [Comma]} && after == comma + next
    ensures next == if Peek(after) == Some(Comma) then after[1..] else after
  {
    comma, next := [], after;
    if Peek(after) == Some(Comma) {
      comma, next := [Comma], after[1..];
    }
  }

  lemma InputSound(ts: seq<Token>) returns (mark: seq<Token>, x: seq<Token>, comma: seq<Token>)
    requires ts != [] && ParseInput(ts).Ok?
    ensures mark in {[], [Assign], [OutputAssign]} && comma in {[], [Comma]}
    ensures var p := ParseInput(ts).value;
            ts == InputForm(p.value.param, mark, x, comma) + p.rest && DerivesExpr(0, x, p.value.expr)
  {
    Uncons(ts);
    var start, next;
    mark, start := MarkOf(ts[1..]);
    x := LevelSound(0, start);
    comma, next := CommaOf(ParseExpression(start).value.rest);
    InputThen(ts[0].id, mark, x, comma, next);
  }

  lemma {:induction false} InputsSound(ts: seq<Token>) returns (xs: seq<Token>)
    requires ParseInputs(ts).Ok?
    ensures var p := ParseInputs(ts).value; ts == xs + p.rest && DerivesInputs(xs, p.value)
    decreases |ts|, 0
  {
    if ts == [] || ts[0] == RightParen {
      xs := [];
    } else {
      var first := ParseInput(ts).value;
      var mark, x, comma := InputSound(ts);
      var b := InputsSound(first.rest);
      var more := ParseInputs(first.rest).value;
      var form := InputForm(first.value.param, mark, x, comma);
      xs := form + b;
      JoinInputs(first.value.param, mark, x, first.value.expr, comma, b, more.value);
      Assoc(form, b, more.rest);
    }
  }

  lemma {:induction false} IfSound(ts: seq<Token>) returns (xs: seq<Token>)
    requires ParseIf(ts).Ok?
    ensures var p := ParseIf(ts).value; p.value.If? && ts == xs + p.rest && DerivesIf(xs, p.value)
    decreases |ts|, 1
  {
    Uncons(ts);
    var cond := ParseExpression(ts[1..]).value;
    var c := LevelSound(0, ts[1..]);
    Uncons(cond.rest);
    var thenBody := ParseStatements(ARM_ENDS, cond.rest[1..]).value;
    var body := StatementsSound(ARM_ENDS, cond.rest[1..]);
    var branches := ParseElsifs(thenBody.rest).value;
    var elsifs := ElsifsSound(thenBody.rest);
    var elsePart := ParseElse(branches.rest).value;
    var last := ElseSound(branches.rest);
    Uncons(elsePart.rest);
    Uncons(elsePart.rest[1..]);
    xs := IfForm(c, body, elsifs, last);
    IfThen(c, body, elsifs, last, elsePart.rest[1..][1..]);
  }

  lemma JoinElsifs(c: seq<Token>, e: StExpr, body: seq<Token>, ss: seq<StStatement>, b: seq<Token>,
                   bs: seq<ElsifBranch>)
    requires DerivesExpr(0, c, e) && DerivesStatements(body, ss) && DerivesElsifs(b, bs)
    ensures DerivesElsifs(ElsifForm(c, body) + b, [ElsifBranch(e, ss)] + bs)
  {
    var all := [ElsifBranch(e, ss)] + bs;
    assert all[0] == ElsifBranch(e, ss) && all[1..] == bs;
  }

  lemma {:induction false} ElsifsSound(ts: seq<Token>) returns (xs: seq<Token>)
    requires ParseElsifs(ts).Ok?
    ensures var p := ParseElsifs(ts).value; ts == xs + p.rest && DerivesElsifs(xs, p.value)
    decreases |ts|, 0
  {
    if Peek(ts) != Some(KwElsif) {
      xs := [];
    } else {
      Uncons(ts);
      var cond := ParseExpression(ts[1..]).value;
      var c := LevelSound(0, ts[1..]);
      Uncons(cond.rest);
      var arm := ParseStatements(ARM_ENDS, cond.rest[1..]).value;
      var body := StatementsSound(ARM_ENDS, cond.rest[1..]);
      var more := ParseElsifs(arm.rest).value;
      var b := ElsifsSound(arm.rest);
      xs := ElsifForm(c, body) + b;
      JoinElsifs(c, cond.value, body, arm.value, b, more.value);
      ElsifThen(c, body, arm.rest);
      Assoc(ElsifForm(c, body), b, more.rest);
    }
  }

  lemma {:induction false} ElseSound(ts: seq<Token>) returns (xs: seq<Token>)
    requires ParseElse(ts).Ok?
    ensures var p := ParseElse(ts).value; ts == xs + p.rest && DerivesElse(xs, p.value)
    decreases |ts|, 0
  {
    if Peek(ts) != Some(KwElse) {
      xs := [];
    } else {
      Uncons(ts);
      var b := StatementsSound({KwEndIf}, ts[1..]);
      xs := [KwElse] + b;
    }
  }

  lemma {:induction false} WhileSound(ts: seq<Token>) returns (xs: seq<Token>)
    requires ParseWhile(ts).Ok?
    ensures var p := ParseWhile(ts).value; p.value.While? && ts == xs + p.rest && DerivesWhile(xs, p.value)
    decreases |ts|, 1
  {
    Uncons(ts);
    var cond := ParseExpression(ts[1..]).value;
    var c := LevelSound(0, ts[1..]);
    Uncons(cond.rest);
    var body := ParseStatements({KwEndWhile}, cond.rest[1..]).value;
    var b := StatementsSound({KwEndWhile}, cond.rest[1..]);
    Uncons(body.rest);
    Uncons(body.rest[1..]);
    xs := WhileForm(c, b);
    WhileThen(c, b, body.rest[1..][1..]);
  }

  lemma {:induction false} RepeatSound(ts: seq<Token>) returns (xs: seq<Token>)
    requires ParseRepeat(ts).Ok?
    ensures var p := ParseRepeat(ts).value; p.value.Repeat? && ts == xs + p.rest && DerivesRepeat(xs, p.value)
    decreases |ts|, 1
  {
    Uncons(ts);
    var body := ParseStatements({KwUntil}, ts[1..]).value;
    var b := StatementsSound({KwUntil}, ts[1..]);
    Uncons(body.rest);
    var cond := ParseExpression(body.rest[1..]).value;
    var c := LevelSound(0, body.rest[1..]);
    Uncons(cond.rest);
    Uncons(cond.rest[1..]);
    xs := RepeatForm(b, c);
    RepeatThen(b, c, cond.rest[1..][1..]);
  }

  lemma {:induction false} ForSound(ts: seq<Token>) returns (xs: seq<Token>)
    requires ParseFor(ts).Ok?
    ensures var p := ParseFor(ts).value; p.value.For? && ts == xs + p.rest && DerivesFor(xs, p.value)
    decreases |ts|, 1
  {
    var t0 := ts[1..];
    var t1 := t0[1..];
    var t2 := t1[1..];
    Uncons(ts);
    Uncons(t0);
    Uncons(t1);
    var start := ParseExpression(t2).value;
    var a := LevelSound(0, t2);
    Uncons(start.rest);
    var end := ParseExpression(start.rest[1..]).value;
    var b := LevelSound(0, start.rest[1..]);
    var stride := ParseStep(end.rest).value;
    var step := StepSound(end.rest);
    Uncons(stride.rest);
    var loop := ParseStatements({KwEndFor}, stride.rest[1..]).value;
    var body := StatementsSound({KwEndFor}, stride.rest[1..]);
    Uncons(loop.rest);
    Uncons(loop.rest[1..]);
    xs := ForForm(t0[0].id, a, b, step, body);
    ForThen(t0[0].id, a, b, step, body, loop.rest[1..][1..]);
  }

  lemma {:induction false} StepSound(ts: seq<Token>) returns (xs: seq<Token>)
    requires ParseStep(ts).Ok?
    ensures var p := ParseStep(ts).value; ts == xs + p.rest && DerivesStep(xs, p.value)
  {
    if Peek(ts) != Some(KwBy) {
      xs := [];
    } else {
      Uncons(ts);
      var x := LevelSound(0, ts[1..]);
      xs := [KwBy] + x;
    }
  }

  // ----- Completeness -----

  predicate StartsStatement(t: Token) {
    t.KwIf? || t.KwWhile? || t.KwRepeat? || t.KwFor? || t.Identifier?
  }

  lemma FirstOfStatement(ts: seq<Token>, st: StStatement)
    requires DerivesStatement(ts, st)
    ensures ts != [] && StartsStatement(ts[0])
  {
  }

  /** An expression begins with an operand, a prefix operator or a parenthesis. */
  predicate StartsExpression(t: Token) {
    t.KwNot? || t.Minus? || t.LeftParen? || t.Identifier?
    || t.KwTrue? || t.KwFalse? || t.IntLiteral? || t.FloatLiteral? || t.StringLiteral?
  }

  lemma {:induction false} FirstOfExpression(lvl: nat, ts: seq<Token>, e: StExpr)
    requires lvl <= PRIMARY && DerivesExpr(lvl, ts, e)
    ensures ts != [] && StartsExpression(ts[0])
    decreases |ts|, PRIMARY - lvl
  {
    if lvl < UNARY {
      if DerivesExpr(lvl + 1, ts, e) {
        FirstOfExpression(lvl + 1, ts, e);
      } else {
        var l, r := Operands(lvl, ts, e);
        FirstOfExpression(LeftLevel(lvl), l, e.left);
      }
    }
  }

  /** A token that is no binary operator ends an expression. */
  lemma ExpressionThen(x: seq<Token>, e: StExpr, next: Token, rest: seq<Token>)
    requires DerivesExpr(0, x, e) && OperatorOf(next).None?
    ensures ParseExpression(x + ([next] + rest)) == Ok(Parsed(e, [next] + rest))
  {
    LevelComplete(0, x, e, [next] + rest);
  }

  lemma SplitStatements(xs: seq<Token>, ss: seq<StStatement>) returns (first: seq<Token>, more: seq<Token>)
    requires ss != [] && DerivesStatements(xs, ss)
    ensures xs == first + more && DerivesStatement(first, ss[0]) && DerivesStatements(more, ss[1..])
    ensures first != [] && StartsStatement(first[0]) && |more| < |xs|
  {
    first, more :| xs == first + more && DerivesStatement(first, ss[0]) && DerivesStatements(more, ss[1..]);
    FirstOfStatement(first, ss[0]);
  }

  /** One round of the statement loop. */
  lemma StatementsRound(stops: set<Token>, ts: seq<Token>, st: StStatement, next: seq<Token>,
                        ss: seq<StStatement>, rest: seq<Token>)
    requires ts != [] && ts[0] !in stops
    requires ParseStatement(ts) == Ok(Parsed(st, next)) && ParseStatements(stops, next) == Ok(Parsed(ss, rest))
    ensures ParseStatements(stops, ts) == Ok(Parsed([st] + ss, rest))
  {
  }

  lemma {:induction false} StatementsComplete(stops: set<Token>, xs: seq<Token>, ss: seq<StStatement>, rest: seq<Token>)
    requires DerivesStatements(xs, ss) && (rest == [] || rest[0] in stops)
    requires forall t :: t in stops ==> !StartsStatement(t)
    ensures ParseStatements(stops, xs + rest) == Ok(Parsed(ss, rest))
    decreases |xs|, 3, |ss|
  {
    if ss == [] {
      assert xs + rest == rest;
    } else {
      var first, more := SplitStatements(xs, ss);
      Assoc(first, more, rest);
      StatementComplete(first, ss[0], more + rest);
      StatementsComplete(stops, more, ss[1..], rest);
      StatementsRound(stops, xs + rest, ss[0], more + rest, ss[1..], rest);
      assert [ss[0]] + ss[1..] == ss;
    }
  }

  lemma {:induction false} StatementComplete(xs: seq<Token>, st: StStatement, rest: seq<Token>)
    requires DerivesStatement(xs, st)
    ensures ParseStatement(xs + rest) == Ok(Parsed(st, rest))
    decreases |xs|, 2, 0
  {
    match st
    case Assignment(_, _) => AssignmentComplete(xs, st, rest);
    case FbCall(_, _) => CallComplete(xs, st, rest);
    case If(_, _, _, _) => IfComplete(xs, st, rest);
    case While(_, _) => WhileComplete(xs, st, rest);
    case Repeat(_, _) => RepeatComplete(xs, st, rest);
    case For(_, _, _, _, _) => ForComplete(xs, st, rest);
  }

  lemma AssignmentComplete(xs: seq<Token>, st: StStatement, rest: seq<Token>)
    requires st.Assignment? && DerivesAssignment(xs, st)
    ensures ParseStatement(xs + rest) == Ok(Parsed(st, rest))
  {
    var x :| xs == AssignmentForm(st.variable, x) && DerivesExpr(0, x, st.value);
    AssignmentThen(st.variable, x, rest);
    ExpressionThen(x, st.value, Semicolon, rest);
  }

  lemma {:induction false} SimpleStart(n: string, ts: seq<Token>)
    requires ts != [] && ts[0] == Identifier(n)
    ensures ParseStatement(ts) == ParseSimple(n, ts)
  {
  }

  lemma SplitCall(xs: seq<Token>, st: StStatement) returns (a: seq<Token>)
    requires st.FbCall? && DerivesCall(xs, st)
    ensures xs == CallForm(st.name, a) && DerivesInputs(a, st.inputs)
  {
    a :| xs == CallForm(st.name, a) && DerivesInputs(a, st.inputs);
  }

  lemma CallComplete(xs: seq<Token>, st: StStatement, rest: seq<Token>)
    requires st.FbCall? && DerivesCall(xs, st)
    ensures ParseStatement(xs + rest) == Ok(Parsed(st, rest))
  {
    var a := SplitCall(xs, st);
    var t := a + ([RightParen] + ([Semicolon] + rest));
    CallThen(st.name, a, rest);
    InputsComplete(a, st.inputs, [RightParen] + ([Semicolon] + rest));
    SimpleStart(st.name, [Identifier(st.name)] + ([LeftParen] + t));
  }

  lemma SplitInputs(xs: seq<Token>, inputs: seq<FbInput>)
    returns (mark: seq<Token>, x: seq<Token>, comma: seq<Token>, more: seq<Token>)
    requires inputs != [] && DerivesInputs(xs, inputs)
    ensures xs == InputForm(inputs[0].param, mark, x, comma) + more && |more| < |xs|
    ensures mark in {[], [Assign], [OutputAssign]} && comma in {[], [Comma]}
    ensures DerivesExpr(0, x, inputs[0].expr) && x != [] && StartsExpression(x[0])
    ensures DerivesInputs(more, inputs[1..]) && (more != [] ==> more[0].Identifier?)
  {
    mark, x, comma, more :|
      && xs == InputForm(inputs[0].param, mark, x, comma) + more
      && mark in {[], [Assign], [OutputAssign]} && comma in {[], [Comma]}
      && DerivesExpr(0, x, inputs[0].expr) && DerivesInputs(more, inputs[1..]);
    FirstOfExpression(0, x, inputs[0].expr);
  }

  /** One round of the parameter loop. */
  lemma InputsRound(n: string, mark: seq<Token>, start: seq<Token>, e: StExpr, comma: seq<Token>, next: seq<Token>,
                    inputs: seq<FbInput>, rest: seq<Token>)
    requires mark in {[], [Assign], [OutputAssign]} && comma in {[], [Comma]}
    requires start != [] && !start[0].Assign? && !start[0].OutputAssign? && (next != [] ==> !next[0].Comma?)
    requires ParseExpression(start) == Ok(Parsed(e, comma + next)) && ParseInputs(next) == Ok(Parsed(inputs, rest))
    ensures ParseInputs([Identifier(n)] + (mark + start)) == Ok(Parsed([FbInput(n, e)] + inputs, rest))
  {
    var ts := [Identifier(n)] + (mark + start);
    assert ts[1..] == mark + start;
    assert mark == [] ==> mark + start == start;
    assert comma == [] ==> comma + next == next;
  }

  /** What may follow a parameter's value: a comma, the next parameter, or the closing parenthesis. */
  lemma AfterInput(comma: seq<Token>, more: seq<Token>, rest: seq<Token>)
    requires comma in {[], [Comma]} && (more != [] ==> more[0].Identifier?) && rest != [] && rest[0] == RightParen
    ensures NoOperatorFrom(0, comma + (more + rest)) && more + rest != [] && !(more + rest)[0].Comma?
  {
    var next := more + rest;
    assert next[0] == if more != [] then more[0] else rest[0];
    assert (comma + next)[0] == if comma != [] then comma[0] else next[0];
  }

  /** One derived parameter in front of parameters that parse. */
  lemma InputThenInputs(n: string, mark: seq<Token>, x: seq<Token>, e: StExpr, comma: seq<Token>, more: seq<Token>,
                        inputs: seq<FbInput>, rest: seq<Token>)
    requires mark in {[], [Assign], [OutputAssign]} && comma in {[], [Comma]}
    requires DerivesExpr(0, x, e) && x != [] && StartsExpression(x[0])
    requires (more != [] ==> more[0].Identifier?) && rest != [] && rest[0] == RightParen
    requires ParseInputs(more + rest) == Ok(Parsed(inputs, rest))
    ensures ParseInputs((InputForm(n, mark, x, comma) + more) + rest) == Ok(Parsed([FbInput(n, e)] + inputs, rest))
  {
    var next := more + rest;
    var start := x + (comma + next);
    Assoc(InputForm(n, mark, x, comma), more, rest);
    InputThen(n, mark, x, comma, next);
    AfterInput(comma, more, rest);
    LevelComplete(0, x, e, comma + next);
    assert start[0] == x[0];
    InputsRound(n, mark, start, e, comma, next, inputs, rest);
  }

  lemma {:induction false} InputsComplete(xs: seq<Token>, inputs: seq<FbInput>, rest: seq<Token>)
    requires DerivesInputs(xs, inputs) && rest != [] && rest[0] == RightParen
    ensures ParseInputs(xs + rest) == Ok(Parsed(inputs, rest))
    decreases |xs|, |inputs|
  {
    if inputs == [] {
      assert xs + rest == rest;
    } else {
      var mark, x, comma, more := SplitInputs(xs, inputs);
      InputsComplete(more, inputs[1..], rest);
      InputThenInputs(inputs[0].param, mark, x, inputs[0].expr, comma, more, inputs[1..], rest);
      assert [FbInput(inputs[0].param, inputs[0].expr)] + inputs[1..] == inputs;
    }
  }

  lemma {:induction false} WhileComplete(xs: seq<Token>, st: StStatement, rest: seq<Token>)
    requires st.While? && DerivesWhile(xs, st)
    ensures ParseStatement(xs + rest) == Ok(Parsed(st, rest))
    decreases |xs|, 1, 0
  {
    var c, b :| xs == WhileForm(c, b) && DerivesExpr(0, c, st.whileCond) && DerivesStatements(b, st.whileBody);
    var tail := [KwEndWhile] + ([Semicolon] + rest);
    WhileThen(c, b, rest);
    ExpressionThen(c, st.whileCond, KwDo, b + tail);
    StatementsComplete({KwEndWhile}, b, st.whileBody, tail);
  }

  lemma {:induction false} RepeatComplete(xs: seq<Token>, st: StStatement, rest: seq<Token>)
    requires st.Repeat? && DerivesRepeat(xs, st)
    ensures ParseStatement(xs + rest) == Ok(Parsed(st, rest))
    decreases |xs|, 1, 0
  {
    var b, c :| xs == RepeatForm(b, c) && DerivesStatements(b, st.repeatBody) && DerivesExpr(0, c, st.untilCond);
    var tail := [KwEndRepeat] + ([Semicolon] + rest);
    RepeatThen(b, c, rest);
    StatementsComplete({KwUntil}, b, st.repeatBody, [KwUntil] + (c + tail));
    ExpressionThen(c, st.untilCond, KwEndRepeat, [Semicolon] + rest);
  }

  lemma SplitFor(xs: seq<Token>, st: StStatement)
    returns (a: seq<Token>, b: seq<Token>, step: seq<Token>, body: seq<Token>)
    requires st.For? && DerivesFor(xs, st)
    ensures xs == ForForm(st.loopVar, a, b, step, body) && |body| < |xs|
    ensures DerivesExpr(0, a, st.start) && DerivesExpr(0, b, st.end)
    ensures DerivesStep(step, st.step) && DerivesStatements(body, st.forBody)
  {
    a, b, step, body :|
      && xs == ForForm(st.loopVar, a, b, step, body)
      && DerivesExpr(0, a, st.start) && DerivesExpr(0, b, st.end)
      && DerivesStep(step, st.step) && DerivesStatements(body, st.forBody);
  }

  /** The parts of a FOR statement, put together. */
  lemma ForRound(v: string, t0: seq<Token>, a: StExpr, t1: seq<Token>, b: StExpr, t2: seq<Token>, step: Option<StExpr>,
                 t3: seq<Token>, body: seq<StStatement>, rest: seq<Token>)
    requires ParseExpression(t0) == Ok(Parsed(a, [KwTo] + t1)) && ParseExpression(t1) == Ok(Parsed(b, t2))
    requires ParseStep(t2) == Ok(Parsed(step, [KwDo] + t3))
    requires ParseStatements({KwEndFor}, t3) == Ok(Parsed(body, [KwEndFor] + ([Semicolon] + rest)))
    ensures ParseFor([KwFor] + ([Identifier(v)] + ([Assign] + t0))) == Ok(Parsed(For(v, a, b, step, body), rest))
  {
    var ts := [KwFor] + ([Identifier(v)] + ([Assign] + t0));
    assert ts[1..] == [Identifier(v)] + ([Assign] + t0) && ts[1..][1..] == [Assign] + t0 && ts[1..][1..][1..] == t0;
    assert ([KwTo] + t1)[1..] == t1 && ([KwDo] + t3)[1..] == t3;
    assert ([KwEndFor] + ([Semicolon] + rest))[1..] == [Semicolon] + rest && ([Semicolon] + rest)[1..] == rest;
  }

  lemma ForStart(t: seq<Token>)
    ensures ParseStatement([KwFor] + t) == ParseFor([KwFor] + t)
  {
  }

  lemma {:induction false} ForComplete(xs: seq<Token>, st: StStatement, rest: seq<Token>)
    requires st.For? && DerivesFor(xs, st)
    ensures ParseStatement(xs + rest) == Ok(Parsed(st, rest))
    decreases |xs|, 1, 0
  {
    var a, b, step, body := SplitFor(xs, st);
    var tail := [KwEndFor] + ([Semicolon] + rest);
    var loop := body + tail;
    ForThen(st.loopVar, a, b, step, body, rest);
    var t2 := step + ([KwDo] + loop);
    ExpressionThen(a, st.start, KwTo, b + t2);
    AfterBound(step, st.step, loop);
    LevelComplete(0, b, st.end, t2);
    StepComplete(step, st.step, loop);
    StatementsComplete({KwEndFor}, body, st.forBody, tail);
    ForRound(st.loopVar, a + ([KwTo] + (b + t2)), st.start, b + t2, st.end, t2, st.step, loop, st.forBody, rest);
    ForStart([Identifier(st.loopVar)] + ([Assign] + (a + ([KwTo] + (b + t2)))));
  }

  /** No operator continues the end bound of a FOR. */
  lemma AfterBound(step: seq<Token>, e: Option<StExpr>, loop: seq<Token>)
    requires DerivesStep(step, e)
    ensures NoOperatorFrom(0, step + ([KwDo] + loop))
  {
  }

  lemma StepComplete(z: seq<Token>, step: Option<StExpr>, rest: seq<Token>)
    requires DerivesStep(z, step)
    ensures ParseStep(z + ([KwDo] + rest)) == Ok(Parsed(step, [KwDo] + rest))
  {
    if step.Some? {
      assert (z + ([KwDo] + rest))[1..] == z[1..] + ([KwDo] + rest);
      ExpressionThen(z[1..], step.value, KwDo, rest);
    } else {
      assert z + ([KwDo] + rest) == [KwDo] + rest;
    }
  }

  lemma SplitIf(xs: seq<Token>, st: StStatement)
    returns (c: seq<Token>, body: seq<Token>, elsifs: seq<Token>, last: seq<Token>)
    requires st.If? && DerivesIf(xs, st)
    ensures xs == IfForm(c, body, elsifs, last) && |body| < |xs| && |elsifs| < |xs| && |last| < |xs|
    ensures DerivesExpr(0, c, st.condition) && DerivesStatements(body, st.thenBody)
    ensures DerivesElsifs(elsifs, st.elsifs) && DerivesElse(last, st.elsePart)
  {
    c, body, elsifs, last :|
      && xs == IfForm(c, body, elsifs, last)
      && DerivesExpr(0, c, st.condition) && DerivesStatements(body, st.thenBody)
      && DerivesElsifs(elsifs, st.elsifs) && DerivesElse(last, st.elsePart);
  }

  /** The derived parts of an IF, put together once their statements parse. */
  lemma IfOfParts(c: seq<Token>, e: StExpr, body: seq<Token>, ss: seq<StStatement>, elsifs: seq<Token>,
                  bs: seq<ElsifBranch>, last: seq<Token>, part: ElsePart, rest: seq<Token>)
    requires DerivesExpr(0, c, e)
    requires var tail := [KwEndIf] + ([Semicolon] + rest);
             && ParseStatements(ARM_ENDS, body + (elsifs + (last + tail))) == Ok(Parsed(ss, elsifs + (last + tail)))
             && ParseElsifs(elsifs + (last + tail)) == Ok(Parsed(bs, last + tail))
             && ParseElse(last + tail) == Ok(Parsed(part, tail))
    ensures ParseStatement(IfForm(c, body, elsifs, last) + rest) == Ok(Parsed(If(e, ss, bs, part), rest))
  {
    var t3 := last + ([KwEndIf] + ([Semicolon] + rest));
    var t2 := elsifs + t3;
    var t1 := body + t2;
    IfThen(c, body, elsifs, last, rest);
    ExpressionThen(c, e, KwThen, t1);
  }

  lemma {:induction false} IfComplete(xs: seq<Token>, st: StStatement, rest: seq<Token>)
    requires st.If? && DerivesIf(xs, st)
    ensures ParseStatement(xs + rest) == Ok(Parsed(st, rest))
    decreases |xs|, 1, 0
  {
    var c, body, elsifs, last := SplitIf(xs, st);
    var tail := [KwEndIf] + ([Semicolon] + rest);
    ArmEnds(elsifs, st.elsifs, last, st.elsePart, tail);
    StatementsComplete(ARM_ENDS, body, st.thenBody, elsifs + (last + tail));
    ElsifsComplete(elsifs, st.elsifs, last, st.elsePart, tail);
    ElseComplete(last, st.elsePart, tail);
    IfOfParts(c, st.condition, body, st.thenBody, elsifs, st.elsifs, last, st.elsePart, rest);
  }

  /** After an arm comes ELSIF, ELSE or END_IF. */
  lemma ArmEnds(elsifs: seq<Token>, bs: seq<ElsifBranch>, last: seq<Token>, part: ElsePart, tail: seq<Token>)
    requires DerivesElsifs(elsifs, bs) && DerivesElse(last, part) && tail != [] && tail[0] == KwEndIf
    ensures last + tail != [] && (last + tail)[0] in {KwElse, KwEndIf}
    ensures elsifs + (last + tail) != [] && (elsifs + (last + tail))[0] in ARM_ENDS
  {
  }

  lemma SplitElsifs(xs: seq<Token>, bs: seq<ElsifBranch>) returns (c: seq<Token>, body: seq<Token>, more: seq<Token>)
    requires bs != [] && DerivesElsifs(xs, bs)
    ensures xs == ElsifForm(c, body) + more && |body| < |xs| && |more| < |xs|
    ensures DerivesExpr(0, c, bs[0].cond) && DerivesStatements(body, bs[0].body) && DerivesElsifs(more, bs[1..])
  {
    c, body, more :|
      && xs == ElsifForm(c, body) + more
      && DerivesExpr(0, c, bs[0].cond) && DerivesStatements(body, bs[0].body) && DerivesElsifs(more, bs[1..]);
  }

  /** One round of the ELSIF loop. */
  lemma ElsifsRound(t: seq<Token>, e: StExpr, after: seq<Token>, ss: seq<StStatement>, next: seq<Token>,
                    bs: seq<ElsifBranch>, rest: seq<Token>)
    requires ParseExpression(t) == Ok(Parsed(e, [KwThen] + after))
    requires ParseStatements(ARM_ENDS, after) == Ok(Parsed(ss, next)) && ParseElsifs(next) == Ok(Parsed(bs, rest))
    ensures ParseElsifs([KwElsif] + t) == Ok(Parsed([ElsifBranch(e, ss)] + bs, rest))
  {
    assert ([KwElsif] + t)[1..] == t && ([KwThen] + after)[1..] == after;
  }

  /** One derived ELSIF arm in front of arms that parse. */
  lemma ElsifThenElsifs(c: seq<Token>, e: StExpr, body: seq<Token>, ss: seq<StStatement>, more: seq<Token>,
                        bs: seq<ElsifBranch>, rest: seq<Token>)
    requires DerivesExpr(0, c, e) && ParseStatements(ARM_ENDS, body + (more + rest)) == Ok(Parsed(ss, more + rest))
    requires ParseElsifs(more + rest) == Ok(Parsed(bs, rest))
    ensures ParseElsifs((ElsifForm(c, body) + more) + rest) == Ok(Parsed([ElsifBranch(e, ss)] + bs, rest))
  {
    var after := body + (more + rest);
    Assoc(ElsifForm(c, body), more, rest);
    ElsifThen(c, body, more + rest);
    ExpressionThen(c, e, KwThen, after);
    ElsifsRound(c + ([KwThen] + after), e, after, ss, more + rest, bs, rest);
  }

  lemma {:induction false} ElsifsComplete(xs: seq<Token>, bs: seq<ElsifBranch>, last: seq<Token>, part: ElsePart,
                                          tail: seq<Token>)
    requires DerivesElsifs(xs, bs) && DerivesElse(last, part) && tail != [] && tail[0] == KwEndIf
    ensures ParseElsifs(xs + (last + tail)) == Ok(Parsed(bs, last + tail))
    decreases |xs|, 0, |bs|
  {
    var rest := last + tail;
    if bs == [] {
      ArmEnds(xs, bs, last, part, tail);
      assert xs + rest == rest;
    } else {
      var c, body, more := SplitElsifs(xs, bs);
      ArmEnds(more, bs[1..], last, part, tail);
      StatementsComplete(ARM_ENDS, body, bs[0].body, more + rest);
      ElsifsComplete(more, bs[1..], last, part, tail);
      ElsifThenElsifs(c, bs[0].cond, body, bs[0].body, more, bs[1..], rest);
      assert [ElsifBranch(bs[0].cond, bs[0].body)] + bs[1..] == bs;
    }
  }

  lemma {:induction false} ElseComplete(last: seq<Token>, part: ElsePart, tail: seq<Token>)
    requires DerivesElse(last, part) && tail != [] && tail[0] == KwEndIf
    ensures ParseElse(last + tail) == Ok(Parsed(part, tail))
    decreases |last|, 0, 0
  {
    if part.NoElse? {
      assert last + tail == tail;
    } else {
      assert (last + tail)[1..] == last[1..] + tail;
      StatementsComplete({KwEndIf}, last[1..], part.body, tail);
    }
  }

  // ----- Main results -----

  /** The parser succeeds with `ss` on exactly the token lists that derive `ss`. */
  lemma ParserAdequate(ts: seq<Token>, ss: seq<StStatement>)
    ensures ParseProgram(ts) == Ok(ss) <==> DerivesStatements(ts, ss)
  {
    if ParseProgram(ts) == Ok(ss) {
      var xs := StatementsSound({}, ts);
      assert xs + [] == xs;
    }
    if DerivesStatements(ts, ss) {
      StatementsComplete({}, ts, ss, []);
      assert ts + [] == ts;
    }
  }

  /** So no token list has two readings. */
  lemma GrammarUnambiguous(ts: seq<Token>, ss: seq<StStatement>, tt: seq<StStatement>)
    requires DerivesStatements(ts, ss) && DerivesStatements(ts, tt)
    ensures ss == tt
  {
    ParserAdequate(ts, ss);
    ParserAdequate(ts, tt);
  }
}
