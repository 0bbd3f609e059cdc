/** The recursive-descent parser: as functions on the remaining tokens, and as the object with a
    position that computes them. */
module StParser {
  import opened Machine
  import opened StAst
  import opened StTokens

  datatype ParseError =
    | Expected(want: Token, found: Option<Token>)
    | BadStatementStart(token: Token)
    | EndOfInput
    | ExpectedAssignOrCall(name: string, found: Option<Token>)
    | ExpectedParameter(found: Option<Token>)
    | ExpectedLoopVariable(found: Option<Token>)
    | ExpectedPrimary(found: Option<Token>)

  /** What was parsed and the tokens that follow it. */
  datatype Parsed<T> = Parsed(value: T, rest: seq<Token>)

  type Parse<T> = Result<Parsed<T>, ParseError>

  function Peek(ts: seq<Token>): Option<Token> {
    if ts == [] then None else Some(ts[0])
  }

  function Expect(want: Token, ts: seq<Token>): (r: Result<seq<Token>, ParseError>)
    ensures r.Ok? <==> ts != [] && ts[0] == want
    ensures r.Ok? ==> r.value == ts[1..]
  {
    if Peek(ts) == Some(want) then Ok(ts[1..]) else Err(Expected(want, Peek(ts)))
  }

  // ----- Expressions -----

  const UNARY: nat := 5
  const PRIMARY: nat := 6

  /** The operator of the given level that the tokens begin with. */
  function OperatorAt(lvl: nat, ts: seq<Token>): Option<BinaryOp> {
    if ts == [] then None else
      var op := OperatorOf(ts[0]);
      if op.Some? && LevelOf(op.value) == lvl then op else None
  }

  /** Levels 0 to 4 are the binary operators from weakest to strongest, 5 the prefix operators, 6 the rest. */
  function ParseLevel(lvl: nat, ts: seq<Token>): (r: Parse<StExpr>)
    requires lvl <= PRIMARY
    ensures r.Ok? ==> |r.value.rest| < |ts|
    decreases |ts|, PRIMARY - lvl
  {
    if lvl < UNARY then
      var left :- ParseLevel(lvl + 1, ts);
      ParseTail(lvl, left.value, left.rest)
    else if lvl == UNARY then
      if Peek(ts) == Some(KwNot) then
        var x :- ParseLevel(UNARY, ts[1..]);
        Ok(Parsed(Unary(Not, x.value), x.rest))
      else if Peek(ts) == Some(Minus) then
        var x :- ParseLevel(UNARY, ts[1..]);
        Ok(Parsed(Unary(Negate, x.value), x.rest))
      else
        ParseLevel(PRIMARY, ts)
    else if ts == [] then Err(ExpectedPrimary(None))
    else
      match ts[0]
      case KwTrue => Ok(Parsed(Literal(BoolLit(true)), ts[1..]))
      case KwFalse => Ok(Parsed(Literal(BoolLit(false)), ts[1..]))
      case IntLiteral(i) => Ok(Parsed(Literal(IntLit(i)), ts[1..]))
      case FloatLiteral(f) => Ok(Parsed(Literal(FloatLit(f)), ts[1..]))
      case StringLiteral(s) => Ok(Parsed(Literal(StringLit(s)), ts[1..]))
      case Identifier(id) => Ok(Parsed(Variable(id), ts[1..]))
      case LeftParen =>
        var x :- ParseLevel(0, ts[1..]);
        var rest :- Expect(RightParen, x.rest);
        Ok(Parsed(x.value, rest))
      case t => Err(ExpectedPrimary(Some(t)))
  }

  /** The loop that folds operators of one level to the left; a relational operator may occur only once. */
  function ParseTail(lvl: nat, left: StExpr, ts: seq<Token>): (r: Parse<StExpr>)
    requires lvl < UNARY
    ensures r.Ok? ==> |r.value.rest| <= |ts|
    decreases |ts|, PRIMARY + 1
  {
    var op := OperatorAt(lvl, ts);
    if op.None? then Ok(Parsed(left, ts)) else
      var right :- ParseLevel(lvl + 1, ts[1..]);
      var both := Binary(op.value, left, right.value);
      if lvl == 2 then Ok(Parsed(both, right.rest)) else ParseTail(lvl, both, right.rest)
  }

  function ParseExpression(ts: seq<Token>): Parse<StExpr> {
    ParseLevel(0, ts)
  }

  // ----- Statements -----

  const ARM_ENDS: set<Token> := {KwElsif, KwElse, KwEndIf}

  /** Statements up to one of the given tokens or the end of the input. */
  function ParseStatements(stops: set<Token>, ts: seq<Token>): (r: Parse<seq<StStatement>>)
    ensures r.Ok? ==> |r.value.rest| <= |ts|
    ensures r.Ok? && r.value.rest != [] ==> r.value.rest[0] in stops
    decreases |ts|, 3
  {
    if ts == [] || ts[0] in stops then Ok(Parsed([], ts)) else
      var first :- ParseStatement(ts);
      var more :- ParseStatements(stops, first.rest);
      Ok(Parsed([first.value] + more.value, more.rest))
  }

  function ParseStatement(ts: seq<Token>): (r: Parse<StStatement>)
    ensures r.Ok? ==> |r.value.rest| < |ts|
    decreases |ts|, 2
  {
    if ts == [] then Err(EndOfInput) else
      match ts[0]
      case KwIf => ParseIf(ts)
      case KwWhile => ParseWhile(ts)
      case KwRepeat => ParseRepeat(ts)
      case KwFor => ParseFor(ts)
      case Identifier(id) => ParseSimple(id, ts)
      case t => Err(BadStatementStart(t))
  }

  function ParseSimple(name: string, ts: seq<Token>): (r: Parse<StStatement>)
    requires ts != []
    ensures r.Ok? ==> |r.value.rest| < |ts|
    decreases |ts|, 0
  {
    var after := ts[1..];
    if Peek(after) == Some(Assign) then
      var x :- ParseExpression(after[1..]);
      var rest :- Expect(Semicolon, x.rest);
      Ok(Parsed(Assignment(name, x.value), rest))
    else if Peek(after) == Some(LeftParen) then
      var inputs :- ParseInputs(after[1..]);
      var close :- Expect(RightParen, inputs.rest);
      var rest :- Expect(Semicolon, close);
      Ok(Parsed(FbCall(name, inputs.value), rest))
    else
      Err(ExpectedAssignOrCall(name, Peek(after)))
  }

  /** One function-block parameter: the mark after the name and the comma after the value are optional. */
  function ParseInput(ts: seq<Token>): (r: Parse<FbInput>)
    requires ts != []
    ensures r.Ok? ==> |r.value.rest| < |ts|
  {
    if !ts[0].Identifier? then Err(ExpectedParameter(Some(ts[0]))) else
      var marked := ts[1..];
      var start := if Peek(marked) == Some(Assign) || Peek(marked) == Some(OutputAssign) then marked[1..] else marked;
      var x :- ParseExpression(start);
      var next := if Peek(x.rest) == Some(Comma) then x.rest[1..] else x.rest;
      Ok(Parsed(FbInput(ts[0].id, x.value), next))
  }

  function ParseInputs(ts: seq<Token>): (r: Parse<seq<FbInput>>)
    ensures r.Ok? ==> |r.value.rest| <= |ts|
    decreases |ts|, 0
  {
    if ts == [] || ts[0] == RightParen then Ok(Parsed([], ts)) else
      var first :- ParseInput(ts);
      var more :- ParseInputs(first.rest);
      Ok(Parsed([first.value] + more.value, more.rest))
  }

  function ParseIf(ts: seq<Token>): (r: Parse<StStatement>)
    ensures r.Ok? ==> |r.value.rest| < |ts|
    decreases |ts|, 0
  {
    var t0 :- Expect(KwIf, ts);
    var cond :- ParseExpression(t0);
    var t1 :- Expect(KwThen, cond.rest);
    var thenBody :- ParseStatements(ARM_ENDS, t1);
    var elsifs :- ParseElsifs(thenBody.rest);
    var elsePart :- ParseElse(elsifs.rest);
    var t2 :- Expect(KwEndIf, elsePart.rest);
    var rest :- Expect(Semicolon, t2);
    Ok(Parsed(If(cond.value, thenBody.value, elsifs.value, elsePart.value), rest))
  }

  function ParseElsif(ts: seq<Token>): (r: Parse<ElsifBranch>)
    requires Peek(ts) == Some(KwElsif)
    ensures r.Ok? ==> |r.value.rest| < |ts|
    decreases |ts|, 0
  {
    var cond :- ParseExpression(ts[1..]);
    var t1 :- Expect(KwThen, cond.rest);
    var body :- ParseStatements(ARM_ENDS, t1);
    Ok(Parsed(ElsifBranch(cond.value, body.value), body.rest))
  }

  function ParseElsifs(ts: seq<Token>): (r: Parse<seq<ElsifBranch>>)
    ensures r.Ok? ==> |r.value.rest| <= |ts|
    decreases |ts|, 1
  {
    if Peek(ts) != Some(KwElsif) then Ok(Parsed([], ts)) else
      var first :- ParseElsif(ts);
      var more :- ParseElsifs(first.rest);
      Ok(Parsed([first.value] + more.value, more.rest))
  }

  function ParseElse(ts: seq<Token>): (r: Parse<ElsePart>)
    ensures r.Ok? ==> |r.value.rest| <= |ts|
    decreases |ts|, 0
  {
    if Peek(ts) != Some(KwElse) then Ok(Parsed(NoElse, ts)) else
      var body :- ParseStatements({KwEndIf}, ts[1..]);
      Ok(Parsed(Else(body.value), body.rest))
  }

  function ParseWhile(ts: seq<Token>): (r: Parse<StStatement>)
    ensures r.Ok? ==> |r.value.rest| < |ts|
    decreases |ts|, 0
  {
    var t0 :- Expect(KwWhile, ts);
    var cond :- ParseExpression(t0);
    var t1 :- Expect(KwDo, cond.rest);
    var body :- ParseStatements({KwEndWhile}, t1);
    var t2 :- Expect(KwEndWhile, body.rest);
    var rest :- Expect(Semicolon, t2);
    Ok(Parsed(While(cond.value, body.value), rest))
  }

  function ParseRepeat(ts: seq<Token>): (r: Parse<StStatement>)
    ensures r.Ok? ==> |r.value.rest| < |ts|
    decreases |ts|, 0
  {
    var t0 :- Expect(KwRepeat, ts);
    var body :- ParseStatements({KwUntil}, t0);
    var t1 :- Expect(KwUntil, body.rest);
    var cond :- ParseExpression(t1);
    var t2 :- Expect(KwEndRepeat, cond.rest);
    var rest :- Expect(Semicolon, t2);
    Ok(Parsed(Repeat(body.value, cond.value), rest))
  }

  function ParseFor(ts: seq<Token>): (r: Parse<StStatement>)
    ensures r.Ok? ==> |r.value.rest| < |ts|
    decreases |ts|, 0
  {
    var t0 :- Expect(KwFor, ts);
    if t0 == [] || !t0[0].Identifier? then Err(ExpectedLoopVariable(Peek(t0))) else
      var t1 :- Expect(Assign, t0[1..]);
      var start :- ParseExpression(t1);
      var t2 :- Expect(KwTo, start.rest);
      var end :- ParseExpression(t2);
      var step :- ParseStep(end.rest);
      var t3 :- Expect(KwDo, step.rest);
      var body :- ParseStatements({KwEndFor}, t3);
      var t4 :- Expect(KwEndFor, body.rest);
      var rest :- Expect(Semicolon, t4);
      Ok(Parsed(For(t0[0].id, start.value, end.value, step.value, body.value), rest))
  }

  function ParseStep(ts: seq<Token>): (r: Parse<Option<StExpr>>)
    ensures r.Ok? ==> |r.value.rest| <= |ts|
    decreases |ts|, 0
  {
    if Peek(ts) != Some(KwBy) then Ok(Parsed(None, ts)) else
      var x :- ParseExpression(ts[1..]);
      Ok(Parsed(Some(x.value), x.rest))
  }

  function ParseProgram(ts: seq<Token>): Result<seq<StStatement>, ParseError> {
    var all :- ParseStatements({}, ts);
    Ok(all.value)
  }

  // ----- Loops that collect items -----

  /** Items already collected in front of what is still to come. */
  function After<T>(done: seq<T>, r: Parse<seq<T>>): Parse<seq<T>> {
    match r
    case Err(e) => Err(e)
    case Ok(p) => Ok(Parsed(done + p.value, p.rest))
  }

  lemma AfterNothing<T>(r: Parse<seq<T>>)
    ensures After([], r) == r
  {
    if r.Ok? {
      assert [] + r.value.value == r.value.value;
    }
  }

  lemma AfterPush<T>(done: seq<T>, item: T, r: Parse<seq<T>>)
    ensures After(done, After([item], r)) == After(done + [item], r)
  {
    if r.Ok? {
      assert done + ([item] + r.value.value) == (done + [item]) + r.value.value;
    }
  }

  // ----- The parser as an object with a position -----

  class Parser {
    const tokens: seq<Token>
    var pos: nat

    ghost predicate Valid()
      reads this
    {
      pos <= |tokens|
    }

    ghost function Rest(): seq<Token>
      requires Valid()
      reads this
    {
      tokens[pos..]
    }

    /** The method produced what the function says, and stands where the function says. */
    ghost predicate Did<T(!new)>(r: Result<T, ParseError>, spec: Parse<T>)
      reads this
    {
      && Valid()
      && match spec
         case Err(e) => r == Err(e)
         case Ok(p) => r == Ok(p.value) && Rest() == p.rest
    }

    constructor (tokens: seq<Token>)
      ensures Valid() && this.tokens == tokens && Rest() == tokens
    {
      this.tokens := tokens;
      pos := 0;
    }

    method PeekToken() returns (t: Option<Token>)
      requires Valid()
      ensures t == Peek(Rest())
    {
      t := if pos < |tokens| then Some(tokens[pos]) else None;
    }

    method Advance() returns (t: Option<Token>)
      requires Valid()
      modifies this
      ensures Valid() && t == Peek(old(Rest()))
      ensures if old(Rest()) == [] then pos == old(pos) else pos == old(pos) + 1 && Rest() == old(Rest())[1..]
    {
      if pos < |tokens| {
        t := Some(tokens[pos]);
        pos := pos + 1;
      } else {
        t := None;
      }
    }

    method ExpectToken(want: Token) returns (r: Result<(), ParseError>)
      requires Valid()
      modifies this
      ensures Valid()
      ensures match Expect(want, old(Rest()))
              case Ok(rest) => r == Ok(()) && Rest() == rest && pos == old(pos) + 1
              case Err(e) => r == Err(e) && pos == old(pos)
    {
      var t := PeekToken();
      if t == Some(want) {
        var _ := Advance();
        r := Ok(());
      } else {
        r := Err(Expected(want, t));
      }
    }

    method ParseOrExpr() returns (r: Result<StExpr, ParseError>)
      requires Valid()
      modifies this
      ensures Did(r, ParseLevel(0, old(Rest())))
      ensures r.Ok? ==> pos > old(pos)
      decreases |tokens| - pos, PRIMARY - 0
    {
      var left :- ParseAndExpr();
      var op := OperatorAt(0, tokens[pos..]);
      while op.Some?
        invariant old(pos) < pos && Valid() && op == OperatorAt(0, Rest())
        invariant ParseLevel(0, old(Rest())) == ParseTail(0, left, Rest())
        decreases |tokens| - pos
      {
        var _ := Advance();
        var right :- ParseAndExpr();
        left := Binary(op.value, left, right);
        op := OperatorAt(0, tokens[pos..]);
      }
      return Ok(left);
    }

    method ParseAndExpr() returns (r: Result<StExpr, ParseError>)
      requires Valid()
      modifies this
      ensures Did(r, ParseLevel(1, old(Rest())))
      ensures r.Ok? ==> pos > old(pos)
      decreases |tokens| - pos, PRIMARY - 1
    {
      var left :- ParseRelationalExpr();
      var op := OperatorAt(1, tokens[pos..]);
      while op.Some?
        invariant old(pos) < pos && Valid() && op == OperatorAt(1, Rest())
        invariant ParseLevel(1, old(Rest())) == ParseTail(1, left, Rest())
        decreases |tokens| - pos
      {
        var _ := Advance();
        var right :- ParseRelationalExpr();
        left := Binary(op.value, left, right);
        op := OperatorAt(1, tokens[pos..]);
      }
      return Ok(left);
    }

    method ParseRelationalExpr() returns (r: Result<StExpr, ParseError>)
      requires Valid()
      modifies this
      ensures Did(r, ParseLevel(2, old(Rest())))
      ensures r.Ok? ==> pos > old(pos)
      decreases |tokens| - pos, PRIMARY - 2
    {
      var left :- ParseAdditiveExpr();
      var op := OperatorAt(2, tokens[pos..]);
      if op.Some? {
        var _ := Advance();
        var right :- ParseAdditiveExpr();
        left := Binary(op.value, left, right);
      }
      return Ok(left);
    }

    method ParseAdditiveExpr() returns (r: Result<StExpr, ParseError>)
      requires Valid()
      modifies this
      ensures Did(r, ParseLevel(3, old(Rest())))
      ensures r.Ok? ==> pos > old(pos)
      decreases |tokens| - pos, PRIMARY - 3
    {
      var left :- ParseMultiplicativeExpr();
      var op := OperatorAt(3, tokens[pos..]);
      while op.Some?
        invariant old(pos) < pos && Valid() && op == OperatorAt(3, Rest())
        invariant ParseLevel(3, old(Rest())) == ParseTail(3, left, Rest())
        decreases |tokens| - pos
      {
        var _ := Advance();
        var right :- ParseMultiplicativeExpr();
        left := Binary(op.value, left, right);
        op := OperatorAt(3, tokens[pos..]);
      }
      return Ok(left);
    }

    method ParseMultiplicativeExpr() returns (r: Result<StExpr, ParseError>)
      requires Valid()
      modifies this
      ensures Did(r, ParseLevel(4, old(Rest())))
      ensures r.Ok? ==> pos > old(pos)
      decreases |tokens| - pos, PRIMARY - 4
    {
      var left :- ParseUnaryExpr();
      var op := OperatorAt(4, tokens[pos..]);
      while op.Some?
        invariant old(pos) < pos && Valid() && op == OperatorAt(4, Rest())
        invariant ParseLevel(4, old(Rest())) == ParseTail(4, left, Rest())
        decreases |tokens| - pos
      {
        var _ := Advance();
        var right :- ParseUnaryExpr();
        left := Binary(op.value, left, right);
        op := OperatorAt(4, tokens[pos..]);
      }
      return Ok(left);
    }

    method ParseUnaryExpr() returns (r: Result<StExpr, ParseError>)
      requires Valid()
      modifies this
      ensures Did(r, ParseLevel(UNARY, old(Rest())))
      ensures r.Ok? ==> pos > old(pos)
      decreases |tokens| - pos, PRIMARY - UNARY
    {
      var t := PeekToken();
      if t == Some(KwNot) {
        var _ := Advance();
        var x :- ParseUnaryExpr();
        return Ok(Unary(Not, x));
      } else if t == Some(Minus) {
        var _ := Advance();
        var x :- ParseUnaryExpr();
        return Ok(Unary(Negate, x));
      } else {
        r := ParsePrimaryExpr();
      }
    }

    method ParsePrimaryExpr() returns (r: Result<StExpr, ParseError>)
      requires Valid()
      modifies this
      ensures Did(r, ParseLevel(PRIMARY, old(Rest())))
      ensures r.Ok? ==> pos > old(pos)
      decreases |tokens| - pos, PRIMARY - PRIMARY
    {
      var t := Advance();
      if t.None? {
        return Err(ExpectedPrimary(None));
      }
      match t.value
      case KwTrue => return Ok(Literal(BoolLit(true)));
      case KwFalse => return Ok(Literal(BoolLit(false)));
      case IntLiteral(i) => return Ok(Literal(IntLit(i)));
      case FloatLiteral(f) => return Ok(Literal(FloatLit(f)));
      case StringLiteral(s) => return Ok(Literal(StringLit(s)));
      case Identifier(id) => return Ok(Variable(id));
      case LeftParen =>
        var x :- ParseOrExpr();
        var _ :- ExpectToken(RightParen);
        return Ok(x);
      case other => return Err(ExpectedPrimary(Some(other)));
    }

    method ParseExpr() returns (r: Result<StExpr, ParseError>)
      requires Valid()
      modifies this
      ensures Did(r, ParseExpression(old(Rest())))
      ensures r.Ok? ==> pos > old(pos)
    {
      r := ParseOrExpr();
    }

    // ----- Statements -----

    /** Pushes statements until a stop token or the end of the input. */
    method ParseBlock(stops: set<Token>) returns (r: Result<seq<StStatement>, ParseError>)
      requires Valid()
      modifies this
      ensures Did(r, ParseStatements(stops, old(Rest())))
      ensures r.Ok? ==> pos >= old(pos)
      decreases |tokens| - pos, 3
    {
      var body: seq<StStatement> := [];
      AfterNothing(ParseStatements(stops, Rest()));
      while pos < |tokens| && tokens[pos] !in stops
        invariant old(pos) <= pos && Valid()
        invariant ParseStatements(stops, old(Rest())) == After(body, ParseStatements(stops, Rest()))
        decreases |tokens| - pos
      {
        var st :- ParseOneStatement();
        AfterPush(body, st, ParseStatements(stops, Rest()));
        body := body + [st];
      }
      assert body + [] == body;
      return Ok(body);
    }

    method ParseOneStatement() returns (r: Result<StStatement, ParseError>)
      requires Valid()
      modifies this
      ensures Did(r, ParseStatement(old(Rest())))
      ensures r.Ok? ==> pos > old(pos)
      decreases |tokens| - pos, 2
    {
      var t := PeekToken();
      if t.None? {
        return Err(EndOfInput);
      }
      match t.value
      case KwIf => r := ParseIfStatement();
      case KwWhile => r := ParseWhileStatement();
      case KwRepeat => r := ParseRepeatStatement();
      case KwFor => r := ParseForStatement();
      case Identifier(_) => r := ParseAssignmentOrFbCall();
      case other => r := Err(BadStatementStart(other));
    }

    method ParseAssignmentOrFbCall() returns (r: Result<StStatement, ParseError>)
      requires Valid() && pos < |tokens| && tokens[pos].Identifier?
      modifies this
      ensures Did(r, ParseSimple(tokens[old(pos)].id, old(Rest())))
      ensures r.Ok? ==> pos > old(pos)
      decreases |tokens| - pos, 1
    {
      var name := tokens[pos].id;
      var _ := Advance();
      var t := PeekToken();
      if t == Some(Assign) {
        var _ := Advance();
        var x :- ParseExpr();
        var _ :- ExpectToken(Semicolon);
        return Ok(Assignment(name, x));
      } else if t == Some(LeftParen) {
        var _ := Advance();
        var inputs :- ParseFbInputs();
        var _ :- ExpectToken(RightParen);
        var _ :- ExpectToken(Semicolon);
        return Ok(FbCall(name, inputs));
      } else {
        return Err(ExpectedAssignOrCall(name, t));
      }
    }

    method ParseFbInputs() returns (r: Result<seq<FbInput>, ParseError>)
      requires Valid()
      modifies this
      ensures Did(r, ParseInputs(old(Rest())))
      ensures r.Ok? ==> pos >= old(pos)
    {
      var inputs: seq<FbInput> := [];
      AfterNothing(ParseInputs(Rest()));
      while pos < |tokens| && tokens[pos] != RightParen
        invariant old(pos) <= pos && Valid()
        invariant ParseInputs(old(Rest())) == After(inputs, ParseInputs(Rest()))
        decreases |tokens| - pos
      {
        var input :- ParseFbInput();
        AfterPush(inputs, input, ParseInputs(Rest()));
        inputs := inputs + [input];
      }
      assert inputs + [] == inputs;
      return Ok(inputs);
    }

    method ParseFbInput() returns (r: Result<FbInput, ParseError>)
      requires Valid() && pos < |tokens|
      modifies this
      ensures Did(r, ParseInput(old(Rest())))
      ensures r.Ok? ==> pos > old(pos)
    {
      if !tokens[pos].Identifier? {
        return Err(ExpectedParameter(Some(tokens[pos])));
      }
      var param := tokens[pos].id;
      var _ := Advance();
      if pos < |tokens| && (tokens[pos] == Assign || tokens[pos] == OutputAssign) {
        var _ := Advance();
      }
      var x :- ParseExpr();
      if pos < |tokens| && tokens[pos] == Comma {
        var _ := Advance();
      }
      return Ok(FbInput(param, x));
    }

    method ParseIfStatement() returns (r: Result<StStatement, ParseError>)
      requires Valid()
      modifies this
      ensures Did(r, ParseIf(old(Rest())))
      ensures r.Ok? ==> pos > old(pos)
      decreases |tokens| - pos, 1
    {
      var _ :- ExpectToken(KwIf);
      var cond :- ParseExpr();
      var _ :- ExpectToken(KwThen);
      var thenBody :- ParseBlock(ARM_ENDS);
      var elsifs :- ParseElsifBranches();
      var elsePart :- ParseElsePart();
      var _ :- ExpectToken(KwEndIf);
      var _ :- ExpectToken(Semicolon);
      return Ok(If(cond, thenBody, elsifs, elsePart));
    }

    method ParseElsifBranches() returns (r: Result<seq<ElsifBranch>, ParseError>)
      requires Valid()
      modifies this
      ensures Did(r, ParseElsifs(old(Rest())))
      ensures r.Ok? ==> pos >= old(pos)
      decreases |tokens| - pos, 1
    {
      var branches: seq<ElsifBranch> := [];
      AfterNothing(ParseElsifs(Rest()));
      while pos < |tokens| && tokens[pos] == KwElsif
        invariant old(pos) <= pos && Valid()
        invariant ParseElsifs(old(Rest())) == After(branches, ParseElsifs(Rest()))
        decreases |tokens| - pos
      {
        var branch :- ParseElsifBranch();
        AfterPush(branches, branch, ParseElsifs(Rest()));
        branches := branches + [branch];
      }
      assert branches + [] == branches;
      return Ok(branches);
    }

    method ParseElsifBranch() returns (r: Result<ElsifBranch, ParseError>)
      requires Valid() && pos < |tokens| && tokens[pos] == KwElsif
      modifies this
      ensures Did(r, ParseElsif(old(Rest())))
      ensures r.Ok? ==> pos > old(pos)
      decreases |tokens| - pos, 0
    {
      var _ := Advance();
      var cond :- ParseExpr();
      var _ :- ExpectToken(KwThen);
      var body :- ParseBlock(ARM_ENDS);
      return Ok(ElsifBranch(cond, body));
    }

    method ParseElsePart() returns (r: Result<ElsePart, ParseError>)
      requires Valid()
      modifies this
      ensures Did(r, ParseElse(old(Rest())))
      ensures r.Ok? ==> pos >= old(pos)
      decreases |tokens| - pos, 0
    {
      var t := PeekToken();
      if t != Some(KwElse) {
        return Ok(NoElse);
      }
      var _ := Advance();
      var body :- ParseBlock({KwEndIf});
      return Ok(Else(body));
    }

    method ParseWhileStatement() returns (r: Result<StStatement, ParseError>)
      requires Valid()
      modifies this
      ensures Did(r, ParseWhile(old(Rest())))
      ensures r.Ok? ==> pos > old(pos)
      decreases |tokens| - pos, 1
    {
      var _ :- ExpectToken(KwWhile);
      var cond :- ParseExpr();
      var _ :- ExpectToken(KwDo);
      var body :- ParseBlock({KwEndWhile});
      var _ :- ExpectToken(KwEndWhile);
      var _ :- ExpectToken(Semicolon);
      return Ok(While(cond, body));
    }

    method ParseRepeatStatement() returns (r: Result<StStatement, ParseError>)
      requires Valid()
      modifies this
      ensures Did(r, ParseRepeat(old(Rest())))
      ensures r.Ok? ==> pos > old(pos)
      decreases |tokens| - pos, 1
    {
      var _ :- ExpectToken(KwRepeat);
      var body :- ParseBlock({KwUntil});
      var _ :- ExpectToken(KwUntil);
      var cond :- ParseExpr();
      var _ :- ExpectToken(KwEndRepeat);
      var _ :- ExpectToken(Semicolon);
      return Ok(Repeat(body, cond));
    }

    method ParseForStatement() returns (r: Result<StStatement, ParseError>)
      requires Valid()
      modifies this
      ensures Did(r, ParseFor(old(Rest())))
      ensures r.Ok? ==> pos > old(pos)
      decreases |tokens| - pos, 1
    {
      var _ :- ExpectToken(KwFor);
      var t := Advance();
      if t.None? || !t.value.Identifier? {
        return Err(ExpectedLoopVariable(t));
      }
      var _ :- ExpectToken(Assign);
      var start :- ParseExpr();
      var _ :- ExpectToken(KwTo);
      var end :- ParseExpr();
      var step: Option<StExpr> := None;
      var next := PeekToken();
      if next == Some(KwBy) {
        var _ := Advance();
        var x :- ParseExpr();
        step := Some(x);
      }
      var _ :- ExpectToken(KwDo);
      var body :- ParseBlock({KwEndFor});
      var _ :- ExpectToken(KwEndFor);
      var _ :- ExpectToken(Semicolon);
      return Ok(For(t.value.id, start, end, step, body));
    }

    /** A success has read everything. */
    method ParseWholeProgram() returns (r: Result<seq<StStatement>, ParseError>)
      requires Valid()
      modifies this
      ensures r == ParseProgram(old(Rest()))
      ensures r.Ok? ==> pos == |tokens|
    {
      r := ParseBlock({});
    }
  }
}
