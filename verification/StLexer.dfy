/** The tokenizer: as functions on the remaining characters, and as the object with a current character
    that computes them.  Character classes are the ASCII ones. */
module StLexer {
  import opened Machine
  import opened StTokens

  datatype LexError = UnexpectedCharacter(c: char) | InvalidInt(text: string)

  predicate IsSpace(c: char) {
    c == ' ' || '\U{0009}' <= c <= '\U{000D}'
  }

  predicate IsDigit(c: char) {
    '0' <= c <= '9'
  }

  predicate IsAlpha(c: char) {
    'a' <= c <= 'z' || 'A' <= c <= 'Z'
  }

  predicate StartsWord(c: char) {
    IsAlpha(c) || c == '_'
  }

  predicate InWord(c: char) {
    IsAlpha(c) || IsDigit(c) || c == '_'
  }

  /** How many leading characters satisfy p. */
  function Span(p: char -> bool, cs: string): (n: nat)
    ensures n <= |cs|
  {
    if cs == [] || !p(cs[0]) then 0 else 1 + Span(p, cs[1..])
  }

  /** They all do, and the next one does not. */
  lemma {:induction false} SpanSpec(p: char -> bool, cs: string)
    ensures var n := Span(p, cs);
            (forall i :: 0 <= i < n ==> p(cs[i])) && (n < |cs| ==> !p(cs[n]))
  {
    if cs != [] && p(cs[0]) {
      SpanSpec(p, cs[1..]);
    }
  }

  lemma SpanStep(p: char -> bool, cs: string)
    requires cs != [] && p(cs[0])
    ensures Span(p, cs) == 1 + Span(p, cs[1..])
  {
  }

  function Other(q: char): char -> bool {
    c => c != q
  }

  // ----- Whitespace and comments -----

  /** What follows the first `*)`; an unclosed comment runs to the end. */
  function AfterBlock(cs: string): (r: string)
    ensures |r| <= |cs|
  {
    if cs == [] then []
    else if |cs| > 1 && cs[0] == '*' && cs[1] == ')' then cs[2..]
    else AfterBlock(cs[1..])
  }

  predicate Begins(a: char, b: char, cs: string) {
    |cs| > 1 && cs[0] == a && cs[1] == b
  }

  function Skip(cs: string): (r: string)
    ensures |r| <= |cs|
    ensures r != [] ==> !IsSpace(r[0]) && !Begins('/', '/', r) && !Begins('(', '*', r)
    decreases |cs|
  {
    if cs == [] then []
    else if IsSpace(cs[0]) then Skip(cs[1..])
    else if Begins('/', '/', cs) then Skip(cs[Span(Other('\n'), cs)..])
    else if Begins('(', '*', cs) then Skip(AfterBlock(cs[2..]))
    else cs
  }

  // ----- Words and numbers -----

  function KeywordOf(u: string): Option<Token> {
    if u == "IF" then Some(KwIf)
    else if u == "THEN" then Some(KwThen)
    else if u == "ELSIF" then Some(KwElsif)
    else if u == "ELSE" then Some(KwElse)
    else if u == "END_IF" then Some(KwEndIf)
    else if u == "WHILE" then Some(KwWhile)
    else if u == "DO" then Some(KwDo)
    else if u == "END_WHILE" then Some(KwEndWhile)
    else if u == "REPEAT" then Some(KwRepeat)
    else if u == "UNTIL" then Some(KwUntil)
    else if u == "END_REPEAT" then Some(KwEndRepeat)
    else if u == "FOR" then Some(KwFor)
    else if u == "TO" then Some(KwTo)
    else if u == "BY" then Some(KwBy)
    else if u == "END_FOR" then Some(KwEndFor)
    else if u == "TRUE" then Some(KwTrue)
    else if u == "FALSE" then Some(KwFalse)
    else if u == "AND" then Some(KwAnd)
    else if u == "OR" then Some(KwOr)
    else if u == "NOT" then Some(KwNot)
    else if u == "XOR" then Some(KwXor)
    else if u == "MOD" then Some(KwMod)
    else None
  }

  /** Keywords are recognised in any case; any other word keeps its spelling. */
  function WordToken(w: string): Token {
    var k := KeywordOf(Upper(w));
    if k.Some? then k.value else Identifier(w)
  }

  function DigitValue(c: char): (d: nat)
    requires IsDigit(c)
    ensures d < 10
  {
    c as int - '0' as int
  }

  predicate AllDigits(w: string) {
    forall i :: 0 <= i < |w| ==> IsDigit(w[i])
  }

  function DecimalValue(w: string): nat
    requires AllDigits(w)
  {
    if w == [] then 0 else DecimalValue(w[..|w| - 1]) * 10 + DigitValue(w[|w| - 1])
  }

  function PowerOfTen(n: nat): (p: int)
    ensures p > 0
  {
    if n == 0 then 1 else 10 * PowerOfTen(n - 1)
  }

  /** The value of `whole.fraction`. */
  function FloatValue(whole: string, fraction: string): real
    requires AllDigits(whole) && AllDigits(fraction)
  {
    DecimalValue(whole) as real + DecimalValue(fraction) as real / PowerOfTen(|fraction|) as real
  }

  /** The length of the longest number at the front, and whether it has a fraction: a dot belongs to it only
      if it is the first one and a digit follows. */
  function NumberSpan(cs: string): (r: (nat, bool))
    ensures r.0 <= |cs|
  {
    var n := Span(IsDigit, cs);
    if n + 1 < |cs| && cs[n] == '.' && IsDigit(cs[n + 1]) then (n + 1 + Span(IsDigit, cs[n + 1..]), true)
    else (n, false)
  }

  /** The digits at the front. */
  function Digits(cs: string): (w: string)
    ensures AllDigits(w)
  {
    SpanSpec(IsDigit, cs);
    cs[..Span(IsDigit, cs)]
  }

  function IntToken(w: string): Result<Token, LexError>
    requires AllDigits(w)
  {
    if DecimalValue(w) <= I64_MAX then Ok(IntLiteral(DecimalValue(w))) else Err(InvalidInt(w))
  }

  function NumberToken(cs: string): Result<Token, LexError> {
    var whole := Digits(cs);
    if NumberSpan(cs).1 then Ok(FloatLiteral(FloatValue(whole, Digits(cs[|whole| + 1..])))) else IntToken(whole)
  }

  // ----- Tokens -----

  /** A token and how many characters it takes. */
  datatype Lexed = Lexed(token: Token, length: nat)

  function SymbolAt(cs: string): (r: Option<Lexed>)
    requires cs != []
    ensures r.Some? ==> 0 < r.value.length <= |cs|
  {
    var next := if |cs| > 1 then cs[1] else ' ';
    match cs[0]
    case ';' => Some(Lexed(Semicolon, 1))
    case ',' => Some(Lexed(Comma, 1))
    case '(' => Some(Lexed(LeftParen, 1))
    case ')' => Some(Lexed(RightParen, 1))
    case '+' => Some(Lexed(Plus, 1))
    case '-' => Some(Lexed(Minus, 1))
    case '*' => Some(Lexed(Star, 1))
    case '/' => Some(Lexed(Slash, 1))
    case ':' => Some(if next == '=' then Lexed(Assign, 2) else Lexed(Colon, 1))
    case '=' => Some(if next == '>' then Lexed(OutputAssign, 2) else Lexed(Equals, 1))
    case '<' =>
      Some(if next == '>' then Lexed(NotEquals, 2) else if next == '=' then Lexed(LessEq, 2) else Lexed(Less, 1))
    case '>' => Some(if next == '=' then Lexed(GreaterEq, 2) else Lexed(Greater, 1))
    case _ => None
  }

  predicate IsQuote(c: char) {
    c == '\'' || c == '\"'
  }

  function TokenAt(cs: string): (r: Result<Lexed, LexError>)
    requires cs != []
    ensures r.Ok? ==> 0 < r.value.length <= |cs|
  {
    var symbol := SymbolAt(cs);
    if symbol.Some? then Ok(symbol.value)
    else if IsQuote(cs[0]) then
      // an unclosed string runs to the end
      var n := Span(Other(cs[0]), cs[1..]);
      Ok(Lexed(StringLiteral(cs[1..][..n]), if n < |cs| - 1 then n + 2 else n + 1))
    else if IsDigit(cs[0]) then
      var t :- NumberToken(cs);
      Ok(Lexed(t, NumberSpan(cs).0))
    else if StartsWord(cs[0]) then
      var n := Span(InWord, cs);
      Ok(Lexed(WordToken(cs[..n]), n))
    else Err(UnexpectedCharacter(cs[0]))
  }

  function Tokenize(cs: string): Result<seq<Token>, LexError>
    decreases |cs|
  {
    var text := Skip(cs);
    if text == [] then Ok([]) else
      var first :- TokenAt(text);
      var more :- Tokenize(text[first.length..]);
      Ok([first.token] + more)
  }

  lemma StringTaken(cs: string, inner: string, n: nat)
    requires cs != [] && IsQuote(cs[0]) && inner == cs[1..] && n == Span(Other(cs[0]), inner)
    ensures TokenAt(cs) == Ok(Lexed(StringLiteral(inner[..n]), if n < |inner| then n + 2 else n + 1))
    ensures inner[n..] == cs[n + 1..]
    ensures n < |inner| ==> inner[n..][1..] == cs[n + 2..]
  {
  }

  // ----- Tokens and numbers, seen from the middle -----

  function Onto(done: seq<Token>, r: Result<seq<Token>, LexError>): Result<seq<Token>, LexError> {
    if r.Ok? then Ok(done + r.value) else r
  }

  lemma OntoPush(done: seq<Token>, t: Token, r: Result<seq<Token>, LexError>)
    ensures Onto(done, Onto([t], r)) == Onto(done + [t], r)
  {
    if r.Ok? {
      assert done + ([t] + r.value) == (done + [t]) + r.value;
    }
  }

  lemma OntoNothing(r: Result<seq<Token>, LexError>)
    ensures Onto([], r) == r
  {
    if r.Ok? {
      assert [] + r.value == r.value;
    }
  }

  /** Where the number ends, seen from the middle of it. */
  function NumberRest(taken: nat, isFloat: bool, cs: string): (nat, bool) {
    if isFloat then (taken + Span(IsDigit, cs), true)
    else var (n, f) := NumberSpan(cs); (taken + n, f)
  }

  lemma RestDigit(taken: nat, isFloat: bool, cs: string)
    requires cs != [] && IsDigit(cs[0])
    ensures NumberRest(taken, isFloat, cs) == NumberRest(taken + 1, isFloat, cs[1..])
  {
    var n := Span(IsDigit, cs[1..]);
    assert n + 1 < |cs| ==> cs[1..][n] == cs[n + 1];
    assert n + 2 < |cs| ==> cs[1..][n + 1] == cs[n + 2] && cs[1..][n + 1..] == cs[n + 2..];
  }

  lemma RestDot(taken: nat, cs: string)
    requires |cs| > 1 && cs[0] == '.' && IsDigit(cs[1])
    ensures NumberRest(taken, false, cs) == NumberRest(taken + 1, true, cs[1..])
  {
  }

  lemma RestEnd(taken: nat, isFloat: bool, cs: string)
    requires cs != [] ==> !IsDigit(cs[0])
    requires |cs| > 1 && cs[0] == '.' && IsDigit(cs[1]) ==> isFloat
    ensures NumberRest(taken, isFloat, cs) == (taken, isFloat)
  {
  }

  /** The text of a number splits at its only dot. */
  lemma NumberText(cs: string)
    ensures var (length, isFloat) := NumberSpan(cs);
            var text, dot := cs[..length], Span(Other('.'), cs[..length]);
            if isFloat then
              && dot < length && AllDigits(text[..dot]) && AllDigits(text[dot + 1..])
              && NumberToken(cs) == Ok(FloatLiteral(FloatValue(text[..dot], text[dot + 1..])))
            else AllDigits(text) && NumberToken(cs) == IntToken(text)
  {
    var n := Span(IsDigit, cs);
    var (length, isFloat) := NumberSpan(cs);
    SpanSpec(IsDigit, cs);
    if isFloat {
      var text := cs[..length];
      SpanIs(Other('.'), text, n);
      assert text[..n] == Digits(cs);
      assert text[n + 1..] == Digits(cs[n + 1..]);
    }
  }

  /** A span is determined by where p first fails. */
  lemma {:induction false} SpanIs(p: char -> bool, cs: string, n: nat)
    requires n <= |cs| && (forall i :: 0 <= i < n ==> p(cs[i])) && (n < |cs| ==> !p(cs[n]))
    ensures Span(p, cs) == n
  {
    if n > 0 {
      SpanIs(p, cs[1..], n - 1);
    }
  }

  // ----- The tokenizer as an object with a current character -----

  /** The characters of start that have been taken, and those that remain. */
  predicate Took(start: string, text: string, rest: string) {
    |text| <= |start| && text == start[..|text|] && rest == start[|text|..]
  }

  lemma TookOne(start: string, text: string, rest: string)
    requires Took(start, text, rest) && rest != []
    ensures Took(start, text + [rest[0]], rest[1..])
  {
  }

  class Lexer {
    /** The characters after the current one. */
    var chars: string
    var current: Option<char>

    ghost predicate Valid()
      reads this
    {
      current.None? ==> chars == []
    }

    ghost function Remaining(): string
      reads this
    {
      if current.Some? then [current.value] + chars else chars
    }

    constructor (input: string)
      ensures Valid() && Remaining() == input
    {
      current := if input == [] then None else Some(input[0]);
      chars := if input == [] then [] else input[1..];
    }

    method Advance()
      requires Valid()
      modifies this
      ensures Valid()
      ensures Remaining() == if old(Remaining()) == [] then [] else old(Remaining())[1..]
    {
      if chars == [] {
        current := None;
      } else {
        current, chars := Some(chars[0]), chars[1..];
      }
    }

    method PeekChar() returns (c: Option<char>)
      requires Valid()
      ensures c == if |Remaining()| > 1 then Some(Remaining()[1]) else None
    {
      c := if chars == [] then None else Some(chars[0]);
    }

    /** Collects characters for as long as p holds. */
    method TakeWhile(p: char -> bool) returns (text: string)
      requires Valid()
      modifies this
      ensures Valid()
      ensures var n := Span(p, old(Remaining())); text == old(Remaining())[..n] && Remaining() == old(Remaining())[n..]
    {
      text := "";
      ghost var start := Remaining();
      while current.Some? && p(current.value)
        invariant Valid() && Took(start, text, Remaining())
        invariant Span(p, start) == |text| + Span(p, Remaining())
        decreases |start| - |text|
      {
        SpanStep(p, Remaining());
        TookOne(start, text, Remaining());
        text := text + [current.value];
        Advance();
      }
      assert Span(p, Remaining()) == 0;
    }

    method SkipBlockComment()
      requires Valid()
      modifies this
      ensures Valid() && Remaining() == AfterBlock(old(Remaining()))
    {
      while current.Some?
        invariant Valid() && AfterBlock(old(Remaining())) == AfterBlock(Remaining())
        decreases |Remaining()|
      {
        var next := PeekChar();
        if current == Some('*') && next == Some(')') {
          Advance();
          Advance();
          return;
        }
        Advance();
      }
    }

    method SkipWhitespaceAndComments()
      requires Valid()
      modifies this
      ensures Valid() && Remaining() == Skip(old(Remaining()))
    {
      while current.Some?
        invariant Valid() && Skip(old(Remaining())) == Skip(Remaining())
        decreases |Remaining()|
      {
        var next := PeekChar();
        if IsSpace(current.value) {
          Advance();
        } else if current == Some('/') && next == Some('/') {
          var _ := TakeWhile(Other('\n'));
        } else if current == Some('(') && next == Some('*') {
          Advance();
          Advance();
          SkipBlockComment();
        } else {
          return;
        }
      }
    }

    /** The quoted text, and then the closing quote if there is one. */
    method ReadString() returns (text: string)
      requires Valid() && Remaining() != [] && IsQuote(Remaining()[0])
      modifies this
      ensures Valid() && |Remaining()| <= |old(Remaining())|
      ensures TokenAt(old(Remaining())) == Ok(Lexed(StringLiteral(text), |old(Remaining())| - |Remaining()|))
      ensures Took(old(Remaining()), old(Remaining())[..|old(Remaining())| - |Remaining()|], Remaining())
    {
      ghost var start := Remaining();
      var quote := current.value;
      Advance();
      ghost var inner := Remaining();
      text := TakeWhile(Other(quote));
      StringTaken(start, inner, Span(Other(quote), inner));
      if current.Some? {
        Advance();
      }
    }

    /** Takes the longest number; a second dot, or a dot without a digit after it, ends it. */
    method ScanNumber() returns (text: string, isFloat: bool)
      requires Valid()
      modifies this
      ensures Valid() && NumberSpan(old(Remaining())) == (|text|, isFloat)
      ensures text == old(Remaining())[..|text|] && Remaining() == old(Remaining())[|text|..]
    {
      ghost var start := Remaining();
      text, isFloat := "", false;
      while current.Some?
        invariant Valid() && Took(start, text, Remaining())
        invariant NumberSpan(start) == NumberRest(|text|, isFloat, Remaining())
        decreases |start| - |text|
      {
        var next := PeekChar();
        if IsDigit(current.value) {
          RestDigit(|text|, isFloat, Remaining());
        } else if current == Some('.') && !isFloat && next.Some? && IsDigit(next.value) {
          RestDot(|text|, Remaining());
          isFloat := true;
        } else {
          break;
        }
        TookOne(start, text, Remaining());
        text := text + [current.value];
        Advance();
      }
      RestEnd(|text|, isFloat, Remaining());
    }

    method ReadNumber() returns (r: Result<Token, LexError>)
      requires Valid() && Remaining() != [] && IsDigit(Remaining()[0])
      modifies this
      ensures Valid() && r == NumberToken(old(Remaining()))
      ensures Remaining() == old(Remaining())[NumberSpan(old(Remaining())).0..]
    {
      NumberText(Remaining());
      var text, isFloat := ScanNumber();
      if isFloat {
        var dot := Span(Other('.'), text);
        r := Ok(FloatLiteral(FloatValue(text[..dot], text[dot + 1..])));
      } else {
        r := IntToken(text);
      }
    }

    method ReadWord() returns (t: Token)
      requires Valid()
      modifies this
      ensures Valid()
      ensures var n := Span(InWord, old(Remaining()));
              t == WordToken(old(Remaining())[..n]) && Remaining() == old(Remaining())[n..]
    {
      var word := TakeWhile(InWord);
      var keyword := KeywordOf(Upper(word));
      t := if keyword.Some? then keyword.value else Identifier(word);
    }

    /** One token, symbols first. */
    method NextToken() returns (r: Result<Token, LexError>)
      requires Valid() && current.Some?
      modifies this
      ensures Valid()
      ensures match TokenAt(old(Remaining()))
              case Err(e) => r == Err(e)
              case Ok(l) => r == Ok(l.token) && Remaining() == old(Remaining())[l.length..]
    {
      var symbol := ReadSymbol();
      if symbol.Some? {
        return Ok(symbol.value);
      }
      var c := current.value;
      if IsQuote(c) {
        var text := ReadString();
        return Ok(StringLiteral(text));
      } else if IsDigit(c) {
        r := ReadNumber();
      } else if StartsWord(c) {
        var t := ReadWord();
        return Ok(t);
      } else {
        return Err(UnexpectedCharacter(c));
      }
    }

    method ReadSymbol() returns (t: Option<Token>)
      requires Valid() && current.Some?
      modifies this
      ensures Valid()
      ensures match SymbolAt(old(Remaining()))
              case None => t == None && Remaining() == old(Remaining())
              case Some(l) => t == Some(l.token) && Remaining() == old(Remaining())[l.length..]
    {
      ghost var start := Remaining();
      var next := PeekChar();
      var double := false;
      match current.value {
        case ';' => t := Some(Semicolon);
        case ',' => t := Some(Comma);
        case '(' => t := Some(LeftParen);
        case ')' => t := Some(RightParen);
        case '+' => t := Some(Plus);
        case '-' => t := Some(Minus);
        case '*' => t := Some(Star);
        case '/' => t := Some(Slash);
        case ':' =>
          double := next == Some('=');
          t := Some(if double then Assign else Colon);
        case '=' =>
          double := next == Some('>');
          t := Some(if double then OutputAssign else Equals);
        case '<' =>
          double := next == Some('>') || next == Some('=');
          t := Some(if next == Some('>') then NotEquals else if double then LessEq else Less);
        case '>' =>
          double := next == Some('=');
          t := Some(if double then GreaterEq else Greater);
        case _ =>
          return None;
      }
      if double {
        Advance();
      }
      Advance();
      assert SymbolAt(start) == Some(Lexed(t.value, if double then 2 else 1));
    }

    method TokenizeAll() returns (r: Result<seq<Token>, LexError>)
      requires Valid()
      modifies this
      ensures Valid() && r == Tokenize(old(Remaining()))
    {
      var tokens: seq<Token> := [];
      OntoNothing(Tokenize(Remaining()));
      while current.Some?
        invariant Valid()
        invariant Tokenize(old(Remaining())) == Onto(tokens, Tokenize(Remaining()))
        decreases |Remaining()|
      {
        SkipWhitespaceAndComments();
        if current.None? {
          break;
        }
        var t :- NextToken();
        OntoPush(tokens, t, Tokenize(Remaining()));
        tokens := tokens + [t];
      }
      assert tokens + [] == tokens;
      r := Ok(tokens);
    }
  }
}
