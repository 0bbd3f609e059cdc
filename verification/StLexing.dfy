/** Source text as a sequence of spelled tokens with gaps of whitespace and comments between them, and the
    proof that the tokenizer reads back exactly those tokens. */
module StLexing {
  import opened Machine
  import opened StTokens
  import opened StLexer

  // ----- Gaps -----

  datatype Gap = Blank(c: char) | LineComment(body: string) | BlockComment(body: string)

  predicate ClosesComment(s: string, i: nat)
    requires i + 1 < |s|
  {
    s[i] == '*' && s[i + 1] == ')'
  }

  predicate IsGap(g: Gap) {
    match g
    case Blank(c) => IsSpace(c)
    case LineComment(body) => '\n' !in body
    case BlockComment(body) => forall i :: 0 <= i < |body| - 1 ==> !ClosesComment(body, i)
  }

  function GapText(g: Gap): string {
    match g
    case Blank(c) => [c]
    case LineComment(body) => "//" + body + "\n"
    case BlockComment(body) => "(*" + body + "*)"
  }

  function GapsText(gs: seq<Gap>): string {
    if gs == [] then "" else GapText(gs[0]) + GapsText(gs[1..])
  }

  predicate AreGaps(gs: seq<Gap>) {
    forall g :: g in gs ==> IsGap(g)
  }

  /** A comment may be cut off by the end of the text. */
  datatype Ending = Closed | OpenLine(body: string) | OpenBlock(body: string)

  predicate IsEnding(e: Ending) {
    match e
    case Closed => true
    case OpenLine(body) => IsGap(LineComment(body))
    case OpenBlock(body) => IsGap(BlockComment(body))
  }

  function EndingText(e: Ending): string {
    match e
    case Closed => ""
    case OpenLine(body) => "//" + body
    case OpenBlock(body) => "(*" + body
  }

  /** What may follow the last token. */
  datatype Tail = Tail(gaps: seq<Gap>, ending: Ending)

  predicate IsTail(t: Tail) {
    AreGaps(t.gaps) && IsEnding(t.ending)
  }

  function TailText(t: Tail): string {
    GapsText(t.gaps) + EndingText(t.ending)
  }

  lemma {:induction false} AfterBlockIs(body: string, rest: string)
    requires IsGap(BlockComment(body))
    ensures AfterBlock(body + ("*)" + rest)) == rest
  {
    var cs := body + ("*)" + rest);
    if body == [] {
      assert cs == "*)" + rest;
    } else {
      assert cs[1..] == body[1..] + ("*)" + rest);
      assert |body| > 1 ==> !ClosesComment(body, 0);
      forall i | 0 <= i < |body[1..]| - 1 ensures !ClosesComment(body[1..], i) {
        assert !ClosesComment(body, i + 1);
      }
      AfterBlockIs(body[1..], rest);
    }
  }

  lemma SkipLine(body: string, rest: string)
    requires IsGap(LineComment(body))
    ensures Skip(GapText(LineComment(body)) + rest) == Skip(rest)
  {
    var cs := GapText(LineComment(body)) + rest;
    var n := 2 + |body|;
    assert cs[n..] == ['\n'] + rest;
    assert forall i :: 2 <= i < n ==> cs[i] == body[i - 2];
    SpanIs(Other('\n'), cs, n);
  }

  lemma SkipBlock(body: string, rest: string)
    requires IsGap(BlockComment(body))
    ensures Skip(GapText(BlockComment(body)) + rest) == Skip(rest)
  {
    var cs := GapText(BlockComment(body)) + rest;
    assert cs[2..] == body + ("*)" + rest);
    AfterBlockIs(body, rest);
  }

  /** Gaps are skipped, whatever they are and however many. */
  lemma {:induction false} SkipGaps(gs: seq<Gap>, rest: string)
    requires AreGaps(gs)
    ensures Skip(GapsText(gs) + rest) == Skip(rest)
  {
    if gs == [] {
      assert GapsText(gs) + rest == rest;
    } else {
      var more := GapsText(gs[1..]) + rest;
      assert GapsText(gs) + rest == GapText(gs[0]) + more;
      assert IsGap(gs[0]);
      match gs[0] {
        case Blank(c) =>
        case LineComment(body) => SkipLine(body, more);
        case BlockComment(body) => SkipBlock(body, more);
      }
      SkipGaps(gs[1..], rest);
    }
  }

  lemma {:induction false} NoBlockEnd(body: string)
    requires IsGap(BlockComment(body))
    ensures AfterBlock(body) == ""
  {
    if body != [] {
      assert |body| > 1 ==> !ClosesComment(body, 0);
      forall i | 0 <= i < |body[1..]| - 1 ensures !ClosesComment(body[1..], i) {
        assert !ClosesComment(body, i + 1);
      }
      NoBlockEnd(body[1..]);
    }
  }

  lemma SkipEnding(e: Ending)
    requires IsEnding(e)
    ensures Skip(EndingText(e)) == ""
  {
    var cs := EndingText(e);
    match e
    case Closed =>
    case OpenLine(body) =>
      assert forall i :: 2 <= i < |cs| ==> cs[i] == body[i - 2];
      SpanIs(Other('\n'), cs, |cs|);
    case OpenBlock(body) =>
      assert cs[2..] == body;
      NoBlockEnd(body);
  }

  /** So is everything after the last token, a comment without an end included. */
  lemma SkipTail(t: Tail)
    requires IsTail(t)
    ensures Skip(TailText(t)) == ""
  {
    SkipGaps(t.gaps, EndingText(t.ending));
    SkipEnding(t.ending);
  }

  // ----- Spellings -----

  function SymbolText(t: Token): Option<string> {
    match t
    case Semicolon => Some(";")
    case Comma => Some(",")
    case LeftParen => Some("(")
    case RightParen => Some(")")
    case Plus => Some("+")
    case Minus => Some("-")
    case Star => Some("*")
    case Slash => Some("/")
    case Colon => Some(":")
    case Assign => Some(":=")
    case Equals => Some("=")
    case OutputAssign => Some("=>")
    case Less => Some("<")
    case NotEquals => Some("<>")
    case LessEq => Some("<=")
    case Greater => Some(">")
    case GreaterEq => Some(">=")
    case _ => None
  }

  predicate IsWord(w: string) {
    w != [] && StartsWord(w[0]) && forall i :: 0 <= i < |w| ==> InWord(w[i])
  }

  predicate IsNumeral(w: string) {
    w != [] && AllDigits(w)
  }

  /** w is a way to write t: keywords in any case, numbers with any leading zeros, strings in either quote, the closing
      one of which may be missing at the end of the text. */
  ghost predicate Spells(w: string, t: Token) {
    match t
    case Identifier(id) => IsWord(w) && w == id && KeywordOf(Upper(w)).None?
    case IntLiteral(i) => IsNumeral(w) && DecimalValue(w) == i
    case FloatLiteral(f) =>
      exists whole, fraction ::
        w == whole + "." + fraction && IsNumeral(whole) && IsNumeral(fraction) && f == FloatValue(whole, fraction)
    case StringLiteral(s) => exists q :: IsQuote(q) && q !in s && (w == [q] + s + [q] || w == [q] + s)
    case _ =>
      if SymbolText(t).Some? then w == SymbolText(t).value
      else IsWord(w) && KeywordOf(Upper(w)) == Some(t)
  }

  predicate NextIs(rest: string, c: char) {
    rest != [] && rest[0] == c
  }

  predicate NextDigit(rest: string) {
    rest != [] && IsDigit(rest[0])
  }

  /** What follows does not run together with the token t, spelled w. */
  predicate Separated(w: string, t: Token, rest: string) {
    match t
    case LeftParen => !NextIs(rest, '*')
    case Slash => !NextIs(rest, '/')
    case Colon => !NextIs(rest, '=')
    case Equals => !NextIs(rest, '>')
    case Less => !NextIs(rest, '>') && !NextIs(rest, '=')
    case Greater => !NextIs(rest, '=')
    case IntLiteral(_) => !NextDigit(rest) && (NextIs(rest, '.') ==> !NextDigit(rest[1..]))
    case FloatLiteral(_) => !NextDigit(rest)
    case StringLiteral(s) => |w| == |s| + 2 || rest == []
    case _ => SymbolText(t).Some? || rest == [] || !InWord(rest[0])
  }

  lemma SymbolReads(t: Token, rest: string)
    requires SymbolText(t).Some? && Separated(SymbolText(t).value, t, rest)
    ensures var w := SymbolText(t).value;
            && TokenAt(w + rest) == Ok(Lexed(t, |w|))
            && Skip(w + rest) == w + rest
  {
    var w := SymbolText(t).value;
    var cs := w + rest;
    assert |cs| > |w| ==> cs[|w|] == rest[0];
    assert cs[0] == w[0];
    assert |w| == 2 ==> cs[1] == w[1];
    assert SymbolAt(cs) == Some(Lexed(t, |w|));
  }

  lemma WordBegins(cs: string)
    requires cs != [] && StartsWord(cs[0])
    ensures SymbolAt(cs).None? && !IsQuote(cs[0]) && !IsDigit(cs[0]) && Skip(cs) == cs
  {
  }

  lemma {:induction false} WordReads(w: string, rest: string)
    requires IsWord(w) && (rest == [] || !InWord(rest[0]))
    ensures TokenAt(w + rest) == Ok(Lexed(WordToken(w), |w|))
    ensures Skip(w + rest) == w + rest
  {
    var cs := w + rest;
    assert forall i :: 0 <= i < |w| ==> cs[i] == w[i];
    SpanIs(InWord, cs, |w|);
    assert cs[..|w|] == w;
    WordBegins(cs);
  }

  lemma DigitsAre(w: string, rest: string)
    requires AllDigits(w) && !NextDigit(rest)
    ensures Span(IsDigit, w + rest) == |w| && Digits(w + rest) == w
  {
    SpanIs(IsDigit, w + rest, |w|);
    assert (w + rest)[..|w|] == w;
  }

  lemma IntReads(w: string, i: i64, rest: string)
    requires IsNumeral(w) && DecimalValue(w) == i && Separated(w, IntLiteral(i), rest)
    ensures TokenAt(w + rest) == Ok(Lexed(IntLiteral(i), |w|))
    ensures Skip(w + rest) == w + rest
  {
    var cs := w + rest;
    assert cs[0] == w[0];
    DigitsAre(w, rest);
    assert |w| + 1 < |cs| ==> cs[|w|] == rest[0] && cs[|w| + 1] == rest[1..][0];
    assert NumberSpan(cs) == (|w|, false);
  }

  lemma FloatSpan(whole: string, fraction: string, rest: string)
    requires IsNumeral(whole) && IsNumeral(fraction) && !NextDigit(rest)
    ensures var cs := whole + ("." + (fraction + rest));
            && NumberSpan(cs) == (|whole| + 1 + |fraction|, true)
            && NumberToken(cs) == Ok(FloatLiteral(FloatValue(whole, fraction)))
  {
    var after := fraction + rest;
    var cs := whole + ("." + after);
    DigitsAre(whole, "." + after);
    DigitsAre(fraction, rest);
    assert cs[|whole| + 1..] == after;
    assert cs[|whole|] == '.' && cs[|whole| + 1] == fraction[0];
  }

  lemma {:induction false} FloatReads(whole: string, fraction: string, rest: string)
    requires IsNumeral(whole) && IsNumeral(fraction) && !NextDigit(rest)
    ensures var w := whole + "." + fraction;
            && TokenAt(w + rest) == Ok(Lexed(FloatLiteral(FloatValue(whole, fraction)), |w|))
            && Skip(w + rest) == w + rest
  {
    var cs := whole + "." + fraction + rest;
    assert cs == whole + ("." + (fraction + rest));
    assert cs[0] == whole[0];
    FloatSpan(whole, fraction, rest);
  }

  lemma StringReads(q: char, s: string, rest: string)
    requires IsQuote(q) && q !in s
    ensures var w := [q] + s + [q];
            && TokenAt(w + rest) == Ok(Lexed(StringLiteral(s), |w|))
            && Skip(w + rest) == w + rest
  {
    var cs := [q] + s + [q] + rest;
    var inner := s + ([q] + rest);
    assert cs[1..] == inner && cs[0] == q;
    SpanIs(Other(q), inner, |s|);
    assert inner[..|s|] == s;
  }

  lemma OpenStringReads(q: char, s: string)
    requires IsQuote(q) && q !in s
    ensures TokenAt([q] + s) == Ok(Lexed(StringLiteral(s), |s| + 1)) && Skip([q] + s) == [q] + s
  {
    var cs := [q] + s;
    assert cs[1..] == s && cs[0] == q;
    SpanIs(Other(q), s, |s|);
    assert s[..|s|] == s;
  }

  lemma {:induction false} QuotedReads(w: string, s: string, rest: string)
    requires Spells(w, StringLiteral(s)) && Separated(w, StringLiteral(s), rest)
    ensures w != [] && TokenAt(w + rest) == Ok(Lexed(StringLiteral(s), |w|)) && Skip(w + rest) == w + rest
  {
    var q :| IsQuote(q) && q !in s && (w == [q] + s + [q] || w == [q] + s);
    if w == [q] + s {
      assert w + rest == w;
      OpenStringReads(q, s);
    } else {
      StringReads(q, s, rest);
    }
  }

  lemma {:induction false} KeywordReads(w: string, t: Token, rest: string)
    requires IsWord(w) && KeywordOf(Upper(w)) == Some(t) && (rest == [] || !InWord(rest[0]))
    ensures TokenAt(w + rest) == Ok(Lexed(t, |w|)) && Skip(w + rest) == w + rest
  {
    WordReads(w, rest);
  }

  lemma {:induction false} IdentifierReads(w: string, rest: string)
    requires IsWord(w) && KeywordOf(Upper(w)).None? && (rest == [] || !InWord(rest[0]))
    ensures TokenAt(w + rest) == Ok(Lexed(Identifier(w), |w|)) && Skip(w + rest) == w + rest
  {
    WordReads(w, rest);
  }

  /** Every spelling, in every context that does not run on, reads as its token and nothing more. */
  lemma {:induction false} SpellingReads(w: string, t: Token, rest: string)
    requires Spells(w, t) && Separated(w, t, rest)
    ensures w != [] && TokenAt(w + rest) == Ok(Lexed(t, |w|)) && Skip(w + rest) == w + rest
  {
    match t
    case Identifier(_) => IdentifierReads(w, rest);
    case IntLiteral(i) => IntReads(w, i, rest);
    case FloatLiteral(f) =>
      var whole, fraction :|
        w == whole + "." + fraction && IsNumeral(whole) && IsNumeral(fraction) && f == FloatValue(whole, fraction);
      FloatReads(whole, fraction, rest);
    case StringLiteral(s) => QuotedReads(w, s, rest);
    case _ =>
      if SymbolText(t).Some? {
        SymbolReads(t, rest);
      } else {
        KeywordReads(w, t, rest);
      }
  }

  // ----- Whole texts -----

  datatype Piece = Piece(gaps: seq<Gap>, text: string, token: Token)

  function Render(ps: seq<Piece>, last: Tail): string {
    if ps == [] then TailText(last) else GapsText(ps[0].gaps) + (ps[0].text + Render(ps[1..], last))
  }

  function TokensOf(ps: seq<Piece>): seq<Token> {
    if ps == [] then [] else [ps[0].token] + TokensOf(ps[1..])
  }

  /** Gaps are gaps, texts spell their tokens, and no token runs into what follows it. */
  ghost predicate WellSpaced(ps: seq<Piece>, last: Tail) {
    if ps == [] then IsTail(last) else
      && AreGaps(ps[0].gaps) && Spells(ps[0].text, ps[0].token)
      && Separated(ps[0].text, ps[0].token, Render(ps[1..], last))
      && WellSpaced(ps[1..], last)
  }

  /** The tokenizer reads back exactly the tokens.  The result mentions neither the gaps nor the spellings, so
      whitespace, comments, the case of keywords, leading zeros and quotes never matter. */
  lemma {:induction false} RenderedReads(ps: seq<Piece>, last: Tail)
    requires WellSpaced(ps, last)
    ensures Tokenize(Render(ps, last)) == Ok(TokensOf(ps))
  {
    if ps == [] {
      SkipTail(last);
    } else {
      var p := ps[0];
      var rest := Render(ps[1..], last);
      var text := p.text + rest;
      SkipGaps(p.gaps, text);
      SpellingReads(p.text, p.token, rest);
      assert text[|p.text|..] == rest;
      RenderedReads(ps[1..], last);
    }
  }

  // ----- Which tokens can be written at all -----

  ghost predicate Printable(t: Token) {
    exists w :: Spells(w, t)
  }

  function DigitChar(d: nat): (c: char)
    requires d < 10
    ensures IsDigit(c) && DigitValue(c) == d
  {
    '0' + d as char
  }

  function DecimalText(n: nat): (w: string)
    ensures IsNumeral(w)
  {
    if n < 10 then [DigitChar(n)] else DecimalText(n / 10) + [DigitChar(n % 10)]
  }

  /** Decimal text and decimal value are inverse. */
  lemma {:induction false} DecimalRoundTrip(n: nat)
    ensures DecimalValue(DecimalText(n)) == n
  {
    var w := DecimalText(n);
    if n < 10 {
      assert w[..|w| - 1] == [];
    } else {
      assert w[..|w| - 1] == DecimalText(n / 10);
      DecimalRoundTrip(n / 10);
    }
  }

  function KeywordText(t: Token): Option<string> {
    match t
    case KwIf => Some("IF")
    case KwThen => Some("THEN")
    case KwElsif => Some("ELSIF")
    case KwElse => Some("ELSE")
    case KwEndIf => Some("END_IF")
    case KwWhile => Some("WHILE")
    case KwDo => Some("DO")
    case KwEndWhile => Some("END_WHILE")
    case KwRepeat => Some("REPEAT")
    case KwUntil => Some("UNTIL")
    case KwEndRepeat => Some("END_REPEAT")
    case KwFor => Some("FOR")
    case KwTo => Some("TO")
    case KwBy => Some("BY")
    case KwEndFor => Some("END_FOR")
    case KwTrue => Some("TRUE")
    case KwFalse => Some("FALSE")
    case KwAnd => Some("AND")
    case KwOr => Some("OR")
    case KwNot => Some("NOT")
    case KwXor => Some("XOR")
    case KwMod => Some("MOD")
    case _ => None
  }

  lemma {:induction false} KeywordHasText(u: string)
    requires KeywordOf(u).Some?
    ensures KeywordText(KeywordOf(u).value) == Some(u)
  {
  }

  lemma {:induction false} OtherKeywordRead(t: Token)
    requires t.KwFor? || t.KwTo? || t.KwBy? || t.KwEndFor? || t.KwTrue? || t.KwFalse?
          || t.KwAnd? || t.KwOr? || t.KwNot? || t.KwXor? || t.KwMod?
    ensures KeywordOf(KeywordText(t).value) == Some(t)
  {
  }

  /** The keyword table is a bijection between its texts and the keyword tokens. */
  lemma KeywordTable(t: Token, u: string)
    ensures KeywordOf(u) == Some(t) <==> KeywordText(t) == Some(u)
  {
    if KeywordOf(u) == Some(t) {
      KeywordHasText(u);
    }
    if KeywordText(t) == Some(u) {
      if t.KwFor? || t.KwTo? || t.KwBy? || t.KwEndFor? || t.KwTrue? || t.KwFalse?
         || t.KwAnd? || t.KwOr? || t.KwNot? || t.KwXor? || t.KwMod? {
        OtherKeywordRead(t);
      } else {
      }
    }
  }

  predicate IsUpperWordChar(c: char) {
    'A' <= c <= 'Z' || c == '_'
  }

  lemma KeywordLetters(t: Token)
    requires KeywordText(t).Some?
    ensures var u := KeywordText(t).value;
            u != [] && 'A' <= u[0] <= 'Z' && forall c :: c in u ==> IsUpperWordChar(c)
  {
  }

  lemma WordIfUpper(w: string)
    requires w != [] && 'A' <= Upper(w)[0] <= 'Z' && forall c :: c in Upper(w) ==> IsUpperWordChar(c)
    ensures IsWord(w)
  {
    forall i | 0 <= i < |w| ensures InWord(w[i]) {
      assert Upper(w)[i] in Upper(w);
    }
  }

  /** Any mix of cases spells a keyword. */
  lemma AnyCaseSpells(w: string, t: Token)
    requires KeywordText(t) == Some(Upper(w))
    ensures Spells(w, t)
  {
    KeywordTable(t, Upper(w));
    KeywordLetters(t);
    WordIfUpper(w);
  }
}
