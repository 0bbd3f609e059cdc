/** From source text to syntax and back: the tokenizer and the parser together. */
module StSource {
  import opened Machine
  import opened StAst
  import opened StTokens
  import opened StLexer
  import opened StLexing
  import opened StRendering
  import opened StParser
  import opened StGrammar
  import opened StAdequacy
  import opened StPrinter
  import opened StLeaves

  datatype SourceError = LexFault(lex: LexError) | ParseFault(parse: ParseError)

  function ParseSt(source: string): Result<seq<StStatement>, SourceError> {
    match Tokenize(source)
    case Err(e) => Err(LexFault(e))
    case Ok(ts) =>
      match ParseProgram(ts)
      case Err(e) => Err(ParseFault(e))
      case Ok(ss) => Ok(ss)
  }

  /** Runs the tokenizer and the parser one after the other. */
  method ParseSource(source: string) returns (r: Result<seq<StStatement>, SourceError>)
    ensures r == ParseSt(source)
  {
    var lexer := new Lexer(source);
    var tokens := lexer.TokenizeAll();
    if tokens.Err? {
      return Err(LexFault(tokens.error));
    }
    var parser := new Parser(tokens.value);
    var program := parser.ParseWholeProgram();
    if program.Err? {
      return Err(ParseFault(program.error));
    }
    return Ok(program.value);
  }

  // ----- What can be printed -----

  predicate IsWhole(r: real) {
    r.Floor as real == r
  }

  function Shifted(f: real, n: nat): real {
    f * PowerOfTen(n) as real
  }

  predicate HasPlaces(f: real, n: nat) {
    IsWhole(Shifted(f, n))
  }

  /** Not negative, and a whole number after moving the decimal point some places. */
  ghost predicate DecimalFraction(f: real) {
    f >= 0.0 && exists n: nat :: HasPlaces(f, n)
  }

  ghost predicate Writable(t: Token) {
    match t
    case Identifier(id) => IsWord(id) && KeywordOf(Upper(id)).None?
    case IntLiteral(i) => i >= 0
    case FloatLiteral(f) => DecimalFraction(f)
    case StringLiteral(s) => '\'' !in s || '\"' !in s
    case _ => true
  }

  /** Exactly which tokens can be written down: any keyword or symbol, words that are no keyword, integers that are not
      negative, finite decimal fractions that are not negative, strings that avoid one of the two quotes. */
  lemma {:induction false} PrintableIff(t: Token)
    ensures Printable(t) <==> Writable(t)
  {
    if Printable(t) {
      var w :| Spells(w, t);
      WritableIfSpelled(w, t);
    }
    if Writable(t) {
      SpelledIfWritable(t);
    }
  }

  lemma {:induction false} SpelledIfWritable(t: Token)
    requires Writable(t)
    ensures Printable(t)
  {
    match t
    case Identifier(id) => assert Spells(id, t);
    case IntLiteral(i) => IntSpells(i);
    case FloatLiteral(f) => FloatSpells(f);
    case StringLiteral(s) => StringSpells(s);
    case _ =>
      if SymbolText(t).Some? {
        SymbolSpells(t);
      } else {
        KeywordSpells(t);
      }
  }

  lemma IntSpells(i: i64)
    requires i >= 0
    ensures Printable(IntLiteral(i))
  {
    DecimalRoundTrip(i);
    assert Spells(DecimalText(i), IntLiteral(i));
  }

  lemma SymbolSpells(t: Token)
    requires SymbolText(t).Some?
    ensures Printable(t)
  {
    assert Spells(SymbolText(t).value, t);
  }

  lemma {:induction false} WritableIfSpelled(w: string, t: Token)
    requires Spells(w, t)
    ensures Writable(t)
  {
    if t.FloatLiteral? {
      var whole, fraction :|
        w == whole + "." + fraction && IsNumeral(whole) && IsNumeral(fraction) && t.f == FloatValue(whole, fraction);
      WrittenFloat(whole, fraction);
    }
  }

  // ----- Floats -----

  lemma WholeIs(r: real, i: int)
    requires r == i as real
    ensures IsWhole(r)
  {
  }

  lemma {:induction false} WrittenFloat(whole: string, fraction: string)
    requires AllDigits(whole) && AllDigits(fraction)
    ensures DecimalFraction(FloatValue(whole, fraction))
  {
    var a, b, n := DecimalValue(whole), DecimalValue(fraction), |fraction|;
    WholeIs(Shifted(FloatValue(whole, fraction), n), a * PowerOfTen(n) + b);
    assert HasPlaces(FloatValue(whole, fraction), n);
  }

  /** n written with exactly k digits. */
  function Padded(n: nat, k: nat): (w: string)
    ensures |w| == k && AllDigits(w)
  {
    if k == 0 then "" else Padded(n / 10, k - 1) + [DigitChar(n % 10)]
  }

  lemma LastDigit(n: nat, p: int)
    requires n < 10 * p
    ensures n / 10 < p && n == n / 10 * 10 + n % 10
  {
  }

  lemma {:induction false} PaddedValue(n: nat, k: nat)
    requires n < PowerOfTen(k)
    ensures DecimalValue(Padded(n, k)) == n
  {
    if k > 0 {
      var w := Padded(n, k);
      LastDigit(n, PowerOfTen(k - 1));
      assert w[..k - 1] == Padded(n / 10, k - 1) && w[k - 1] == DigitChar(n % 10);
      PaddedValue(n / 10, k - 1);
    }
  }

  /** Whole part and fraction of m / p. */
  lemma QuotientParts(f: real, m: nat, p: int) returns (a: nat, b: nat)
    requires p > 0 && f * p as real == m as real
    ensures b < p && f == a as real + b as real / p as real
  {
    a, b := m / p, m % p;
    assert m == a * p + b;
  }

  /** Whole part and k > 0 decimal places, as text. */
  lemma {:induction false} DecimalParts(a: nat, b: nat, k: nat) returns (whole: string, fraction: string)
    requires 0 < k && b < PowerOfTen(k)
    ensures IsNumeral(whole) && IsNumeral(fraction)
    ensures FloatValue(whole, fraction) == a as real + b as real / PowerOfTen(k) as real
  {
    whole, fraction := DecimalText(a), Padded(b, k);
    DecimalRoundTrip(a);
    PaddedValue(b, k);
  }

  /** One place more makes room for a digit after the point. */
  lemma OnePlaceMore(f: real, n: nat) returns (a: nat, b: nat)
    requires f >= 0.0 && HasPlaces(f, n)
    ensures b < PowerOfTen(n + 1) && f == a as real + b as real / PowerOfTen(n + 1) as real
  {
    var i := Shifted(f, n).Floor;
    a, b := QuotientParts(f, 10 * i, 10 * PowerOfTen(n));
  }

  lemma {:induction false} FloatSpells(f: real)
    requires DecimalFraction(f)
    ensures Printable(FloatLiteral(f))
  {
    var n: nat :| HasPlaces(f, n);
    var a, b := OnePlaceMore(f, n);
    var whole, fraction := DecimalParts(a, b, n + 1);
    assert Spells(whole + "." + fraction, FloatLiteral(f));
  }

  // ----- Strings and keywords -----

  lemma StringSpells(s: string)
    requires '\'' !in s || '\"' !in s
    ensures Printable(StringLiteral(s))
  {
    var q := if '\'' !in s then '\'' else '\"';
    assert IsQuote(q) && q !in s;
    assert Spells([q] + s + [q], StringLiteral(s));
  }

  lemma KeywordSpells(t: Token)
    requires KeywordText(t).Some?
    ensures Printable(t)
  {
    KeywordLetters(t);
    UpperStays(KeywordText(t).value);
    AnyCaseSpells(KeywordText(t).value, t);
  }

  lemma UpperStays(u: string)
    requires forall c :: c in u ==> IsUpperWordChar(c)
    ensures Upper(u) == u
  {
    forall i | 0 <= i < |u| ensures Upper(u)[i] == u[i] {
      assert u[i] in u;
    }
  }

  ghost predicate AllPrintable(ts: seq<Token>) {
    forall t :: t in ts ==> Printable(t)
  }

  lemma {:induction false} SpelledPieces(ps: seq<Piece>, last: Tail)
    requires WellSpaced(ps, last)
    ensures AllPrintable(TokensOf(ps))
  {
    if ps != [] {
      SpelledPieces(ps[1..], last);
    }
  }

  /** Whatever the tokenizer returns can be printed. */
  lemma TokensRead(cs: string)
    requires Tokenize(cs).Ok?
    ensures AllPrintable(Tokenize(cs).value)
  {
    var ps, last := TextIsRendering(cs);
    SpelledPieces(ps, last);
  }

  // ----- A canonical text for any printable tokens -----

  /** A string has its closing quote. */
  predicate IsClosed(w: string, t: Token) {
    t.StringLiteral? ==> |w| == |t.s| + 2
  }

  lemma {:induction false} ClosedSpelling(t: Token)
    requires Printable(t)
    ensures exists w :: Spells(w, t) && IsClosed(w, t)
  {
    var w :| Spells(w, t);
    if t.StringLiteral? {
      var q :| IsQuote(q) && q !in t.s && (w == [q] + t.s + [q] || w == [q] + t.s);
      var v := [q] + t.s + [q];
      assert Spells(v, t) && IsClosed(v, t);
    } else {
      assert IsClosed(w, t);
    }
  }

  const NOTHING := Tail([], Closed)

  /** One blank before every token. */
  ghost function Canonical(ts: seq<Token>): (ps: seq<Piece>)
    requires AllPrintable(ts)
  {
    if ts == [] then [] else
      assert ts[0] in ts;
      ClosedSpelling(ts[0]);
      var w :| Spells(w, ts[0]) && IsClosed(w, ts[0]);
      [Piece([Blank(' ')], w, ts[0])] + Canonical(ts[1..])
  }

  lemma {:induction false} CanonicalReads(ts: seq<Token>)
    requires AllPrintable(ts)
    ensures WellSpaced(Canonical(ts), NOTHING) && TokensOf(Canonical(ts)) == ts
    ensures var text := Render(Canonical(ts), NOTHING); text == [] || text[0] == ' '
  {
    if ts != [] {
      CanonicalReads(ts[1..]);
      var ps := Canonical(ts);
      assert ps[1..] == Canonical(ts[1..]);
      assert GapsText([Blank(' ')]) == " ";
    }
  }

  // ----- Main results -----

  /** Source round trip: any rendering of a program's printed tokens -- with whatever gaps, cases and spellings --
      parses back to exactly that program. */
  lemma {:induction false} SourceRoundTrip(ss: seq<StStatement>, ps: seq<Piece>, last: Tail)
    requires WellSpaced(ps, last) && TokensOf(ps) == PrintStatements(ss)
    ensures ParseSt(Render(ps, last)) == Ok(ss)
  {
    RenderedReads(ps, last);
    RoundTrip(ss);
  }

  /** Source adequacy: a text parses to a program exactly when it is a well-spaced rendering of tokens that derive it.
      Gaps, spellings and the grammar together are the whole language. */
  lemma {:induction false} SourceAdequate(source: string, ss: seq<StStatement>)
    ensures ParseSt(source) == Ok(ss) <==>
              exists ps, last ::
                WellSpaced(ps, last) && Render(ps, last) == source && DerivesStatements(TokensOf(ps), ss)
  {
    if ParseSt(source) == Ok(ss) {
      var ps, last := TextIsRendering(source);
      ParserAdequate(TokensOf(ps), ss);
    }
    forall ps, last | WellSpaced(ps, last) && Render(ps, last) == source && DerivesStatements(TokensOf(ps), ss)
      ensures ParseSt(source) == Ok(ss)
    {
      RenderedReads(ps, last);
      ParserAdequate(TokensOf(ps), ss);
    }
  }

  lemma {:induction false} LeafMember(t: Token, ts: seq<Token>)
    ensures t in Leaves(ts) <==> t in ts && IsLeaf(t)
  {
    if ts != [] {
      LeafMember(t, ts[1..]);
      assert ts == [ts[0]] + ts[1..];
    }
  }

  /** The printed tokens of a program can be spelled exactly when its leaves can. */
  lemma PrintableByLeaves(ss: seq<StStatement>)
    ensures AllPrintable(PrintStatements(ss)) <==> AllPrintable(ProgramLeaves(ss))
  {
    var ts := PrintStatements(ss);
    StatementsDerive(ss);
    LeavesOfProgram(ts, ss);
    forall t ensures t in ProgramLeaves(ss) <==> t in ts && IsLeaf(t) {
      LeafMember(t, ts);
    }
    forall t | t in ts && !IsLeaf(t) ensures Printable(t) {
      PrintableIff(t);
    }
  }

  /** A program has a source text exactly when each of its identifiers and literals can be spelled; so reformatting
      any text that parses gives a text that parses to the same program. */
  lemma ProgramHasSource(ss: seq<StStatement>)
    ensures (exists source :: ParseSt(source) == Ok(ss)) <==> AllPrintable(ProgramLeaves(ss))
    ensures AllPrintable(ProgramLeaves(ss)) ==>
              AllPrintable(PrintStatements(ss)) && ParseSt(Render(Canonical(PrintStatements(ss)), NOTHING)) == Ok(ss)
  {
    PrintableByLeaves(ss);
    if AllPrintable(ProgramLeaves(ss)) {
      CanonicalReads(PrintStatements(ss));
      SourceRoundTrip(ss, Canonical(PrintStatements(ss)), NOTHING);
    }
    forall source | ParseSt(source) == Ok(ss) ensures AllPrintable(ProgramLeaves(ss)) {
      var ts := Tokenize(source).value;
      TokensRead(source);
      ParsingConservesLeaves(ts, ss);
      forall t | t in ProgramLeaves(ss) ensures Printable(t) {
        LeafMember(t, ts);
      }
    }
  }
}
