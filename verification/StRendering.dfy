/** Every text the tokenizer accepts is a rendering of the tokens it returns: gaps, spellings and separation describe
    the language of the tokenizer completely. */
module StRendering {
  import opened Machine
  import opened StTokens
  import opened StLexer
  import opened StLexing

  // ----- Gaps -----

  /** The inside of a block comment, and whether it is closed. */
  lemma {:induction false} BlockBody(cs: string) returns (body: string, closed: bool)
    ensures IsGap(BlockComment(body))
    ensures if closed then cs == body + ("*)" + AfterBlock(cs)) else cs == body && AfterBlock(cs) == ""
  {
    if cs == [] {
      body, closed := [], false;
    } else if Begins('*', ')', cs) {
      body, closed := [], true;
    } else {
      body, closed := BlockBody(cs[1..]);
      body := [cs[0]] + body;
      forall i | 0 <= i < |body| - 1 ensures !ClosesComment(body, i) {
        assert body[i] == cs[i] && body[i + 1] == cs[i + 1];
        if i > 0 {
          assert !ClosesComment(body[1..], i - 1);
        }
      }
    }
  }

  lemma GapFirst(g: Gap, gs: seq<Gap>, end: string)
    requires IsGap(g) && AreGaps(gs)
    ensures AreGaps([g] + gs) && GapsText([g] + gs) + end == GapText(g) + (GapsText(gs) + end)
  {
    assert ([g] + gs)[1..] == gs;
  }

  /** Whatever is skipped is gaps, and perhaps a comment that the text cuts off. */
  lemma {:induction false} SkippedIsGaps(cs: string) returns (gs: seq<Gap>, e: Ending)
    ensures AreGaps(gs) && IsEnding(e) && (e.Closed? || Skip(cs) == "")
    ensures cs == GapsText(gs) + (EndingText(e) + Skip(cs))
    decreases |cs|
  {
    gs, e := [], Closed;
    if cs == [] {
    } else if IsSpace(cs[0]) {
      gs, e := SkippedIsGaps(cs[1..]);
      GapFirst(Blank(cs[0]), gs, EndingText(e) + Skip(cs));
      gs := [Blank(cs[0])] + gs;
    } else if Begins('/', '/', cs) {
      var n := Span(Other('\n'), cs);
      SpanSpec(Other('\n'), cs);
      LineBody(cs, n);
      if n == |cs| {
        e := OpenLine(cs[2..]);
        assert Skip(cs[n..]) == "";
      } else {
        gs, e := SkippedIsGaps(cs[n + 1..]);
        assert cs[n..][1..] == cs[n + 1..];
        GapFirst(LineComment(cs[2..n]), gs, EndingText(e) + Skip(cs));
        gs := [LineComment(cs[2..n])] + gs;
      }
    } else if Begins('(', '*', cs) {
      var body, closed := BlockBody(cs[2..]);
      if closed {
        var rest := AfterBlock(cs[2..]);
        assert cs == "(*" + cs[2..];
        assert cs == GapText(BlockComment(body)) + rest;
        gs, e := SkippedIsGaps(rest);
        GapFirst(BlockComment(body), gs, EndingText(e) + Skip(cs));
        gs := [BlockComment(body)] + gs;
      } else {
        e := OpenBlock(body);
        assert cs == "(*" + body;
      }
    }
  }

  lemma LineBody(cs: string, n: nat)
    requires Begins('/', '/', cs) && n == Span(Other('\n'), cs)
    ensures 2 <= n && IsGap(LineComment(cs[2..n]))
    ensures n == |cs| ==> cs == "//" + cs[2..]
    ensures n < |cs| ==> cs == GapText(LineComment(cs[2..n])) + cs[n + 1..]
  {
    SpanSpec(Other('\n'), cs);
    assert forall i :: 2 <= i < n ==> cs[i] != '\n';
    CutLine(cs, n);
  }

  lemma CutLine(cs: string, n: nat)
    requires Begins('/', '/', cs) && 2 <= n <= |cs| && (n < |cs| ==> cs[n] == '\n')
    ensures cs == "//" + cs[2..]
    ensures n < |cs| ==> cs == ("//" + cs[2..n] + "\n") + cs[n + 1..]
  {
  }

  // ----- Tokens -----

  /** The first token of cs is spelled by the characters it takes, and what follows does not run on. */
  ghost predicate Written(cs: string)
    requires cs != [] && TokenAt(cs).Ok?
  {
    var l := TokenAt(cs).value;
    Spells(cs[..l.length], l.token) && Separated(cs[..l.length], l.token, cs[l.length..])
  }

  lemma WordWritten(cs: string)
    requires cs != [] && SymbolAt(cs).None? && StartsWord(cs[0])
    ensures Written(cs)
  {
    var n := Span(InWord, cs);
    var w := cs[..n];
    SpanSpec(InWord, cs);
    assert IsWord(w);
    assert cs[n..] != [] ==> cs[n..][0] == cs[n];
    var keyword := KeywordOf(Upper(w));
    if keyword.Some? {
      KeywordTable(keyword.value, Upper(w));
    }
  }

  lemma IntWritten(cs: string)
    requires cs != [] && IsDigit(cs[0]) && TokenAt(cs).Ok? && !NumberSpan(cs).1
    ensures Written(cs)
  {
    var n := Span(IsDigit, cs);
    SpanSpec(IsDigit, cs);
    var rest := cs[n..];
    assert Digits(cs) == cs[..n] && IsNumeral(cs[..n]);
    assert rest != [] ==> rest[0] == cs[n];
    assert |rest| > 1 ==> rest[1..][0] == cs[n + 1];
  }

  /** Where the parts of a float stand. */
  lemma FloatParts(cs: string) returns (whole: string, fraction: string, rest: string)
    requires cs != [] && IsDigit(cs[0]) && NumberSpan(cs).1
    ensures IsNumeral(whole) && IsNumeral(fraction) && !NextDigit(rest)
    ensures cs == (whole + "." + fraction) + rest
  {
    var n := Span(IsDigit, cs);
    var after := cs[n + 1..];
    var m := Span(IsDigit, after);
    SpanSpec(IsDigit, cs);
    SpanSpec(IsDigit, after);
    whole, fraction, rest := cs[..n], after[..m], after[m..];
    assert after[0] == cs[n + 1];
    assert rest != [] ==> rest[0] == after[m];
  }

  lemma FloatWritten(cs: string)
    requires cs != [] && IsDigit(cs[0]) && NumberSpan(cs).1
    ensures Written(cs)
  {
    var whole, fraction, rest := FloatParts(cs);
    var w := whole + "." + fraction;
    FloatReads(whole, fraction, rest);
    assert cs[..|w|] == w && cs[|w|..] == rest;
  }

  lemma StringWritten(cs: string)
    requires cs != [] && IsQuote(cs[0])
    ensures Written(cs)
  {
    var q, inner := cs[0], cs[1..];
    var n := Span(Other(q), inner);
    SpanSpec(Other(q), inner);
    var s := inner[..n];
    assert q !in s;
    if n < |inner| {
      assert cs[..n + 2] == [q] + s + [q];
    } else {
      assert cs[..n + 1] == [q] + s;
    }
  }

  lemma TokenWritten(cs: string)
    requires cs != [] && TokenAt(cs).Ok? && !Begins('/', '/', cs) && !Begins('(', '*', cs)
    ensures Written(cs)
  {
    if SymbolAt(cs).Some? {
    } else if IsQuote(cs[0]) {
      StringWritten(cs);
    } else if IsDigit(cs[0]) {
      if NumberSpan(cs).1 {
        FloatWritten(cs);
      } else {
        IntWritten(cs);
      }
    } else {
      WordWritten(cs);
    }
  }

  // ----- Whole texts -----

  /** A text with nothing but gaps, and one with a token after its gaps. */
  lemma NothingLeft(cs: string) returns (t: Tail)
    requires Skip(cs) == ""
    ensures IsTail(t) && TailText(t) == cs
  {
    var gs, e := SkippedIsGaps(cs);
    t := Tail(gs, e);
    assert EndingText(e) + "" == EndingText(e);
  }

  lemma SomethingLeft(cs: string) returns (gs: seq<Gap>)
    requires Skip(cs) != ""
    ensures AreGaps(gs) && GapsText(gs) + Skip(cs) == cs
  {
    var e;
    gs, e := SkippedIsGaps(cs);
    assert EndingText(e) + Skip(cs) == Skip(cs);
  }

  lemma FirstPiece(text: string, gs: seq<Gap>) returns (p: Piece, rest: string)
    requires text != [] && TokenAt(text).Ok? && !Begins('/', '/', text) && !Begins('(', '*', text)
    ensures p.gaps == gs && text == p.text + rest
    ensures var l := TokenAt(text).value; p.token == l.token && rest == text[l.length..]
    ensures Spells(p.text, p.token) && Separated(p.text, p.token, rest)
  {
    var l := TokenAt(text).value;
    TokenWritten(text);
    p, rest := Piece(gs, text[..l.length], l.token), text[l.length..];
  }

  lemma {:induction false} TextIsRendering(cs: string) returns (ps: seq<Piece>, last: Tail)
    requires Tokenize(cs).Ok?
    ensures WellSpaced(ps, last) && Render(ps, last) == cs && TokensOf(ps) == Tokenize(cs).value
    decreases |cs|
  {
    var text := Skip(cs);
    if text == [] {
      ps := [];
      last := NothingLeft(cs);
    } else {
      var gs := SomethingLeft(cs);
      var p, rest := FirstPiece(text, gs);
      ps, last := TextIsRendering(rest);
      ps := [p] + ps;
    }
  }

  /** The tokenizer returns ts exactly for the well-spaced renderings of ts. */
  lemma {:induction false} TokenizerAdequate(cs: string, ts: seq<Token>)
    ensures Tokenize(cs) == Ok(ts) <==>
              exists ps, last :: WellSpaced(ps, last) && Render(ps, last) == cs && TokensOf(ps) == ts
  {
    if Tokenize(cs) == Ok(ts) {
      var ps, last := TextIsRendering(cs);
    }
    forall ps, last | WellSpaced(ps, last) && Render(ps, last) == cs && TokensOf(ps) == ts
      ensures Tokenize(cs) == Ok(ts)
    {
      RenderedReads(ps, last);
    }
  }
}
