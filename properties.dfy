/** Properties of the lexer that relate several scanner runs or driver calls,
    and sample inputs with the classification the scanners give them. */
module LexerProperties {
  import opened Chars
  import opened Cursor
  import opened Tokens
  import opened Scanning

  // ------------------------------------------------------------- the driver

  /** End consumes nothing, so every later call reports End again at the same place. */
  lemma EndIsSticky(text: seq<byte>, p: nat, keywords: Option<set<seq<byte>>>)
    requires p <= |text| && CanScan(text, p)
    requires NextSpec(text, p, keywords).result.Produced?
    requires NextSpec(text, p, keywords).result.token.kind == End
    ensures var n := NextSpec(text, p, keywords);
      n.end == n.mark && CanScan(text, n.end) && NextSpec(text, n.end, keywords) == n
  {
    var n := NextSpec(text, p, keywords);
    assert RunEnd(text, n.end, Blank) == n.end;
  }

  /** The text between two blank runs, glued back together: the first gap,
      then each token's lexeme followed by the gap after it. */
  function Rebuild(gaps: seq<seq<byte>>, tokens: seq<Token>): seq<byte>
    requires |gaps| == |tokens| + 1
    decreases tokens
  {
    if tokens == [] then gaps[0] else gaps[0] + tokens[0].lexeme + Rebuild(gaps[1..], tokens[1..])
  }

  /** One step of Tokenize, unfolded. */
  lemma TokenizeUnfold(text: seq<byte>, p: nat)
    requires p <= |text| && Tokenize(text, p).Lexed?
    ensures CanScan(text, p)
    ensures var n := NextSpec(text, p, None);
      n.result.Produced? &&
      (n.result.token.kind == End ==> Tokenize(text, p) == Lexed([text[p..n.mark]], [], n.mark)) &&
      (n.result.token.kind != End ==>
        Tokenize(text, n.end).Lexed? &&
        Tokenize(text, p) == Lexed([text[p..n.mark]] + Tokenize(text, n.end).gaps,
                                   [n.result.token] + Tokenize(text, n.end).tokens,
                                   Tokenize(text, n.end).endMark))
  {
  }

  /** Tokenizing loses nothing and invents nothing: the skipped blank runs and
      the lexemes of the tokens before End, in order, are exactly the text up
      to the place where End was found, and that place holds the sentinel. */
  lemma {:induction false} TokenizeRoundTrip(text: seq<byte>, p: nat)
    requires p <= |text|
    ensures var l := Tokenize(text, p);
      l.Lexed? ==>
        |l.gaps| == |l.tokens| + 1 && p <= l.endMark <= |text| &&
        Cur(text, l.endMark) == END_OF_FILE &&
        Rebuild(l.gaps, l.tokens) == text[p..l.endMark]
    decreases |text| - p
  {
    if Tokenize(text, p).Lexed? {
      TokenizeUnfold(text, p);
      var n := NextSpec(text, p, None);
      if n.result.token.kind != End {
        TokenizeRoundTrip(text, n.end);
        var rest := Tokenize(text, n.end);
        GlueStep(text, p, n.mark, n.end, rest.endMark, n.result.token, rest.gaps, rest.tokens);
      } else {
        assert Rebuild([text[p..n.mark]], []) == text[p..n.mark];
      }
    }
  }

  lemma GlueStep(text: seq<byte>, p: nat, m: nat, e: nat, f: nat, t: Token,
                 gaps: seq<seq<byte>>, tokens: seq<Token>)
    requires p <= m <= e <= f <= |text| && t.lexeme == text[m..e]
    requires |gaps| == |tokens| + 1 && Rebuild(gaps, tokens) == text[e..f]
    ensures Rebuild([text[p..m]] + gaps, [t] + tokens) == text[p..f]
  {
    var gaps', tokens' := [text[p..m]] + gaps, [t] + tokens;
    assert gaps'[1..] == gaps && tokens'[1..] == tokens;
    assert text[p..f] == text[p..m] + text[m..e] + text[e..f];
  }

  /** Every gap is blanks only. */
  predicate BlankGaps(gaps: seq<seq<byte>>) {
    forall i, j :: 0 <= i < |gaps| && 0 <= j < |gaps[i]| ==> IsBlank(gaps[i][j])
  }

  /** Every token is a real one: not End, and not empty. */
  predicate ProperTokens(tokens: seq<Token>) {
    forall i :: 0 <= i < |tokens| ==> tokens[i].kind != End && tokens[i].lexeme != []
  }

  /** Every gap Tokenize records is blanks only, and every token before End is
      a non-empty lexeme. */
  lemma {:induction false} TokenizePieces(text: seq<byte>, p: nat)
    requires p <= |text|
    ensures var l := Tokenize(text, p);
      l.Lexed? ==> BlankGaps(l.gaps) && ProperTokens(l.tokens)
    decreases |text| - p
  {
    if Tokenize(text, p).Lexed? {
      TokenizeUnfold(text, p);
      var n := NextSpec(text, p, None);
      var g := text[p..n.mark];
      assert forall j :: 0 <= j < |g| ==> IsBlank(g[j]);
      if n.result.token.kind != End {
        TokenizePieces(text, n.end);
        var rest := Tokenize(text, n.end);
        PiecesCons(g, n.result.token, rest.gaps, rest.tokens);
      } else {
        assert BlankGaps([g]);
      }
    }
  }

  lemma PiecesCons(g: seq<byte>, t: Token, gaps: seq<seq<byte>>, tokens: seq<Token>)
    requires forall j :: 0 <= j < |g| ==> IsBlank(g[j])
    requires t.kind != End && t.lexeme != []
    requires BlankGaps(gaps) && ProperTokens(tokens)
    ensures BlankGaps([g] + gaps) && ProperTokens([t] + tokens)
  {
    var gaps', tokens' := [g] + gaps, [t] + tokens;
    forall i, j | 0 <= i < |gaps'| && 0 <= j < |gaps'[i]| ensures IsBlank(gaps'[i][j]) {
      if i > 0 { assert gaps'[i] == gaps[i - 1]; }
    }
    forall i | 0 <= i < |tokens'| ensures tokens'[i].kind != End && tokens'[i].lexeme != [] {
      if i > 0 { assert tokens'[i] == tokens[i - 1]; }
    }
  }

  /** A text of blanks alone yields End straight away, and no other token. */
  lemma BlankTextYieldsOnlyEnd(text: seq<byte>)
    requires forall i :: 0 <= i < |text| ==> IsBlank(text[i])
    ensures Tokenize(text, 0) == Lexed([text], [], |text|)
  {
    var m := RunEnd(text, 0, Blank);
    assert m == |text|;
    assert text[0..m] == text;
  }

  // ------------------------------------------------ identifiers and keywords

  /** A C-style identifier is scanned whole, as an identifier unless the
      keyword set holds it, in which case as a keyword. */
  lemma IdentifierToken(text: seq<byte>, keywords: Option<set<seq<byte>>>)
    requires |text| > 0 && (IsLetter(text[0]) || IsUtf8Header(text[0]))
    requires forall i :: 0 <= i < |text| ==> IsIdentifierChar(text[i])
    ensures CanScan(text, 0)
    ensures NextSpec(text, 0, keywords) ==
      Next(Produced(Token(if keywords.Some? && text in keywords.value then Keyword else Id, text, 1, 1)),
           0, |text|)
  {
    assert RunEnd(text, 0, Blank) == 0;
    assert RunEnd(text, 0, IdentifierChar) == |text|;
    assert text[0..|text|] == text;
  }

  /** Every identifier-shaped word put into the keyword set by loading is
      afterwards scanned as a keyword. */
  lemma LoadedKeywordIsRecognised(wordList: seq<byte>, word: seq<byte>)
    requires |word| > 0 && (IsLetter(word[0]) || IsUtf8Header(word[0]))
    requires forall i :: 0 <= i < |word| ==> IsIdentifierChar(word[i])
    ensures CanScan(word, 0)
    ensures var l := Tokenize(wordList, 0);
      l.Lexed? && word in Lexemes(l.tokens) ==>
        NextSpec(word, 0, Some(Lexemes(l.tokens))).result == Produced(Token(Keyword, word, 1, 1))
  {
    var l := Tokenize(wordList, 0);
    if l.Lexed? {
      IdentifierToken(word, Some(Lexemes(l.tokens)));
    } else {
      IdentifierToken(word, None);
    }
  }

  // ------------------------------------------------- char and string literals

  /** A literal ends one past the first closing quote when no backslash comes
      before it. */
  lemma {:induction false} FirstUnescapedQuoteCloses(text: seq<byte>, p: nat, q: byte, j: nat)
    requires p <= j < |text| && q != END_OF_FILE && text[j] == q
    requires forall i :: p <= i < j ==> text[i] != q && text[i] != BACKSLASH
    ensures QuoteEnd(text, p, q) == Some(j + 1)
    decreases j - p
  {
    if p < j {
      FirstUnescapedQuoteCloses(text, p + 1, q, j);
    }
  }

  /** A quote written as an escape is swallowed with its backslash and does
      not end the literal. */
  lemma EscapedQuoteDoesNotClose(text: seq<byte>, p: nat, q: byte)
    requires p + 1 < |text| && text[p] == BACKSLASH && text[p + 1] == q
    requires q == QUOTE || q == DOUBLE_QUOTE
    ensures QuoteEnd(text, p, q) == QuoteEnd(text, p + 2, q)
  {
  }

  // ---------------------------------------------------------------- numbers

  /** After a leading 0 only octal digits are taken: an 8 or 9 stops the
      number right after the 0. */
  lemma OctalRunStopsAtNonOctalDigit(text: seq<byte>, p: nat)
    requires p + 1 < |text| && text[p] == '0' as int
    requires text[p + 1] == '8' as int || text[p + 1] == '9' as int
    ensures NumberScan(text, p) == Scan(Scanned(IntegerConstant), p + 1)
  {
    assert RunEnd(text, p + 1, OctDigit) == p + 1;
    assert RunEnd(text, p + 1, IntegerSuffix) == p + 1;
  }

  /** An octal escape takes at most three digits. */
  lemma OctalEscapeTakesThreeDigits()
    ensures EscapeEnd(Bytes("\\1234"), 0) == 4
  {
  }

  // ------------------------------------------------ classification examples

  /** The first token of a text alone, as the driver produces it. */
  function First(text: seq<byte>): NextResult
    requires CanScan(text, 0)
  {
    NextSpec(text, 0, None).result
  }

  lemma HexIntegerExample()
    ensures var t := Bytes("0x1A"); CanScan(t, 0) && First(t) == Produced(Token(IntegerConstant, t, 1, 1))
  {
  }

  lemma OctalIntegerExample()
    ensures var t := Bytes("007"); CanScan(t, 0) && First(t) == Produced(Token(IntegerConstant, t, 1, 1))
  {
  }

  lemma OctalStopsBeforeNineExample()
    ensures var t := Bytes("09");
      CanScan(t, 0) && First(t) == Produced(Token(IntegerConstant, t[..1], 1, 1))
  {
    var t := Bytes("09");
    OctalRunStopsAtNonOctalDigit(t, 0);
  }

  /** A digit run followed by `.` and digits is a float. */
  lemma FractionExample()
    ensures var t := Bytes("3.14"); CanScan(t, 0) && First(t) == Produced(Token(FloatingConstant, t, 1, 1))
  {
  }

  /** A digit run followed by a bare `.` is a float. */
  lemma TrailingDotExample()
    ensures var t := Bytes("3."); CanScan(t, 0) && First(t) == Produced(Token(FloatingConstant, t, 1, 1))
  {
  }

  /** A digit run followed by an exponent is a float. */
  lemma ExponentExample()
    ensures var t := Bytes("3e10"); CanScan(t, 0) && First(t) == Produced(Token(FloatingConstant, t, 1, 1))
  {
  }

  /** A literal that starts with `.` is scanned by the float scanner. */
  lemma LeadingDotExample()
    ensures var t := Bytes(".5"); CanScan(t, 0) && First(t) == Produced(Token(FloatingConstant, t, 1, 1))
  {
  }

  lemma SignedNumberExample()
    ensures var t := Bytes("-5"); CanScan(t, 0) && First(t) == Produced(Token(IntegerConstant, t, 1, 1))
  {
  }

  /** A sign not followed by a digit is consumed alone and reported as Begin;
      what follows is scanned by the next call. */
  lemma LoneSignExample()
    ensures var t := Bytes("-x");
      CanScan(t, 0) && NextSpec(t, 0, None) == Next(Produced(Token(Begin, t[..1], 1, 1)), 0, 1) &&
      CanScan(t, 1) && NextSpec(t, 1, None) == Next(Produced(Token(Id, t[1..], 1, 2)), 1, 2)
  {
    var t := Bytes("-x");
    assert RunEnd(t, 1, Blank) == 1;
    assert RunEnd(t, 1, IdentifierChar) == 2;
  }

  lemma StringWithEscapeExample()
    ensures var t := Bytes("\"a\\nb\""); CanScan(t, 0) && First(t) == Produced(Token(StringLiteral, t, 1, 1))
  {
    var t := Bytes("\"a\\nb\"");
    FirstUnescapedQuoteCloses(t, 4, DOUBLE_QUOTE, 5);
  }

  lemma CharLiteralExamples()
    ensures var t := Bytes("'\\''"); CanScan(t, 0) && First(t) == Produced(Token(CharConstant, t, 1, 1))
    ensures var t := Bytes("'\"'"); CanScan(t, 0) && First(t) == Produced(Token(CharConstant, t, 1, 1))
  {
    var t := Bytes("'\\''");
    EscapedQuoteDoesNotClose(t, 1, QUOTE);
    t := Bytes("'\"'");
    FirstUnescapedQuoteCloses(t, 1, QUOTE, 2);
  }

  /** A byte without a scanner stops the run through Fatal; no token comes out. */
  lemma BadCharExample()
    ensures var t := Bytes("$"); CanScan(t, 0) && First(t) == Halted(IllegalChar('$' as int))
  {
  }

  /** The cursor of this model steps one byte at a time: a UTF-8 lead byte
      ends an identifier at the continuation byte after it, which no scanner
      accepts. */
  lemma LeadByteAloneExample()
    ensures var t: seq<byte> := [0xC3, 0xA9];
      CanScan(t, 0) && First(t) == Produced(Token(Id, t[..1], 1, 1)) &&
      Tokenize(t, 0) == Stopped(IllegalChar(0xA9))
  {
  }

  /** Line and column are those of the token's first byte, after the blanks. */
  lemma PositionExample()
    ensures var t := Bytes("\n  x"); CanScan(t, 0) && First(t) == Produced(Token(Id, t[3..], 2, 3))
  {
    var t := Bytes("\n  x");
    assert RunEnd(t, 0, Blank) == 3;
    assert RunEnd(t, 3, IdentifierChar) == 4;
  }
}
