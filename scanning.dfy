/** What each scanner routine of lexer.c consumes and how it classifies it,
    stated as functions of the text and the position the scanner starts at.
    The methods of module Lexer are proved to do exactly this. */
module Scanning {
  import opened Chars
  import opened Cursor
  import opened Tokens

  /** The scanner routines the dispatch table can hold. */
  datatype Scanner =
    | IdentScanner
    | NumberScanner
    | FloatScanner
    | CharScanner
    | StringScanner
    | MinusScanner
    | PlusScanner
    | BadCharScanner
    | EofScanner

  /** The result of one scanner run: its outcome and where the cursor stops. */
  datatype Scan = Scan(outcome: Outcome, end: nat)

  // ---------------------------------------------------------------- dispatch

  /** The entry the table-building loop gives each byte below END_OF_FILE. */
  function DefaultScanner(c: byte): Scanner {
    if IsLetter(c) || IsUtf8Header(c) then IdentScanner
    else if IsDigit(c) then NumberScanner
    else BadCharScanner
  }

  /** The table entry of byte c once CreateLexer has run: the loop's default,
      overwritten for `_`, the quotes, `.`, the signs and the sentinel. */
  function Dispatch(c: byte): (s: Scanner)
    ensures s == IdentScanner <==> IsLetter(c) || IsUtf8Header(c)
    ensures s == NumberScanner <==> IsDigit(c)
    ensures s == CharScanner <==> c == QUOTE
    ensures s == StringScanner <==> c == DOUBLE_QUOTE
    ensures s == FloatScanner <==> c == DOT
    ensures s == MinusScanner <==> c == MINUS
    ensures s == PlusScanner <==> c == PLUS
    ensures s == EofScanner <==> c == END_OF_FILE
    ensures s == BadCharScanner <==>
      !(IsLetter(c) || IsUtf8Header(c) || IsDigit(c) || c == QUOTE || c == DOUBLE_QUOTE ||
        c == DOT || c == MINUS || c == PLUS || c == END_OF_FILE)
  {
    if c == END_OF_FILE then EofScanner
    else if c == PLUS then PlusScanner
    else if c == MINUS then MinusScanner
    else if c == DOT then FloatScanner
    else if c == DOUBLE_QUOTE then StringScanner
    else if c == QUOTE then CharScanner
    else if c == UNDERSCORE then IdentScanner
    else DefaultScanner(c)
  }

  // -------------------------------------------------------- escape sequences

  /** The assertion in EatEscapeSequence: `\x` must be followed by a hex digit. */
  predicate EscapeWellFormed(text: seq<byte>, p: nat) {
    Cur(text, p + 1) == 'x' as int ==> IsHexDigit(Cur(text, p + 2))
  }

  /** Where EatEscapeSequence, started on the backslash at p, leaves the cursor. */
  function EscapeEnd(text: seq<byte>, p: nat): (e: nat)
    requires p < |text| && text[p] == BACKSLASH && EscapeWellFormed(text, p)
    ensures p < e <= |text|
    ensures IsSimpleEscape(Cur(text, p + 1)) ==> e == p + 2
    ensures IsOctDigit(Cur(text, p + 1)) ==>
      p + 2 <= e <= p + 4 &&
      (forall i :: p < i < e ==> IsOctDigit(text[i])) &&
      (e < p + 4 ==> !IsOctDigit(Cur(text, e)))
    ensures Cur(text, p + 1) == 'x' as int ==>
      p + 2 < e &&
      (forall i :: p + 2 <= i < e ==> IsHexDigit(text[i])) &&
      !IsHexDigit(Cur(text, e))
    ensures (!IsSimpleEscape(Cur(text, p + 1)) && !IsOctDigit(Cur(text, p + 1)) &&
             Cur(text, p + 1) != 'x' as int) ==> e == p + 1
  {
    var p1 := Step(text, p);
    var c := Cur(text, p1);
    if IsSimpleEscape(c) then Step(text, p1)
    else if IsOctDigit(c) then
      var p2 := Step(text, p1);
      if IsOctDigit(Cur(text, p2)) then
        var p3 := Step(text, p2);
        if IsOctDigit(Cur(text, p3)) then Step(text, p3) else p3
      else p2
    else if c == 'x' as int then RunEnd(text, Step(text, p1), HexDigit)
    else p1
  }

  // ------------------------------------------------- char and string literals

  /** Where the literal loop of ScanCharLiteral/ScanStringLiteral, with the
      cursor at p inside the literal, leaves the cursor: one past the closing
      quote q. None when the loop would never end (the text runs out first)
      or would stop on the assertion of a `\x` escape. */
  function QuoteEnd(text: seq<byte>, p: nat, q: byte): (r: Option<nat>)
    requires p <= |text| && q != END_OF_FILE
    ensures r.Some? ==> p < r.value <= |text| && text[r.value - 1] == q
    ensures r.Some? && (forall i :: p <= i < r.value - 1 ==> text[i] != BACKSLASH) ==>
      forall i :: p <= i < r.value - 1 ==> text[i] != q
    decreases |text| - p
  {
    if p == |text| then None
    else if text[p] == q then Some(p + 1)
    else if text[p] == BACKSLASH then
      if EscapeWellFormed(text, p) then QuoteEnd(text, EscapeEnd(text, p), q) else None
    else QuoteEnd(text, p + 1, q)
  }

  // ---------------------------------------------------------------- numbers

  /** The end of the digit run ScanNumber consumes first. */
  function DigitsEnd(text: seq<byte>, p: nat): (d: nat)
    requires p <= |text|
    ensures p <= d <= |text|
    ensures IsDigit(Cur(text, p)) ==> p < d
    ensures Cur(text, p) == '0' as int && IsHexPrefix(Cur(text, p + 1)) ==>
      p + 2 <= d &&
      (forall i :: p + 2 <= i < d ==> IsHexDigit(text[i])) && !IsHexDigit(Cur(text, d))
    ensures Cur(text, p) == '0' as int && !IsHexPrefix(Cur(text, p + 1)) ==>
      (forall i :: p < i < d ==> IsOctDigit(text[i])) && !IsOctDigit(Cur(text, d))
    ensures Cur(text, p) != '0' as int ==>
      (forall i :: p <= i < d ==> IsDigit(text[i])) && !IsDigit(Cur(text, d))
  {
    if Cur(text, p) == '0' as int then
      var p1 := Step(text, p);
      if IsHexPrefix(Cur(text, p1)) then RunEnd(text, Step(text, p1), HexDigit)
      else RunEnd(text, p1, OctDigit)
    else RunEnd(text, p, Digit)
  }

  /** The end of the fraction part ScanFloatLiteral consumes from p: a `.`
      and the digits after it, or nothing when p is not on a `.`. */
  function FractionEnd(text: seq<byte>, p: nat): (f: nat)
    requires p <= |text|
    ensures p <= f <= |text|
    ensures Cur(text, p) == DOT ==>
      p < f && (forall i :: p < i < f ==> IsDigit(text[i])) && !IsDigit(Cur(text, f))
    ensures Cur(text, p) != DOT ==> f == p
  {
    if Cur(text, p) == DOT then RunEnd(text, Step(text, p), Digit) else p
  }

  /** The end of the exponent part ScanFloatLiteral consumes from p: `e` or
      `E`, an optional sign and the digits after them, or nothing when p is
      not on an exponent marker. */
  function ExponentEnd(text: seq<byte>, p: nat): (x: nat)
    requires p <= |text|
    ensures p <= x <= |text|
    ensures IsExponentMarker(Cur(text, p)) ==>
      var d := if IsSign(Cur(text, p + 1)) then p + 2 else p + 1;
      d <= x && (forall i :: d <= i < x ==> IsDigit(text[i])) && !IsDigit(Cur(text, x))
    ensures !IsExponentMarker(Cur(text, p)) ==> x == p
  {
    if IsExponentMarker(Cur(text, p)) then
      var q := Step(text, p);
      RunEnd(text, if IsSign(Cur(text, q)) then Step(text, q) else q, Digit)
    else p
  }

  /** What ScanFloatLiteral consumes from p: the fraction, the exponent, then
      the maximal run of f/F/l/L suffix letters. */
  function FloatScan(text: seq<byte>, p: nat): (s: Scan)
    requires p <= |text|
    ensures s.outcome == Scanned(FloatingConstant)
    ensures p <= s.end <= |text| && !IsFloatSuffix(Cur(text, s.end))
    ensures StartsFraction(Cur(text, p)) ==> p < s.end
    ensures var x := ExponentEnd(text, FractionEnd(text, p));
      x <= s.end && (forall i :: x <= i < s.end ==> IsFloatSuffix(text[i]))
  {
    var x := ExponentEnd(text, FractionEnd(text, p));
    Scan(Scanned(FloatingConstant), RunEnd(text, x, FloatSuffix))
  }

  /** What ScanNumber consumes from p and how it classifies it. */
  function NumberScan(text: seq<byte>, p: nat): (s: Scan)
    requires p <= |text|
    ensures s.outcome == Scanned(IntegerConstant) || s.outcome == Scanned(FloatingConstant)
    ensures DigitsEnd(text, p) <= s.end <= |text|
    ensures s.outcome == Scanned(FloatingConstant) <==> StartsFraction(Cur(text, DigitsEnd(text, p)))
    ensures s.outcome == Scanned(FloatingConstant) ==> s == FloatScan(text, DigitsEnd(text, p))
    ensures s.outcome == Scanned(IntegerConstant) ==>
      (forall i :: DigitsEnd(text, p) <= i < s.end ==> IsIntegerSuffix(text[i])) &&
      !IsIntegerSuffix(Cur(text, s.end))
  {
    var d := DigitsEnd(text, p);
    if StartsFraction(Cur(text, d)) then FloatScan(text, d)
    else Scan(Scanned(IntegerConstant), RunEnd(text, d, IntegerSuffix))
  }

  /** What ScanMinus and ScanPlus consume from the sign at p. */
  function SignScan(text: seq<byte>, p: nat): (s: Scan)
    requires p <= |text|
    ensures Step(text, p) <= s.end <= |text|
    ensures s.outcome == Scanned(Begin) <==> !IsDigit(Cur(text, Step(text, p)))
    ensures s.outcome == Scanned(Begin) ==> s.end == Step(text, p)
    ensures s.outcome != Scanned(Begin) ==> s == NumberScan(text, Step(text, p))
  {
    var p1 := Step(text, p);
    if IsDigit(Cur(text, p1)) then NumberScan(text, p1) else Scan(Scanned(Begin), p1)
  }

  // ------------------------------------------------------------ identifiers

  /** What ScanIdentifier consumes from p, and whether it stops on Fatal. */
  function IdentifierScan(text: seq<byte>, p: nat): (s: Scan)
    requires p <= |text|
    ensures p <= s.end <= |text|
    ensures forall i :: p <= i < s.end ==> IsIdentifierChar(text[i])
    ensures !IsIdentifierChar(Cur(text, s.end))
    ensures s.outcome == Aborted(UnrecognisedChar) <==> p < s.end && Cur(text, s.end) == UTF8_ERROR
    ensures s.outcome != Aborted(UnrecognisedChar) ==> s.outcome == Scanned(Id)
  {
    var e := RunEnd(text, p, IdentifierChar);
    if p < e && Cur(text, e) == UTF8_ERROR then Scan(Aborted(UnrecognisedChar), e)
    else Scan(Scanned(Id), e)
  }

  // ------------------------------------------------------------- dispatching

  /** The scanners that need the text to cooperate in order to finish. */
  predicate Terminates(s: Scanner, text: seq<byte>, p: nat)
    requires p <= |text|
  {
    match s
    case CharScanner => QuoteEnd(text, Step(text, p), QUOTE).Some?
    case StringScanner => QuoteEnd(text, Step(text, p), DOUBLE_QUOTE).Some?
    case _ => true
  }

  /** What scanner s does when started at p. */
  function ScanBy(s: Scanner, text: seq<byte>, p: nat): (r: Scan)
    requires p <= |text| && Terminates(s, text, p)
    ensures p <= r.end <= |text|
    ensures r.outcome == Scanned(End) <==> s == EofScanner
    ensures s == EofScanner ==> r.end == p
    ensures r.outcome.Aborted? ==> s == BadCharScanner || s == IdentScanner
    ensures s == Dispatch(Cur(text, p)) && s != EofScanner && r.outcome.Scanned? ==> p < r.end
  {
    match s
    case IdentScanner => IdentifierScan(text, p)
    case NumberScanner => NumberScan(text, p)
    case FloatScanner => FloatScan(text, p)
    case CharScanner => Scan(Scanned(CharConstant), QuoteEnd(text, Step(text, p), QUOTE).value)
    case StringScanner => Scan(Scanned(StringLiteral), QuoteEnd(text, Step(text, p), DOUBLE_QUOTE).value)
    case MinusScanner => SignScan(text, p)
    case PlusScanner => SignScan(text, p)
    case BadCharScanner => Scan(Aborted(IllegalChar(Cur(text, p))), p)
    case EofScanner => Scan(Scanned(End), p)
  }

  // --------------------------------------------------------------- the driver

  /** The kind GetNextToken reports: an identifier found in the keyword set
      becomes a keyword, everything else keeps the scanner's kind. */
  function Reclassify(kind: Kind, lexeme: seq<byte>, keywords: Option<set<seq<byte>>>): Kind {
    if kind == Id && keywords.Some? && lexeme in keywords.value then Keyword else kind
  }

  /** GetNextToken can run to completion from p: the scanner it dispatches to after
      skipping blanks finishes. */
  predicate CanScan(text: seq<byte>, p: nat)
    requires p <= |text|
  {
    var m := RunEnd(text, p, Blank);
    Terminates(Dispatch(Cur(text, m)), text, m)
  }

  /** One call of GetNextToken: its result, the mark it set and where the cursor ends. */
  datatype Next = Next(result: NextResult, mark: nat, end: nat)

  function NextSpec(text: seq<byte>, p: nat, keywords: Option<set<seq<byte>>>): (n: Next)
    requires p <= |text| && CanScan(text, p)
    ensures !n.result.NoToken?
    ensures p <= n.mark <= n.end <= |text|
    ensures forall i :: p <= i < n.mark ==> IsBlank(text[i])
    ensures !IsBlank(Cur(text, n.mark))
    ensures n.result.Halted? ==>
      n.result.error == (if Dispatch(Cur(text, n.mark)) == BadCharScanner
                         then IllegalChar(Cur(text, n.mark)) else UnrecognisedChar)
    ensures n.result.Produced? ==>
      n.result.token.lexeme == text[n.mark..n.end] &&
      n.result.token.line == LineOf(text, n.mark) && n.result.token.col == ColOf(text, n.mark)
    ensures n.result.Produced? ==>
      (n.result.token.kind == End <==> Cur(text, n.mark) == END_OF_FILE)
    ensures n.result.Produced? && n.result.token.kind != End ==> n.mark < n.end
    ensures n.result.Produced? && n.result.token.kind == End ==> n.end == n.mark
    ensures n.end == ScanBy(Dispatch(Cur(text, n.mark)), text, n.mark).end
    ensures n.result.Halted? <==> ScanBy(Dispatch(Cur(text, n.mark)), text, n.mark).outcome.Aborted?
    ensures n.result.Produced? && n.result.token.kind != Keyword ==>
      ScanBy(Dispatch(Cur(text, n.mark)), text, n.mark).outcome == Scanned(n.result.token.kind)
    ensures n.result.Produced? ==>
      (n.result.token.kind == Keyword <==>
        ScanBy(Dispatch(Cur(text, n.mark)), text, n.mark).outcome == Scanned(Id) &&
        keywords.Some? && n.result.token.lexeme in keywords.value)
  {
    var m := RunEnd(text, p, Blank);
    var s := ScanBy(Dispatch(Cur(text, m)), text, m);
    var result :=
      match s.outcome
      case Aborted(error) => Halted(error)
      case Scanned(kind) =>
        var lexeme := text[m..s.end];
        Produced(Token(Reclassify(kind, lexeme, keywords), lexeme, LineOf(text, m), ColOf(text, m)));
    Next(result, m, s.end)
  }

  // ---------------------------------------------------- repeated driver calls

  /** The outcome of calling GetNextToken from p until it yields End: the blank
      runs it skipped (one more than the tokens), the tokens before End and the
      position where End was found; or the fatal error that stopped it; or
      Unterminated when some call would not finish. */
  datatype Lexing =
    | Lexed(gaps: seq<seq<byte>>, tokens: seq<Token>, endMark: nat)
    | Stopped(error: FatalError)
    | Unterminated

  function Tokenize(text: seq<byte>, p: nat): (l: Lexing)
    requires p <= |text|
    ensures l.Lexed? ==>
      |l.gaps| == |l.tokens| + 1 && p <= l.endMark <= |text| && Cur(text, l.endMark) == END_OF_FILE
    decreases |text| - p
  {
    if !CanScan(text, p) then Unterminated
    else
      var n := NextSpec(text, p, None);
      if n.result.Halted? then Stopped(n.result.error)
      else if n.result.token.kind == End then Lexed([text[p..n.mark]], [], n.mark)
      else
        match Tokenize(text, n.end)
        case Lexed(gaps, tokens, e) => Lexed([text[p..n.mark]] + gaps, [n.result.token] + tokens, e)
        case other => other
  }

  /** The set of lexemes of a token sequence. */
  function Lexemes(tokens: seq<Token>): set<seq<byte>> {
    set i | 0 <= i < |tokens| :: tokens[i].lexeme
  }

  /** The keyword set changes only the kind of a token, never where the
      driver stops, what it cuts out, or whether the token is End. */
  lemma NextIgnoresKeywords(text: seq<byte>, p: nat, keywords: Option<set<seq<byte>>>)
    requires p <= |text| && CanScan(text, p)
    ensures var n, n' := NextSpec(text, p, keywords), NextSpec(text, p, None);
      n.mark == n'.mark && n.end == n'.end &&
      n.result.Halted? == n'.result.Halted? &&
      (n.result.Halted? ==> n.result.error == n'.result.error) &&
      (n.result.Produced? ==>
        n.result.token.lexeme == n'.result.token.lexeme &&
        (n.result.token.kind == End <==> n'.result.token.kind == End))
  {
  }

  lemma LexemesCons(t: Token, tokens: seq<Token>)
    ensures Lexemes([t] + tokens) == {t.lexeme} + Lexemes(tokens)
  {
    var all := [t] + tokens;
    forall x | x in Lexemes(all) ensures x in {t.lexeme} + Lexemes(tokens) {
      var i :| 0 <= i < |all| && all[i].lexeme == x;
      if i > 0 { assert tokens[i - 1].lexeme == x; }
    }
    forall x | x in Lexemes(tokens) ensures x in Lexemes(all) {
      var i :| 0 <= i < |tokens| && tokens[i].lexeme == x;
      assert all[i + 1].lexeme == x;
    }
    assert all[0].lexeme == t.lexeme;
  }

  /** One iteration of the keyword-loading loop, on the specification side:
      what the next driver call tells about the whole word list, given what
      has been collected so far. */
  lemma LoadStep(text: seq<byte>, p: nat, found: set<seq<byte>>, whole: Lexing)
    requires p <= |text| && !whole.Unterminated? && !Tokenize(text, p).Unterminated?
    requires whole.Stopped? ==> Tokenize(text, p) == whole
    requires whole.Lexed? ==>
      Tokenize(text, p).Lexed? && Lexemes(whole.tokens) == found + Lexemes(Tokenize(text, p).tokens)
    ensures CanScan(text, p)
    ensures var n := NextSpec(text, p, None);
      (n.result.Halted? ==> whole == Stopped(n.result.error)) &&
      (n.result.Produced? && n.result.token.kind == End ==>
        whole.Lexed? && Lexemes(whole.tokens) == found) &&
      (n.result.Produced? && n.result.token.kind != End ==>
        !Tokenize(text, n.end).Unterminated? &&
        (whole.Stopped? ==> Tokenize(text, n.end) == whole) &&
        (whole.Lexed? ==>
          Tokenize(text, n.end).Lexed? &&
          Lexemes(whole.tokens) == found + {n.result.token.lexeme} + Lexemes(Tokenize(text, n.end).tokens)))
  {
    var n := NextSpec(text, p, None);
    if n.result.Produced? && n.result.token.kind != End && whole.Lexed? {
      LexemesCons(n.result.token, Tokenize(text, n.end).tokens);
    }
  }
}
