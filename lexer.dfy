/** The lexer of lexer.c: a dispatch table of scanner routines over a shared
    input cursor, a keyword set, and the GetNextToken driver. */
module Lexer {
  import opened Chars
  import opened Cursor
  import opened Tokens
  import opened Scanning

  /** How LexerLoadKeywords ends: with the set loaded, or stopped by Fatal. */
  datatype LoadResult = KeywordsLoaded | LoadAborted(error: FatalError)

  class Lexer {
    var inputs: Inputs
    const scanners: array<Scanner>
    var keywords: Option<set<seq<byte>>>

    /** The cursor is consistent and the table is the one CreateLexer builds. */
    ghost predicate Valid()
      reads this, inputs, scanners
    {
      inputs.Valid() && scanners.Length == 256 &&
      forall i :: 0 <= i < 256 ==> scanners[i] == Dispatch(i)
    }

    /** CreateLexer: fill every entry with the default scanner for its byte,
        then overwrite the entries of `_`, the quotes, `.`, the signs and the
        end-of-file sentinel. */
    constructor (inputs: Inputs)
      requires inputs.Valid()
      ensures Valid() && this.inputs == inputs && keywords == None && fresh(scanners)
    {
      var table := new Scanner[256];
      var i := 0;
      while i < END_OF_FILE
        invariant 0 <= i <= END_OF_FILE
        invariant forall j :: 0 <= j < i ==> table[j] == DefaultScanner(j)
      {
        if IsLetter(i) || IsUtf8Header(i) {
          table[i] := IdentScanner;
        } else if IsDigit(i) {
          table[i] := NumberScanner;
        } else {
          table[i] := BadCharScanner;
        }
        i := i + 1;
      }
      table[UNDERSCORE] := IdentScanner;
      table[QUOTE] := CharScanner;
      table[DOUBLE_QUOTE] := StringScanner;
      table[DOT] := FloatScanner;
      table[MINUS] := MinusScanner;
      table[PLUS] := PlusScanner;
      table[END_OF_FILE] := EofScanner;
      this.inputs := inputs;
      scanners := table;
      keywords := None;
    }

    /** LexerSetInputs. */
    method SetInputs(inputs: Inputs)
      requires Valid() && inputs.Valid()
      modifies this`inputs
      ensures Valid() && this.inputs == inputs && keywords == old(keywords)
    {
      this.inputs := inputs;
    }

    /** Skip tab, space and newline bytes; answer how many were skipped. */
    method EatWhiteSpace() returns (len: nat)
      requires inputs.Valid()
      modifies inputs
      ensures inputs.Valid() && inputs.mark == old(inputs.mark)
      ensures inputs.pos == RunEnd(inputs.text, old(inputs.pos), Blank)
      ensures len == inputs.pos - old(inputs.pos)
    {
      len := 0;
      var c := inputs.Current();
      while c == TAB || c == SPACE || c == NEWLINE
        invariant inputs.Valid() && inputs.mark == old(inputs.mark) && c == Cur(inputs.text, inputs.pos)
        invariant old(inputs.pos) <= inputs.pos && len == inputs.pos - old(inputs.pos)
        invariant RunEnd(inputs.text, inputs.pos, Blank) == RunEnd(inputs.text, old(inputs.pos), Blank)
        decreases |inputs.text| - inputs.pos
      {
        len := len + 1;
        c := inputs.Next();
      }
    }

    /** Consume the escape sequence whose backslash is the current byte and
        return the current byte after it. */
    method EatEscapeSequence() returns (c: byte)
      requires inputs.Valid() && inputs.pos < |inputs.text| && inputs.text[inputs.pos] == BACKSLASH
      requires EscapeWellFormed(inputs.text, inputs.pos)
      modifies inputs
      ensures inputs.Valid() && inputs.mark == old(inputs.mark)
      ensures inputs.pos == EscapeEnd(inputs.text, old(inputs.pos))
      ensures c == Cur(inputs.text, inputs.pos)
    {
      c := inputs.Next();
      if IsSimpleEscape(c) {
        c := inputs.Next();
        return;
      }
      if IsOctDigit(c) {
        c := inputs.Next();
        if IsOctDigit(c) {
          c := inputs.Next();
          if IsOctDigit(c) {
            c := inputs.Next();
          }
        }
        return;
      }
      if c == 'x' as int {
        c := inputs.Next();
        c := inputs.SkipWhile(HexDigit);
      }
    }

    method ScanIdentifier() returns (r: Outcome)
      requires inputs.Valid()
      modifies inputs
      ensures inputs.Valid() && inputs.mark == old(inputs.mark)
      ensures Scan(r, inputs.pos) == IdentifierScan(inputs.text, old(inputs.pos))
    {
      var c := inputs.Current();
      while IsLetterOrDigit(c) || c == UNDERSCORE || IsUtf8Header(c)
        invariant inputs.Valid() && inputs.mark == old(inputs.mark) && c == Cur(inputs.text, inputs.pos)
        invariant old(inputs.pos) <= inputs.pos
        invariant old(inputs.pos) < inputs.pos ==> c != UTF8_ERROR
        invariant RunEnd(inputs.text, inputs.pos, IdentifierChar) ==
                  RunEnd(inputs.text, old(inputs.pos), IdentifierChar)
        decreases |inputs.text| - inputs.pos
      {
        c := inputs.Next();
        if c == UTF8_ERROR {
          return Aborted(UnrecognisedChar);
        }
      }
      return Scanned(Id);
    }

    /** The loop shared by ScanCharLiteral and ScanStringLiteral: step past the
        opening quote, then to the first quote q not swallowed by an escape,
        then one byte past it. */
    method ScanQuoted(q: byte)
      requires inputs.Valid() && q != END_OF_FILE
      requires QuoteEnd(inputs.text, Step(inputs.text, inputs.pos), q).Some?
      modifies inputs
      ensures inputs.Valid() && inputs.mark == old(inputs.mark)
      ensures inputs.pos == QuoteEnd(inputs.text, Step(inputs.text, old(inputs.pos)), q).value
    {
      var c := inputs.Next();
      ghost var goal := QuoteEnd(inputs.text, inputs.pos, q);
      while c != q
        invariant inputs.Valid() && inputs.mark == old(inputs.mark) && c == Cur(inputs.text, inputs.pos)
        invariant QuoteEnd(inputs.text, inputs.pos, q) == goal
        decreases |inputs.text| - inputs.pos
      {
        if c == BACKSLASH {
          c := EatEscapeSequence();
        } else {
          c := inputs.Next();
        }
      }
      c := inputs.Next();
    }

    method ScanCharLiteral() returns (r: Outcome)
      requires inputs.Valid() && Terminates(CharScanner, inputs.text, inputs.pos)
      modifies inputs
      ensures inputs.Valid() && inputs.mark == old(inputs.mark)
      ensures Scan(r, inputs.pos) == ScanBy(CharScanner, inputs.text, old(inputs.pos))
    {
      ScanQuoted(QUOTE);
      return Scanned(CharConstant);
    }

    method ScanStringLiteral() returns (r: Outcome)
      requires inputs.Valid() && Terminates(StringScanner, inputs.text, inputs.pos)
      modifies inputs
      ensures inputs.Valid() && inputs.mark == old(inputs.mark)
      ensures Scan(r, inputs.pos) == ScanBy(StringScanner, inputs.text, old(inputs.pos))
    {
      ScanQuoted(DOUBLE_QUOTE);
      return Scanned(StringLiteral);
    }

    method ScanFloatLiteral() returns (r: Outcome)
      requires inputs.Valid()
      modifies inputs
      ensures inputs.Valid() && inputs.mark == old(inputs.mark)
      ensures Scan(r, inputs.pos) == FloatScan(inputs.text, old(inputs.pos))
    {
      var c := inputs.Current();
      if c == DOT {
        c := inputs.Next();
        c := inputs.SkipWhile(Digit);
      }
      if c == 'e' as int || c == 'E' as int {
        c := inputs.Next();
        if c == PLUS || c == MINUS {
          c := inputs.Next();
        }
        c := inputs.SkipWhile(Digit);
      }
      c := inputs.SkipWhile(FloatSuffix);
      return Scanned(FloatingConstant);
    }

    method ScanNumber() returns (r: Outcome)
      requires inputs.Valid()
      modifies inputs
      ensures inputs.Valid() && inputs.mark == old(inputs.mark)
      ensures Scan(r, inputs.pos) == NumberScan(inputs.text, old(inputs.pos))
    {
      var c := inputs.Current();
      if c == '0' as int {
        c := inputs.Next();
        if c == 'x' as int || c == 'X' as int {
          c := inputs.Next();
          c := inputs.SkipWhile(HexDigit);
        } else {
          c := inputs.SkipWhile(OctDigit);
        }
      } else {
        c := inputs.SkipWhile(Digit);
      }
      if c == DOT || c == 'e' as int || c == 'E' as int {
        r := ScanFloatLiteral();
        return;
      }
      c := inputs.SkipWhile(IntegerSuffix);
      return Scanned(IntegerConstant);
    }

    /** Reports the byte to Fatal, which ends the run before the cursor moves. */
    method ScanBadChar() returns (r: Outcome)
      requires inputs.Valid()
      ensures Scan(r, inputs.pos) == ScanBy(BadCharScanner, inputs.text, inputs.pos)
    {
      var c := inputs.Current();
      return Aborted(IllegalChar(c));
    }

    /** Reports the end of the input without moving the cursor. */
    method ScanEof() returns (r: Outcome)
      requires inputs.Valid()
      ensures Scan(r, inputs.pos) == ScanBy(EofScanner, inputs.text, inputs.pos)
    {
      return Scanned(End);
    }

    method ScanMinus() returns (r: Outcome)
      requires inputs.Valid()
      modifies inputs
      ensures inputs.Valid() && inputs.mark == old(inputs.mark)
      ensures Scan(r, inputs.pos) == SignScan(inputs.text, old(inputs.pos))
    {
      var c := inputs.Next();
      if IsDigit(c) {
        r := ScanNumber();
        return;
      }
      return Scanned(Begin);
    }

    method ScanPlus() returns (r: Outcome)
      requires inputs.Valid()
      modifies inputs
      ensures inputs.Valid() && inputs.mark == old(inputs.mark)
      ensures Scan(r, inputs.pos) == SignScan(inputs.text, old(inputs.pos))
    {
      var c := inputs.Next();
      if IsDigit(c) {
        r := ScanNumber();
        return;
      }
      return Scanned(Begin);
    }

    /** The call through the table entry: run scanner s from the current position. */
    method RunScanner(s: Scanner) returns (r: Outcome)
      requires inputs.Valid() && Terminates(s, inputs.text, inputs.pos)
      modifies inputs
      ensures inputs.Valid() && inputs.mark == old(inputs.mark)
      ensures Scan(r, inputs.pos) == ScanBy(s, inputs.text, old(inputs.pos))
    {
      match s {
        case IdentScanner => r := ScanIdentifier();
        case NumberScanner => r := ScanNumber();
        case FloatScanner => r := ScanFloatLiteral();
        case CharScanner => r := ScanCharLiteral();
        case StringScanner => r := ScanStringLiteral();
        case MinusScanner => r := ScanMinus();
        case PlusScanner => r := ScanPlus();
        case BadCharScanner => r := ScanBadChar();
        case EofScanner => r := ScanEof();
      }
    }

    /** Skip blanks, mark, dispatch on the current byte, cut out the marked
        span as the lexeme and turn identifiers in the keyword set into keywords. */
    method GetNextToken() returns (r: NextResult)
      requires Valid() && CanScan(inputs.text, inputs.pos)
      modifies inputs
      ensures Valid()
      ensures r == NextSpec(inputs.text, old(inputs.pos), keywords).result
      ensures inputs.pos == NextSpec(inputs.text, old(inputs.pos), keywords).end
      ensures inputs.mark == NextSpec(inputs.text, old(inputs.pos), keywords).mark
    {
      inputs.UnMark();
      var _ := EatWhiteSpace();
      inputs.Mark();
      var c := inputs.Current();
      var line, col := inputs.line, inputs.col;

      var outcome := RunScanner(scanners[c]);
      if outcome.Aborted? {
        return Halted(outcome.error);
      }

      var len := inputs.MarkedLen();
      if len < 0 {
        return NoToken;
      }
      var lexeme := inputs.text[inputs.mark..inputs.mark + len];
      var kind := outcome.kind;
      if keywords.Some? && kind == Id && lexeme in keywords.value {
        kind := Keyword;
      }
      return Produced(Token(kind, lexeme, line, col));
    }

    /** LexerLoadKeywords: tokenize a word list with this lexer, put every
        lexeme before End into a fresh keyword set, and reattach the cursor
        that was attached before. */
    method LoadKeywords(wordList: seq<byte>) returns (r: LoadResult)
      requires Valid()
      requires !Tokenize(wordList, 0).Unterminated?
      modifies this
      ensures r.LoadAborted? <==> Tokenize(wordList, 0).Stopped?
      ensures r.LoadAborted? ==> r.error == Tokenize(wordList, 0).error
      ensures r == KeywordsLoaded ==>
        Valid() && inputs == old(inputs) &&
        keywords == Some(Lexemes(Tokenize(wordList, 0).tokens))
    {
      var words := new Inputs(wordList);
      var saved := inputs;
      inputs := words;
      keywords := Some({});
      ghost var whole := Tokenize(wordList, 0);
      while true
        invariant inputs == words && saved == old(inputs) && Valid() && keywords.Some?
        invariant !Tokenize(wordList, words.pos).Unterminated?
        invariant whole.Stopped? ==> Tokenize(wordList, words.pos) == whole
        invariant whole.Lexed? ==>
          Tokenize(wordList, words.pos).Lexed? &&
          Lexemes(whole.tokens) == keywords.value + Lexemes(Tokenize(wordList, words.pos).tokens)
        decreases |wordList| - words.pos
      {
        ghost var p := words.pos;
        LoadStep(wordList, p, keywords.value, whole);
        NextIgnoresKeywords(wordList, p, keywords);
        var tk := GetNextToken();
        if tk.Halted? {
          return LoadAborted(tk.error);
        }
        if tk.token.kind == End {
          break;
        }
        keywords := Some(keywords.value + {tk.token.lexeme});
      }
      inputs := saved;
      return KeywordsLoaded;
    }
  }
}
