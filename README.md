# A verified model of the gyc lexer

This project models the lexer of the gyc compiler front end (`gyc/src/lexer.c`):
- a table of 256 scanner routines, keyed by the first byte of a token;
- the scanner routines themselves: white space, escape sequences, identifiers,
  char and string literals, integer and floating constants, signs, bad
  characters and end of file;
- the `GetNextToken` driver, which skips blanks, marks the token start,
  dispatches, cuts out the marked bytes as the lexeme and turns identifiers
  found in the keyword set into keywords;
- `LexerLoadKeywords`, which runs the same driver over a word list to fill
  the keyword set.

Layout:
- `chars.dfy` (module `Chars`): the byte-class macros as predicates, and the
  two reserved cursor values.
- `cursor.dfy` (module `Cursor`): the input cursor the lexer consumes (class
  `Inputs`) and `RunEnd`, the maximal run of one byte class.
- `tokens.dfy` (module `Tokens`): token kinds, tokens, fatal errors.
- `scanning.dfy` (module `Scanning`): one pure function per scanner. Each says
  where the scanner leaves the cursor and how it classifies the token. It also
  holds `Dispatch` (the table), `NextSpec` (one driver call) and `Tokenize`
  (driver calls until End).
- `lexer.dfy` (module `Lexer`): class `Lexer`, with the cursor, the table as
  an `array` and the keyword set as fields. Every scanner is a method that
  moves the shared cursor. Each method is proved to end exactly where the
  matching function of `Scanning` says.
- `properties.dfy` (module `LexerProperties`): lemmas that relate several
  calls, and sample inputs with the classification the scanners give them.

Representation choices:
- A byte is an `int` from 0 to 255.
- `END_OF_FILE` is 0xFF. The table loop in `CreateLexer` counts a `uint8`
  up to the sentinel, so the sentinel must be at most 255. The table keeps
  exactly 256 entries, and 0xFF never occurs in UTF-8.
- The cursor's decode-error value (`InputUtf8_Error`) is 0xFE.
- The cursor yields `END_OF_FILE` for ever once the text is used up.
- Line and column are 1-based. A newline starts a new line at column 1.
- `Fatal` ends the process. Here a scanner returns `Aborted(...)` instead,
  and `GetNextToken` returns `Halted(...)`.

Two details of the code a reader may not expect, which the model keeps:
- `ScanMinus` and `ScanPlus` always consume the sign, even when no digit
  follows and they return `Begin`.
- After `\` and a byte that starts no known escape, `EatEscapeSequence`
  consumes only the backslash. It leaves that byte as the current byte for
  the literal loop to examine.

`GetNextToken`'s branch for a negative marked length is modelled. The
driver marks just before it scans, so that branch is never taken: the
contract of `Lexer.Lexer.GetNextToken` shows that `NoToken` never comes back.

## Model

| member | source | states |
|---|---|---|
| `Chars.IsDigit` | gyc/src/lexer.c:9 | The bytes `0` to `9`. |
| `Chars.IsOctDigit` | gyc/src/lexer.c:10 | The bytes `0` to `7`. |
| `Chars.IsHexDigit` | gyc/src/lexer.c:11 | Digits, `A` to `F` and `a` to `f`. |
| `Chars.IsLetter` | gyc/src/lexer.c:12 | `a` to `z`, `A` to `Z` and `_`. |
| `Chars.IsUtf8Header` | gyc/src/lexer.c:13 | A lead byte of the two- to six-byte UTF-8 forms. |
| `Chars.IsLetterOrDigit` | gyc/src/lexer.c:14 | A letter or a digit. |
| `Chars.ClassRelations` | gyc/src/lexer.c:9-14 | Octal digits are digits, and digits are hex digits and not letters. Identifier bytes are exactly letters, digits and lead bytes. The lead bytes are exactly 0xC0 to 0xFD, none of them ASCII, blank or a reserved cursor value. |
| `Scanning.DefaultScanner` | gyc/src/lexer.c:193-198 | The entry the filling loop gives a byte: the identifier scanner for letters and lead bytes, the number scanner for digits, the bad-character scanner for the rest. |
| `Scanning.Dispatch` | gyc/src/lexer.c:191-206 | After the table is built, each byte has exactly one scanner. Letters, `_` and UTF-8 lead bytes get the identifier scanner. Digits get the number scanner. `'` gets the char scanner and `"` the string scanner. `.` gets the float scanner and `-`/`+` the sign scanners. The sentinel gets the end-of-file scanner. Every other byte gets the bad-character scanner. Each case is an if-and-only-if. |
| `Lexer.Lexer.constructor` | gyc/src/lexer.c:187-209 | The default-filling loop plus the seven overrides produce exactly the `Dispatch` table in all 256 entries. The keyword set starts absent. |
| `Lexer.Lexer.SetInputs` | gyc/src/lexer.c:237-239 | Attaches another cursor and leaves the keyword set and the table as they were. |
| `Cursor.RunEnd` | gyc/src/lexer.c:23-26 | Returns the end of the maximal run of one byte class: every byte before it is in the class, and the byte at it is not. |
| `Cursor.Inputs.SkipWhile` | gyc/src/lexer.c:139-147 | The `while (IsX(c)) c = InputsNextChar(...)` loops move the cursor exactly to `RunEnd` and return the byte there. |
| `Lexer.Lexer.EatWhiteSpace` | gyc/src/lexer.c:20-28 | Skips exactly the maximal run of tab, space and newline bytes, and returns how many bytes it skipped. |
| `Scanning.EscapeWellFormed` | gyc/src/lexer.c:61-63 | The assertion's condition: after `\x`, the next byte is a hex digit. |
| `Scanning.EscapeEnd` | gyc/src/lexer.c:30-68 | Starting on a `\`: after one of the eleven simple escapes it consumes `\` plus that letter. For an octal escape it consumes `\` plus 1 to 3 octal digits and stops early only at a non-octal byte. For `\x` it consumes `\x` plus a non-empty maximal hex run. For any other byte it consumes only the `\`. |
| `Lexer.Lexer.EatEscapeSequence` | gyc/src/lexer.c:30-69 | Moves the cursor to `EscapeEnd` and returns the new current byte. A hex digit after `\x` is required, as the assertion at line 63 demands. |
| `Scanning.QuoteEnd` | gyc/src/lexer.c:84-89 | A literal body that terminates ends one byte past a closing quote. If no backslash comes before that quote, no earlier byte is the quote. |
| `Lexer.Lexer.ScanQuoted` | gyc/src/lexer.c:81-107 | The literal loop shared by both quote scanners: step past the opening quote, run to `QuoteEnd`, and stop one past the closing quote. A closing quote is required, since the loop has no end-of-file check. |
| `Lexer.Lexer.ScanCharLiteral` | gyc/src/lexer.c:81-93 | Consumes the whole char literal up to its first unescaped `'` and returns CharConstant. |
| `Lexer.Lexer.ScanStringLiteral` | gyc/src/lexer.c:95-107 | Consumes the whole string literal up to its first unescaped `"` and returns StringLiteral. |
| `Scanning.FractionEnd` | gyc/src/lexer.c:112-116 | On a `.`, consumes it and the maximal digit run after it. On any other byte, consumes nothing. |
| `Scanning.ExponentEnd` | gyc/src/lexer.c:118-124 | On `e` or `E`, consumes it, then one `+` or `-` if present, then the maximal digit run. On any other byte, consumes nothing. |
| `Scanning.FloatScan` | gyc/src/lexer.c:109-130 | Always gives FloatingConstant. After the fraction (`FractionEnd`) and the exponent (`ExponentEnd`), it consumes the maximal f/F/l/L run and nothing else. It consumes at least one byte when it starts on `.`, `e` or `E`. |
| `Lexer.Lexer.ScanFloatLiteral` | gyc/src/lexer.c:109-130 | Moves the cursor and classifies exactly as `FloatScan` says. |
| `Scanning.DigitsEnd` | gyc/src/lexer.c:133-148 | The first digit run depends on how the number starts. `0x`/`0X` takes a maximal hex run. Any other leading `0` takes a maximal octal run. Any other start takes a maximal decimal run. A starting digit is always consumed. |
| `Scanning.NumberScan` | gyc/src/lexer.c:132-156 | The result is FloatingConstant exactly when the digit run stops at `.`, `e` or `E`. In that case the rest is the float scanner's work. Otherwise it is IntegerConstant, followed by the maximal u/U/l/L suffix run. |
| `Lexer.Lexer.ScanNumber` | gyc/src/lexer.c:132-156 | Moves the cursor and classifies exactly as `NumberScan` says. |
| `Scanning.SignScan` | gyc/src/lexer.c:169-185 | Always consumes the sign. When a digit follows, the result is the number scan from that digit, so the sign is part of the lexeme. Otherwise it returns Begin, and exactly one byte is consumed. |
| `Lexer.Lexer.ScanMinus` | gyc/src/lexer.c:169-176 | Does exactly what `SignScan` says. |
| `Lexer.Lexer.ScanPlus` | gyc/src/lexer.c:178-185 | Does exactly what `SignScan` says. |
| `Scanning.IdentifierScan` | gyc/src/lexer.c:71-79 | Consumes the maximal run of letters, digits, `_` and UTF-8 lead bytes. The scan stops on Fatal exactly when the cursor yields the decode-error value after at least one step. Otherwise the result is an identifier. |
| `Lexer.Lexer.ScanIdentifier` | gyc/src/lexer.c:71-79 | Moves the cursor and classifies exactly as `IdentifierScan` says. |
| `Lexer.Lexer.ScanBadChar` | gyc/src/lexer.c:158-163 | Reports the byte through Fatal without moving the cursor. |
| `Lexer.Lexer.ScanEof` | gyc/src/lexer.c:165-167 | Returns End and leaves the cursor where it is. |
| `Scanning.ScanBy` | gyc/src/lexer.c:71-185 | What the routine a table entry names does when line 260 calls it, over all nine routines. Running a scanner never moves the cursor backwards. End comes exactly from the end-of-file scanner, which consumes nothing. Only the bad-character and identifier scanners can stop on Fatal. Any other scanner chosen by the table consumes at least one byte. |
| `Lexer.Lexer.RunScanner` | gyc/src/lexer.c:260 | The call through the table entry behaves as `ScanBy` of that entry. |
| `Scanning.NextSpec` | gyc/src/lexer.c:250-279 | A driver call never yields NoToken. The mark sits after a maximal run of blanks. The cursor ends where the scanner the table picks for the marked byte stops. The call halts exactly when that scanner stops on Fatal, with its error. The lexeme is exactly the bytes from the mark to that stop. A token that is not a Keyword has the scanner's own kind. Line and column are those of the mark. The kind is End exactly at the sentinel, and every other token is non-empty. The kind is Keyword exactly when the scanner gave an identifier and the keyword set holds the lexeme. |
| `Lexer.Lexer.GetNextToken` | gyc/src/lexer.c:250-279 | Returns what `NextSpec` describes and leaves the cursor at its end, so it never returns NoToken. |
| `Scanning.Reclassify` | gyc/src/lexer.c:267-276 | The reported kind: an identifier whose lexeme the keyword set holds becomes Keyword. Every other kind, and every kind when no set is loaded, is kept. |
| `Scanning.NextIgnoresKeywords` | gyc/src/lexer.c:272-276 | The keyword set changes only the kind of a token. It never changes the mark, the end, the lexeme, or whether the token is End. |
| `Scanning.Tokenize` | gyc/src/lexer.c:225-230 | Calls the driver from a position until it yields End. The result is the blank runs it skipped and the tokens before End, or the fatal error that stopped it. When it reaches End there is one more gap than tokens, and the End position holds the sentinel. |
| `Scanning.LoadStep` | gyc/src/lexer.c:225-230 | Each pass of the loading loop keeps this invariant: the keywords collected so far, plus the lexemes still to come, are all the lexemes of the word list. |
| `Lexer.Lexer.LoadKeywords` | gyc/src/lexer.c:217-235 | The keyword set becomes exactly the lexemes of the tokens before End in the word list. The previously attached cursor is restored. Loading stops with the same fatal error the word list itself would raise. |
| `LexerProperties.EndIsSticky` | gyc/src/lexer.c:165-167 | End consumes nothing, so every later call reports the same End at the same place. |
| `LexerProperties.TokenizeRoundTrip` | gyc/src/lexer.c:250-279 | The skipped blank runs and the lexemes, interleaved in order, rebuild the text byte for byte, up to the sentinel where End was found. |
| `LexerProperties.TokenizePieces` | gyc/src/lexer.c:20-28 | Every skipped gap is blanks only, and every token before End is non-empty and is not End. |
| `LexerProperties.BlankTextYieldsOnlyEnd` | gyc/src/lexer.c:20-28 | A text of blanks alone yields End straight away, and no other token. |
| `LexerProperties.IdentifierToken` | gyc/src/lexer.c:272-276 | A C-style identifier is scanned whole, at line 1 column 1. Its kind is Keyword exactly when the keyword set holds it. |
| `LexerProperties.LoadedKeywordIsRecognised` | gyc/src/lexer.c:217-235 | Every identifier-shaped word loaded from a word list is afterwards scanned as Keyword. |
| `LexerProperties.FirstUnescapedQuoteCloses` | gyc/src/lexer.c:84-89 | With no backslash before it, the first closing quote ends the literal. |
| `LexerProperties.EscapedQuoteDoesNotClose` | gyc/src/lexer.c:34-45 | A quote written as an escape is swallowed together with its backslash. |
| `LexerProperties.OctalRunStopsAtNonOctalDigit` | gyc/src/lexer.c:141-144 | After a leading `0`, an `8` or `9` ends the integer right after the `0`. |
| `LexerProperties.OctalEscapeTakesThreeDigits` | gyc/src/lexer.c:50-58 | `\1234` consumes `\123` and leaves the `4`. |
| `LexerProperties.HexIntegerExample` | gyc/src/lexer.c:135-140 | `0x1A` is one IntegerConstant. |
| `LexerProperties.OctalIntegerExample` | gyc/src/lexer.c:141-144 | `007` is one IntegerConstant. |
| `LexerProperties.OctalStopsBeforeNineExample` | gyc/src/lexer.c:141-144 | `09` yields IntegerConstant `0`. |
| `LexerProperties.FractionExample` | gyc/src/lexer.c:150-151 | `3.14` is one FloatingConstant. |
| `LexerProperties.TrailingDotExample` | gyc/src/lexer.c:112-116 | `3.` is one FloatingConstant. |
| `LexerProperties.ExponentExample` | gyc/src/lexer.c:118-124 | `3e10` is one FloatingConstant. |
| `LexerProperties.LeadingDotExample` | gyc/src/lexer.c:203 | `.5` is one FloatingConstant. |
| `LexerProperties.SignedNumberExample` | gyc/src/lexer.c:169-173 | `-5` is one IntegerConstant with lexeme `-5`. |
| `LexerProperties.LoneSignExample` | gyc/src/lexer.c:169-175 | From `-x`, the first call yields Begin with lexeme `-`, and the next call yields the identifier `x`. |
| `LexerProperties.StringWithEscapeExample` | gyc/src/lexer.c:95-107 | `"a\nb"` is one StringLiteral spanning all six bytes. |
| `LexerProperties.CharLiteralExamples` | gyc/src/lexer.c:81-93 | `'\''` and `'"'` are each one CharConstant. |
| `LexerProperties.BadCharExample` | gyc/src/lexer.c:158-163 | `$` stops the run through Fatal with that byte, and no token comes out. |
| `LexerProperties.LeadByteAloneExample` | gyc/src/lexer.c:73-74 | With the byte-stepping cursor of this model, the bytes C3 A9 yield the identifier C3 and then halt with IllegalChar(0xA9) (see Left out). |
| `LexerProperties.PositionExample` | gyc/src/lexer.c:256-258 | After a newline and two spaces, a token reports line 2, column 3. |

## Left out

- The input cursor's implementation (`inputs.c`, `inputs.h`) is not part of this model. Class `Inputs` stands in for it.
- UTF-8 decoding is not modelled. The model's cursor advances one byte per step, and the continuation bytes of a multi-byte character are not folded into its lead byte. So in the model an identifier stops at a continuation byte (0x80 to 0xBF). That byte has no scanner. So for a well-formed multi-byte identifier the model yields the bytes before the first continuation byte as an identifier, and the next driver call halts with IllegalChar on that byte. The bytes C3 A9, for example, give the identifier C3 and then stop with IllegalChar(0xA9). The `IsUtf8Header` clause of the identifier loop therefore admits only the lead byte. The decode-error path (`UnrecognisedChar`) is reached only by a raw 0xFE byte after an identifier byte.
- The keyword dictionary (`CreateDictionary`, `DicInsertPair`, `DicGetPair`, `DestroyDictionary`) is replaced by a Dafny set of lexemes.
- `Fatal` does not print or abort. It becomes an `Aborted`/`Halted` outcome.
- Memory management (`malloc`, `Calloc`, `Free`, `memcpy`, `DestroyToken`, `DestroyLexer`) is left out. A lexeme is a subsequence of the text.
- Opening the keyword file (`CreateInputs`, `DestroyInputs`, and the assertion that the file opened) is I/O. `LoadKeywords` takes the file's bytes instead.
- The `symTable` field is not modelled. The keyword set is a field of the lexer, as the code uses it.
- `CreateLexer` leaves the cursor unset until `LexerSetInputs`. The model's constructor takes the cursor as a parameter.
- Callers may overwrite table entries after construction. The model fixes the table to the one `CreateLexer` builds.
- Operator and punctuation scanners do not exist in the code. Those bytes go to the bad-character scanner.
- An unterminated char or string literal makes the code loop for ever. A `\x` without a hex digit fails an assertion. Both are excluded by preconditions (`QuoteEnd(..).Some?`), not modelled as outcomes.
- Lexer.Lexer.LoadKeywords: says nothing about the lexer's state when Fatal stops loading, because Fatal ends the process there.
