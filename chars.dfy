/** Byte classes: the character-class macros at the top of lexer.c, and the
    reserved values the input cursor yields. */
module Chars {

  /** One value yielded by the input cursor. */
  type byte = b: int | 0 <= b < 256

  /** The cursor's end-of-file sentinel. It must be a byte (the table loop in
      CreateLexer counts a uint8 up to it), and 0xFF never occurs in UTF-8. */
  const END_OF_FILE: byte := 0xFF

  /** The value the cursor yields for a malformed UTF-8 sequence. */
  const UTF8_ERROR: byte := 0xFE

  const TAB: byte := 9
  const NEWLINE: byte := 10
  const SPACE: byte := 32
  const DOUBLE_QUOTE: byte := 34
  const QUOTE: byte := 39
  const PLUS: byte := 43
  const MINUS: byte := 45
  const DOT: byte := 46
  const BACKSLASH: byte := 92
  const UNDERSCORE: byte := 95

  predicate IsDigit(c: int) {
    '0' as int <= c <= '9' as int
  }

  predicate IsOctDigit(c: int) {
    '0' as int <= c <= '7' as int
  }

  predicate IsHexDigit(c: int) {
    IsDigit(c) || ('A' as int <= c <= 'F' as int) || ('a' as int <= c <= 'f' as int)
  }

  /** A letter in the lexer's sense: ASCII letters and the underscore. */
  predicate IsLetter(c: int) {
    ('a' as int <= c <= 'z' as int) || c == UNDERSCORE || ('A' as int <= c <= 'Z' as int)
  }

  predicate IsLetterOrDigit(c: int) {
    IsLetter(c) || IsDigit(c)
  }

  // Lead bytes of the 2- to 6-byte forms of the original UTF-8 (section 2 of RFC 2279).
  predicate IsUtf8TwoByteHeader(c: int) { 0xC0 <= c <= 0xDF }
  predicate IsUtf8ThreeByteHeader(c: int) { 0xE0 <= c <= 0xEF }
  predicate IsUtf8FourByteHeader(c: int) { 0xF0 <= c <= 0xF7 }
  predicate IsUtf8FiveByteHeader(c: int) { 0xF8 <= c <= 0xFB }
  predicate IsUtf8SixByteHeader(c: int) { 0xFC <= c <= 0xFD }

  predicate IsUtf8Header(c: int) {
    IsUtf8TwoByteHeader(c) || IsUtf8ThreeByteHeader(c) || IsUtf8FourByteHeader(c) ||
    IsUtf8FiveByteHeader(c) || IsUtf8SixByteHeader(c)
  }

  /** How the macro classes nest and where the UTF-8 lead bytes lie: octal
      digits are digits, digits are hex digits, identifier bytes are letters,
      digits and lead bytes, and no lead byte is ASCII, a blank or one of the
      two reserved cursor values. */
  lemma ClassRelations(c: byte)
    ensures IsOctDigit(c) ==> IsDigit(c)
    ensures IsDigit(c) ==> IsHexDigit(c) && !IsLetter(c)
    ensures IsIdentifierChar(c) <==> IsLetterOrDigit(c) || IsUtf8Header(c)
    ensures IsUtf8Header(c) <==> 0xC0 <= c <= 0xFD
    ensures IsUtf8Header(c) ==> !IsLetterOrDigit(c) && !IsBlank(c) && c != END_OF_FILE && c != UTF8_ERROR
    ensures !IsIdentifierChar(END_OF_FILE) && !IsIdentifierChar(UTF8_ERROR)
  {
  }

  /** The bytes EatWhiteSpace skips: tab, space and newline, nothing else. */
  predicate IsBlank(c: int) {
    c == TAB || c == SPACE || c == NEWLINE
  }

  /** The bytes the identifier loop keeps consuming. */
  predicate IsIdentifierChar(c: int) {
    IsLetterOrDigit(c) || c == UNDERSCORE || IsUtf8Header(c)
  }

  /** The eleven escape letters after which one more byte ends the escape. */
  predicate IsSimpleEscape(c: int) {
    c == QUOTE || c == DOUBLE_QUOTE || c == '?' as int || c == BACKSLASH ||
    c == 'a' as int || c == 'b' as int || c == 'f' as int || c == 'n' as int ||
    c == 'r' as int || c == 't' as int || c == 'v' as int
  }

  predicate IsHexPrefix(c: int) {
    c == 'x' as int || c == 'X' as int
  }

  /** A byte after a digit run that sends ScanNumber on to the float scanner. */
  predicate StartsFraction(c: int) {
    c == DOT || c == 'e' as int || c == 'E' as int
  }

  predicate IsExponentMarker(c: int) {
    c == 'e' as int || c == 'E' as int
  }

  predicate IsSign(c: int) {
    c == PLUS || c == MINUS
  }

  predicate IsIntegerSuffix(c: int) {
    c == 'u' as int || c == 'U' as int || c == 'l' as int || c == 'L' as int
  }

  predicate IsFloatSuffix(c: int) {
    c == 'f' as int || c == 'F' as int || c == 'l' as int || c == 'L' as int
  }

  /** The byte classes whose maximal runs the scanners consume. */
  datatype Class = Blank | Digit | OctDigit | HexDigit | IdentifierChar | IntegerSuffix | FloatSuffix

  predicate InClass(c: int, k: Class) {
    match k
    case Blank => IsBlank(c)
    case Digit => IsDigit(c)
    case OctDigit => IsOctDigit(c)
    case HexDigit => IsHexDigit(c)
    case IdentifierChar => IsIdentifierChar(c)
    case IntegerSuffix => IsIntegerSuffix(c)
    case FloatSuffix => IsFloatSuffix(c)
  }

  /** The bytes of a string whose characters all fit in a byte. */
  function Bytes(s: string): (b: seq<byte>)
    requires forall i :: 0 <= i < |s| ==> s[i] as int < 256
    ensures |b| == |s| && forall i :: 0 <= i < |s| ==> b[i] == s[i] as int
  {
    seq(|s|, i requires 0 <= i < |s| => s[i] as int)
  }
}
