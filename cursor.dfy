/** The input cursor the lexer reads from. Its implementation (inputs.c) is not
    part of this model; this module gives the interface the lexer relies on:
    a byte sequence, a position in it, a mark, and the line and column of the
    position. */
module Cursor {
  import opened Chars

  /** The byte the cursor yields at position p: END_OF_FILE once p is past the text. */
  function Cur(text: seq<byte>, p: nat): byte {
    if p < |text| then text[p] else END_OF_FILE
  }

  /** The position after one advance: the cursor stays put at the end of the text. */
  function Step(text: seq<byte>, p: nat): nat {
    if p < |text| then p + 1 else p
  }

  /** The 1-based line of position p: one more than the newlines before it. */
  function LineOf(text: seq<byte>, p: nat): nat
    requires p <= |text|
  {
    if p == 0 then 1 else LineOf(text, p - 1) + (if text[p - 1] == NEWLINE then 1 else 0)
  }

  /** The 1-based column of position p: one more than the bytes since the last newline. */
  function ColOf(text: seq<byte>, p: nat): nat
    requires p <= |text|
  {
    if p == 0 then 1 else if text[p - 1] == NEWLINE then 1 else ColOf(text, p - 1) + 1
  }

  /** The end of the maximal run of class-k bytes that starts at p. */
  function RunEnd(text: seq<byte>, p: nat, k: Class): (e: nat)
    requires p <= |text|
    ensures p <= e <= |text|
    ensures forall i :: p <= i < e ==> InClass(text[i], k)
    ensures !InClass(Cur(text, e), k)
    decreases |text| - p
  {
    if InClass(Cur(text, p), k) then RunEnd(text, p + 1, k) else p
  }

  class Inputs {
    const text: seq<byte>
    var pos: nat
    /** The marked position, or -1 when nothing is marked. */
    var mark: int
    var line: nat
    var col: nat

    ghost predicate Valid()
      reads this
    {
      pos <= |text| && mark <= pos &&
      line == LineOf(text, pos) && col == ColOf(text, pos)
    }

    constructor (text: seq<byte>)
      ensures Valid() && this.text == text && pos == 0 && mark == -1
    {
      this.text := text;
      pos, mark := 0, -1;
      line, col := 1, 1;
    }

    /** InputsCurrentChar. */
    function Current(): byte
      reads this
    {
      Cur(text, pos)
    }

    /** InputsNextChar: advance one byte and yield the new current byte. */
    method Next() returns (c: byte)
      requires Valid()
      modifies this
      ensures Valid() && pos == Step(text, old(pos)) && mark == old(mark) && c == Cur(text, pos)
    {
      if pos < |text| {
        if text[pos] == NEWLINE {
          line, col := line + 1, 1;
        } else {
          col := col + 1;
        }
        pos := pos + 1;
      }
      c := Current();
    }

    /** InputsMark. */
    method Mark()
      requires Valid()
      modifies this`mark
      ensures Valid() && mark == pos
    {
      mark := pos;
    }

    /** InputsUnMark. */
    method UnMark()
      requires Valid()
      modifies this`mark
      ensures Valid() && mark == -1
    {
      mark := -1;
    }

    /** InputsGetMarkedLen: the bytes since the mark, negative when nothing is marked. */
    function MarkedLen(): int
      reads this
    {
      if mark < 0 then -1 else pos - mark
    }

    /** The loop `while (IsX(c)) c = InputsNextChar(inputs);` that the scanners
        use to consume a maximal run of one byte class. */
    method SkipWhile(k: Class) returns (c: byte)
      requires Valid()
      modifies this
      ensures Valid() && pos == RunEnd(text, old(pos), k) && mark == old(mark) && c == Cur(text, pos)
    {
      c := Current();
      while InClass(c, k)
        invariant Valid() && old(pos) <= pos && mark == old(mark) && c == Cur(text, pos)
        invariant RunEnd(text, pos, k) == RunEnd(text, old(pos), k)
        decreases |text| - pos
      {
        c := Next();
      }
    }
  }
}
