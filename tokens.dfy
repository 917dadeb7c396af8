/** The values the lexer hands out: token kinds, tokens and fatal errors. */
module Tokens {
  import opened Chars

  datatype Option<T> = None | Some(value: T)

  /** The token classifications (TK_Id, TK_Keyword, ... of the source). */
  datatype Kind =
    | Id
    | Keyword
    | IntegerConstant
    | FloatingConstant
    | CharConstant
    | StringLiteral
    | End
    | BadChar
    | Begin

  /** The two reasons the lexer calls Fatal, which ends the whole run. */
  datatype FatalError =
    | IllegalChar(c: byte)  // a byte no scanner is registered for
    | UnrecognisedChar      // the cursor reported a malformed UTF-8 sequence

  /** What a scanner routine ends with: a classification, or a fatal stop. */
  datatype Outcome = Scanned(kind: Kind) | Aborted(error: FatalError)

  /** One token: its kind, the exact bytes it spans, and where it starts. */
  datatype Token = Token(kind: Kind, lexeme: seq<byte>, line: nat, col: nat)

  /** What GetNextToken yields: a token, no token (a null result), or a fatal stop. */
  datatype NextResult = Produced(token: Token) | NoToken | Halted(error: FatalError)
}
