/** Tokens produced by the lexer (src/Lexing/Token.cs). */
module Tokens {
  import opened Wrappers
  import opened FixedRanges

  /** The closed enumeration of token types, in declaration order. */
  datatype TokenType = Eof | Div | Minus | Mod | Mul | Plus | Semi | LParen | RParen | LitNumber

  /** A token: its extent in the input, its type, and for number literals
      the exact value of the literal (`Value`, a boxed decimal). */
  datatype Token = Token(extent: FixedRange, kind: TokenType, payload: Option<real>)

  /** The token stream ends with the end-of-file sentinel. */
  predicate EndsWithEof(ts: seq<Token>) {
    |ts| > 0 && ts[|ts| - 1].kind == Eof
  }

  /** Every number literal carries its value. */
  predicate NumbersCarryValue(ts: seq<Token>) {
    forall k :: 0 <= k < |ts| && ts[k].kind == LitNumber ==> ts[k].payload.Some?
  }
}
