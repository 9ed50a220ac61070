/** Syntax and lexical diagnostics (src/ParserError.cs). */
module Errors {
  import opened Tokens

  /** A syntax error: the token index, the rule being parsed, and the token types
      that would have been accepted there. `expected` is a mathematical set, so
      the order and representation of the source's `IReadOnlySet` are abstracted. */
  datatype ParserError = ParserError(index: int, subject: string, expected: set<TokenType>)

  /** A lexical error: the character index and a message. */
  datatype LexerError = LexerError(index: int, message: string)

  /** The overridden `ParserError.Equals`: same index, same subject and the
      expected sets compared with `SetEquals`. */
  predicate ErrorEquals(a: ParserError, b: ParserError) {
    b.index == a.index && b.expected == a.expected && b.subject == a.subject
  }

  /** `ErrorEquals` agrees with structural equality, hence it is an equivalence. */
  lemma ErrorEqualsIsStructural(a: ParserError, b: ParserError)
    ensures ErrorEquals(a, b) <==> a == b
  {
  }

  lemma ErrorEqualsEquivalence(a: ParserError, b: ParserError, c: ParserError)
    ensures ErrorEquals(a, a)
    ensures ErrorEquals(a, b) ==> ErrorEquals(b, a)
    ensures ErrorEquals(a, b) && ErrorEquals(b, c) ==> ErrorEquals(a, c)
  {
  }

  /** Two errors whose expected sets are built differently (a union of head sets
      versus a literal set written in another order) are equal. */
  lemma ErrorEqualsIgnoresSetConstruction(i: int, s: string)
    ensures ErrorEquals(ParserError(i, s, {Semi} + ({LitNumber} + {LParen})),
                        ParserError(i, s, {LParen, LitNumber, Semi}))
  {
  }

  /** `LexerError` is a plain record: equality is on (index, message). */
  lemma LexerErrorEquality(a: LexerError, b: LexerError)
    ensures a == b <==> a.index == b.index && a.message == b.message
  {
  }
}
