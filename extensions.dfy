/** Helpers over token-type sets (src/Extensions.cs). */
module Extensions {
  import opened Wrappers
  import opened Tokens

  /** `allTokenTypes`: every member of the `TokenType` enumeration. */
  const AllTokenTypes: set<TokenType> :=
    {Eof, Div, Minus, Mod, Mul, Plus, Semi, LParen, RParen, LitNumber}

  lemma AllTokenTypesComplete()
    ensures forall t: TokenType :: t in AllTokenTypes
  {
    forall t: TokenType ensures t in AllTokenTypes {
      match t
      case Eof => case Div => case Minus => case Mod => case Mul =>
      case Plus => case Semi => case LParen => case RParen => case LitNumber =>
    }
  }

  lemma AllTokenTypesCount()
    ensures |AllTokenTypes| == 10
  {
  }

  /** `Complement`: the token types that are not in `s`. */
  function Complement(s: set<TokenType>): (r: set<TokenType>)
    ensures forall t :: t in r <==> t !in s
  {
    AllTokenTypesComplete();
    AllTokenTypes - s
  }

  /** A set and its complement partition the token types. */
  lemma ComplementPartitions(s: set<TokenType>)
    ensures Complement(s) * s == {}
    ensures Complement(s) + s == AllTokenTypes
  {
    AllTokenTypesComplete();
  }

  lemma ComplementOfNothingAndEverything()
    ensures Complement({}) == AllTokenTypes
    ensures Complement(AllTokenTypes) == {}
  {
  }

  lemma ComplementInvolutive(s: set<TokenType>)
    ensures Complement(Complement(s)) == s
  {
  }

  /** `NotNull`: the asserted-present value, unchanged. */
  function NotNull<T>(t: Option<T>): (r: T)
    requires t.Some?
    ensures t == Some(r)
  {
    t.value
  }
}
