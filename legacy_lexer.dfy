/** The older scanner (src/csharp/Lexing/Lexer.cs). Its token rules are the
    newer scanner's (`Lexing.ScanAt`); it differs in how errors are reported
    (`Program.Error`, a message without an index) and in the final `Eof`,
    whose extent starts where the last lexeme started because `_start` is
    not moved to the end. */
module LegacyLexing {
  import opened Wrappers
  import opened FixedRanges
  import opened Tokens
  import opened Lexing

  /** The message `Program.Error` is given for a fault. */
  function Message(f: Fault): string {
    match f
    case MissingDigit(_) => "Dot must be followed by at least 1 digit"
    case Stray(_, c) => "Stray '" + [c] + "' in program"
  }

  function MessagesOf(fs: seq<Fault>): (ms: seq<string>)
    ensures |ms| == |fs| && forall k :: 0 <= k < |fs| ==> ms[k] == Message(fs[k])
  {
    if |fs| == 0 then [] else [Message(fs[0])] + MessagesOf(fs[1..])
  }

  lemma MessagesOfAppend(a: seq<Fault>, b: seq<Fault>)
    ensures MessagesOf(a + b) == MessagesOf(a) + MessagesOf(b)
  {
    var l, r := MessagesOf(a + b), MessagesOf(a) + MessagesOf(b);
    forall k | 0 <= k < |l| ensures l[k] == r[k] {
      if k < |a| {
        assert (a + b)[k] == a[k];
      } else {
        assert (a + b)[k] == b[k - |a|];
      }
    }
  }

  /** The value of `_start` when the loop ends, having started at `i` with
      `_start == start`: the start of the last turn, if there was one. */
  function LastStart(input: string, i: nat, start: nat): (s: nat)
    requires i <= |input|
    ensures i < |input| ==> i <= s < |input|
    ensures i == |input| ==> s == start
    decreases |input| - i
  {
    if i == |input| then start else LastStart(input, ScanAt(input, i).next, i)
  }

  /** The whole output of the older scanner on `input`. */
  function LegacyLexed(input: string): seq<Token> {
    TokensFrom(input, 0) + [Token(FixedRange(LastStart(input, 0, 0), |input|), Eof, None)]
  }

  class LegacyLexer {
    const input: string
    var start: nat
    var i: nat
    /** The messages handed to `Program.Error`, which writes them to the
        standard error stream. */
    var reported: seq<string>

    ghost predicate Valid()
      reads this
    {
      start <= i <= |input|
    }

    constructor(input: string)
      ensures Valid() && this.input == input && start == 0 && i == 0 && reported == []
    {
      this.input := input;
      start := 0;
      i := 0;
      reported := [];
    }

    predicate IsAtEnd()
      reads this
    {
      i >= |input|
    }

    method Advance() returns (c: char)
      requires Valid() && !IsAtEnd()
      modifies this
      ensures Valid() && c == input[old(i)] && i == old(i) + 1
      ensures start == old(start) && reported == old(reported)
    {
      c := input[i];
      i := i + 1;
    }

    method MatchDigit() returns (matched: bool)
      requires Valid()
      modifies this
      ensures Valid() && matched == DigitAt(input, old(i))
      ensures i == if matched then old(i) + 1 else old(i)
      ensures start == old(start) && reported == old(reported)
    {
      if IsAtEnd() || !IsAsciiDigit(input[i]) {
        return false;
      }
      i := i + 1;
      return true;
    }

    method Match(expected: char) returns (matched: bool)
      requires Valid()
      modifies this
      ensures Valid() && matched == (old(i) < |input| && input[old(i)] == expected)
      ensures i == if matched then old(i) + 1 else old(i)
      ensures start == old(start) && reported == old(reported)
    {
      if IsAtEnd() || input[i] != expected {
        return false;
      }
      i := i + 1;
      return true;
    }

    /** `Program.Error`. */
    method ReportError(message: string)
      modifies this
      ensures reported == old(reported) + [message]
      ensures i == old(i) && start == old(start)
    {
      reported := reported + [message];
    }

    /** `while (MatchDigit()) { }`. */
    method SkipDigits()
      requires Valid()
      modifies this
      ensures Valid() && i == DigitsEnd(input, old(i))
      ensures start == old(start) && reported == old(reported)
    {
      var more := MatchDigit();
      while more
        invariant Valid() && old(i) <= i && start == old(start) && reported == old(reported)
        invariant DigitsEnd(input, i) == DigitsEnd(input, old(i))
        invariant !more ==> !DigitAt(input, i)
        decreases |input| - i, if more then 1 else 0
      {
        more := MatchDigit();
      }
    }

    function Ok(kind: TokenType): Token
      reads this
    {
      Token(FixedRange(start, i), kind, None)
    }

    function OkDecimal(): Token
      requires Valid()
      reads this
    {
      NumberToken(input, start, i)
    }

    /** The `char.IsAsciiDigit(c)` branch of the `switch`'s default case. */
    method LexDigits() returns (token: Option<Token>)
      requires Valid() && i == start + 1 && IsAsciiDigit(input[start])
      modifies this
      ensures Valid() && start == old(start)
      ensures var s := ScanDigits(input, start);
              i == s.next && token == s.token && reported == old(reported) + MessagesOf(OptionSeq(s.fault))
    {
      ghost var j := DigitsEnd(input, start + 1);
      SkipDigits();
      assert i == j;
      var dot := Match('.');
      if dot {
        var digit := MatchDigit();
        if digit {
          SkipDigits();
          token := Some(OkDecimal());
        } else {
          ReportError("Dot must be followed by at least 1 digit");
          token := None;
        }
      } else {
        SkipDigits();
        token := Some(OkDecimal());
      }
    }

    /** One turn of the `Lex` loop: the body of the `switch`. */
    method LexOne() returns (token: Option<Token>)
      requires Valid() && !IsAtEnd()
      modifies this
      ensures Valid() && start == old(i)
      ensures var s := ScanAt(input, old(i));
              i == s.next && token == s.token && reported == old(reported) + MessagesOf(OptionSeq(s.fault))
    {
      start := i;
      var c := Advance();
      var p := Punctuation(c);
      if p.Some? {
        return Some(Ok(p.value));
      }
      var dotDigit := false;
      if c == '.' {
        dotDigit := MatchDigit();
      }
      if dotDigit {
        SkipDigits();
        token := Some(OkDecimal());
      } else if IsAsciiDigit(c) {
        token := LexDigits();
      } else if !IsWhiteSpace(c) {
        ReportError("Stray '" + [c] + "' in program");
        token := None;
      } else {
        token := None;
      }
    }

    /** `Lex`: the same tokens as the newer scanner, then `Eof` over
        `_start.._i` with `_start` left where the last turn began. */
    method Lex() returns (tokens: seq<Token>)
      requires Valid()
      modifies this
      ensures Valid() && i == |input| && start == LastStart(input, old(i), old(start))
      ensures tokens == TokensFrom(input, old(i)) + [Token(FixedRange(start, |input|), Eof, None)]
      ensures reported == old(reported) + MessagesOf(FaultsFrom(input, old(i)))
    {
      tokens := [];
      while !IsAtEnd()
        invariant Valid() && old(i) <= i
        invariant LastStart(input, i, start) == LastStart(input, old(i), old(start))
        invariant tokens + TokensFrom(input, i) == TokensFrom(input, old(i))
        invariant reported + MessagesOf(FaultsFrom(input, i))
                  == old(reported) + MessagesOf(FaultsFrom(input, old(i)))
        decreases |input| - i
      {
        ghost var before := i;
        ghost var toks, msgs := tokens, reported;
        var token := LexOne();
        tokens := tokens + OptionSeq(token);
        Unfold(input, before);
        ghost var s := ScanAt(input, before);
        MessagesOfAppend(OptionSeq(s.fault), FaultsFrom(input, i));
        AppendAssoc(toks, OptionSeq(s.token), TokensFrom(input, i));
        AppendAssoc(msgs, MessagesOf(OptionSeq(s.fault)), MessagesOf(FaultsFrom(input, i)));
      }
      tokens := tokens + [Ok(Eof)];
    }
  }

  /** Apart from the final `Eof`'s extent, the older scanner's output is the
      newer scanner's. */
  lemma SameTokensButEof(input: string)
    ensures var old_, new_ := LegacyLexed(input), Lexed(input);
            |old_| == |new_| && old_[..|old_| - 1] == new_[..|new_| - 1]
            && old_[|old_| - 1].kind == new_[|new_| - 1].kind == Eof
            && old_[|old_| - 1].extent.end == new_[|new_| - 1].extent.end == |input|
  {
    var body := TokensFrom(input, 0);
    assert LegacyLexed(input)[..|body|] == body == Lexed(input)[..|body|];
  }

  /** On non-empty input the older `Eof` starts before the end, inside the
      last lexeme or the last character skipped, so it is not empty. */
  lemma {:induction false} LegacyEofStartsInside(input: string)
    requires |input| > 0
    ensures var ts := LegacyLexed(input);
            ts[|ts| - 1].extent.start < ts[|ts| - 1].extent.end == |input|
  {
  }

  /** On `1` the older `Eof` covers the literal: its extent is [0, 1), where
      the newer scanner gives [1, 1). */
  lemma LegacyEofOverlapsLiteral()
    ensures LegacyLexed("1") == [Token(FixedRange(0, 1), LitNumber, Some(1.0)), Token(FixedRange(0, 1), Eof, None)]
    ensures Lexed("1") == [Token(FixedRange(0, 1), LitNumber, Some(1.0)), Token(FixedRange(1, 1), Eof, None)]
  {
    var input := "1";
    assert DigitsEnd(input, 1) == 1;
    assert ScanDigits(input, 0) == Scan(1, Some(NumberToken(input, 0, 1)), None);
    assert ScanAt(input, 0) == Scan(1, Some(NumberToken(input, 0, 1)), None);
    assert input[0..1] == input && DotIndex(input) == 1 && input[..1] == "1" && DigitsValue("1") == 1;
    Unfold(input, 0);
    assert LastStart(input, 1, 0) == 0;
  }
}
