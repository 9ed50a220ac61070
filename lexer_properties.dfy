/** What the scanner of src/Lexing/Lexer.cs promises about its output: the
    token rules read back from the input, the ordering of extents, the single
    final `Eof`, and the examples of its tests. */
module LexingProperties {
  import opened Wrappers
  import opened FixedRanges
  import opened Tokens
  import opened Errors
  import opened Lexing

  /** A token spells a piece of the input: a number lexeme with its exact value
      that stops where the digits stop, or one punctuation character. */
  predicate Spells(input: string, t: Token) {
    0 <= t.extent.start < t.extent.end <= |input|
    && var lexeme := input[t.extent.start..t.extent.end];
       if t.kind == LitNumber then
         NumberLexeme(lexeme) && t.payload == Some(ParseDecimal(lexeme)) && !DigitAt(input, t.extent.end)
       else
         |lexeme| == 1 && Punctuation(lexeme[0]) == Some(t.kind) && t.payload.None?
  }

  /** A fault names a character that no rule accepts. */
  predicate Explains(input: string, f: Fault) {
    0 <= f.index < |input|
    && match f
       case MissingDigit(k) => input[k] == '.' && 0 < k && IsAsciiDigit(input[k - 1]) && !DigitAt(input, k + 1)
       case Stray(k, c) =>
         input[k] == c && Punctuation(c).None? && !IsAsciiDigit(c) && !IsWhiteSpace(c)
         && !(c == '.' && DigitAt(input, k + 1))
  }

  /** Tokens that spell the input from `i` on, none of them `Eof`, with
      extents that follow each other without overlapping. */
  predicate SpelledInOrder(input: string, ts: seq<Token>, i: nat) {
    (forall k :: 0 <= k < |ts| ==> Spells(input, ts[k]) && ts[k].kind != Eof && i <= ts[k].extent.start)
    && (forall k, l :: 0 <= k < l < |ts| ==> ts[k].extent.end <= ts[l].extent.start)
  }

  /** Faults that name rejected characters from `i` on, at increasing indices. */
  predicate ExplainedInOrder(input: string, fs: seq<Fault>, i: nat) {
    (forall k :: 0 <= k < |fs| ==> Explains(input, fs[k]) && i <= fs[k].index)
    && (forall k, l :: 0 <= k < l < |fs| ==> fs[k].index < fs[l].index)
  }

  /** The first `.` of a string is at `d` when none comes before and `d` holds one. */
  lemma {:induction false} DotIndexAt(s: string, d: nat)
    requires d <= |s| && (forall k :: 0 <= k < d ==> s[k] != '.') && (d < |s| ==> s[d] == '.')
    ensures DotIndex(s) == d
    decreases |s|
  {
    if |s| > 0 && s[0] != '.' {
      DotIndexAt(s[1..], d - 1);
    }
  }

  lemma DigitsAreLexeme(input: string, i: nat, q: nat)
    requires i < q <= |input| && forall k :: i <= k < q ==> IsAsciiDigit(input[k])
    ensures NumberLexeme(input[i..q])
  {
    DotIndexAt(input[i..q], q - i);
  }

  lemma DecimalIsLexeme(input: string, i: nat, j: nat, q: nat)
    requires i < j && j + 1 < q <= |input| && input[j] == '.'
    requires forall k :: i <= k < j ==> IsAsciiDigit(input[k])
    requires forall k :: j < k < q ==> IsAsciiDigit(input[k])
    ensures NumberLexeme(input[i..q])
  {
    DotIndexAt(input[i..q], j - i);
  }

  /** The token of one turn, read back from the input: it covers exactly
      the characters consumed, and a turn that yields one raises nothing. */
  lemma ScanToken(input: string, i: nat)
    requires i < |input|
    ensures var s := ScanAt(input, i);
            s.token.Some? ==> s.fault.None? && s.token.value.extent == FixedRange(i, s.next)
                              && s.token.value.kind != Eof && Spells(input, s.token.value)
  {
    var c := input[i];
    if Punctuation(c).None? {
      if c == '.' && DigitAt(input, i + 1) {
        var q := DigitsEnd(input, i + 2);
        DotIndexAt(input[i..q], 0);
      } else if IsAsciiDigit(c) {
        ScanDigitsToken(input, i);
      }
    }
  }

  lemma ScanDigitsToken(input: string, i: nat)
    requires i < |input| && IsAsciiDigit(input[i])
    ensures var s := ScanDigits(input, i);
            s.token.Some? ==> s.fault.None? && s.token.value.extent == FixedRange(i, s.next)
                              && s.token.value.kind == LitNumber && Spells(input, s.token.value)
  {
    var j := DigitsEnd(input, i + 1);
    if j < |input| && input[j] == '.' {
      if DigitAt(input, j + 1) {
        DecimalIsLexeme(input, i, j, DigitsEnd(input, j + 2));
      }
    } else {
      DigitsAreLexeme(input, i, j);
    }
  }

  /** The fault of one turn names the last character it consumed. */
  lemma ScanFault(input: string, i: nat)
    requires i < |input|
    ensures var s := ScanAt(input, i);
            s.fault.Some? ==> s.fault.value.index == s.next - 1 && Explains(input, s.fault.value)
  {
  }

  /** Every token from `i` on spells the input, is not `Eof`, lies within
      [i, |input|], and the extents follow each other without overlapping. */
  lemma {:induction false} TokensFromFacts(input: string, i: nat)
    requires i <= |input|
    ensures SpelledInOrder(input, TokensFrom(input, i), i)
    decreases |input| - i
  {
    if i < |input| {
      var s := ScanAt(input, i);
      ScanToken(input, i);
      TokensFromFacts(input, s.next);
      Unfold(input, i);
      SpelledCons(input, s.token, TokensFrom(input, s.next), i, s.next);
    }
  }

  /** An optional token over [i, next) before tokens from `next` on. */
  lemma SpelledCons(input: string, t: Option<Token>, rest: seq<Token>, i: nat, next: nat)
    requires t.Some? ==> t.value.extent == FixedRange(i, next) && t.value.kind != Eof && Spells(input, t.value)
    requires i <= next && SpelledInOrder(input, rest, next)
    ensures SpelledInOrder(input, OptionSeq(t) + rest, i)
  {
    EachSpelled(input, t, rest, i, next);
    ExtentsCons(t, rest, next);
  }

  lemma ExtentsCons(t: Option<Token>, rest: seq<Token>, next: nat)
    requires t.Some? ==> t.value.extent.end == next
    requires forall k :: 0 <= k < |rest| ==> next <= rest[k].extent.start
    requires forall k, l :: 0 <= k < l < |rest| ==> rest[k].extent.end <= rest[l].extent.start
    ensures var ts := OptionSeq(t) + rest;
            forall k, l :: 0 <= k < l < |ts| ==> ts[k].extent.end <= ts[l].extent.start
  {
    var ts := OptionSeq(t) + rest;
    forall k, l | 0 <= k < l < |ts| ensures ts[k].extent.end <= ts[l].extent.start {
      if t.Some? && k == 0 {
        assert ts[k] == t.value && ts[l] == rest[l - 1];
      } else {
        var h := |ts| - |rest|;
        assert ts[k] == rest[k - h] && ts[l] == rest[l - h];
      }
    }
  }

  lemma EachSpelled(input: string, t: Option<Token>, rest: seq<Token>, i: nat, next: nat)
    requires t.Some? ==> t.value.extent == FixedRange(i, next) && t.value.kind != Eof && Spells(input, t.value)
    requires i <= next && forall k :: 0 <= k < |rest| ==> Spells(input, rest[k]) && rest[k].kind != Eof && next <= rest[k].extent.start
    ensures var ts := OptionSeq(t) + rest;
            forall k :: 0 <= k < |ts| ==> Spells(input, ts[k]) && ts[k].kind != Eof && i <= ts[k].extent.start
  {
    var ts := OptionSeq(t) + rest;
    forall k | 0 <= k < |ts|
      ensures Spells(input, ts[k]) && ts[k].kind != Eof && i <= ts[k].extent.start
    {
      if t.Some? && k == 0 {
        assert ts[k] == t.value;
      } else {
        assert ts[k] == rest[k - (|ts| - |rest|)];
      }
    }
  }

  /** Every fault from `i` on names a rejected character, at increasing indices. */
  lemma {:induction false} FaultsFromFacts(input: string, i: nat)
    requires i <= |input|
    ensures ExplainedInOrder(input, FaultsFrom(input, i), i)
    decreases |input| - i
  {
    if i < |input| {
      var s := ScanAt(input, i);
      ScanFault(input, i);
      FaultsFromFacts(input, s.next);
      Unfold(input, i);
      ExplainedCons(input, s.fault, FaultsFrom(input, s.next), i, s.next);
    }
  }

  /** An optional fault at `next - 1` before faults from `next` on. */
  lemma ExplainedCons(input: string, f: Option<Fault>, rest: seq<Fault>, i: nat, next: nat)
    requires f.Some? ==> f.value.index == next - 1 && Explains(input, f.value)
    requires i < next && ExplainedInOrder(input, rest, next)
    ensures ExplainedInOrder(input, OptionSeq(f) + rest, i)
  {
    var head := OptionSeq(f);
    var fs := head + rest;
    forall k | 0 <= k < |fs| ensures Explains(input, fs[k]) && i <= fs[k].index {
      if k < |head| {
        assert fs[k] == f.value;
      } else {
        assert fs[k] == rest[k - |head|];
      }
    }
    forall k, l | 0 <= k < l < |fs| ensures fs[k].index < fs[l].index {
      if k < |head| {
        assert fs[k] == f.value && fs[l] == rest[l - |head|];
      } else {
        assert fs[k] == rest[k - |head|] && fs[l] == rest[l - |head|];
      }
    }
  }

  /** The output ends with exactly one `Eof`, over [len, len). */
  lemma EndsWithSingleEof(input: string)
    ensures var ts := Lexed(input);
            EndsWithEof(ts) && ts[|ts| - 1] == Token(FixedRange(|input|, |input|), Eof, None)
            && forall k :: 0 <= k < |ts| - 1 ==> ts[k].kind != Eof
  {
    TokensFromFacts(input, 0);
    var ts, body := Lexed(input), TokensFrom(input, 0);
    forall k | 0 <= k < |ts| - 1 ensures ts[k].kind != Eof {
      assert ts[k] == body[k];
    }
  }

  /** Extents are non-empty except the final `Eof`'s, within [0, len], and
      increasing without overlap; every number literal carries its value. */
  lemma ExtentsIncrease(input: string)
    ensures var ts := Lexed(input);
            (forall k :: 0 <= k < |ts| ==>
               0 <= ts[k].extent.start <= ts[k].extent.end <= |input|
               && (k < |ts| - 1 ==> ts[k].extent.start < ts[k].extent.end))
            && (forall k, l :: 0 <= k < l < |ts| ==> ts[k].extent.end <= ts[l].extent.start)
            && NumbersCarryValue(ts)
  {
    TokensFromFacts(input, 0);
    var ts := Lexed(input);
    var body := TokensFrom(input, 0);
    assert ts == body + [EofAt(|input|)];
    assert forall k :: 0 <= k < |body| ==> Spells(input, body[k]);
    forall k | 0 <= k < |ts|
      ensures 0 <= ts[k].extent.start <= ts[k].extent.end <= |input|
      ensures k < |ts| - 1 ==> ts[k].extent.start < ts[k].extent.end
      ensures ts[k].kind == LitNumber ==> ts[k].payload.Some?
    {
      if k < |body| {
        assert ts[k] == body[k] && Spells(input, body[k]);
      }
    }
  }

  /** Every token of the output, except `Eof`, spells the characters it covers,
      and every queued error names a rejected character, in input order. */
  lemma OutputSpellsInput(input: string)
    ensures var ts := Lexed(input);
            forall k :: 0 <= k < |ts| - 1 ==> Spells(input, ts[k])
    ensures var fs := FaultsFrom(input, 0);
            LexErrors(input) == ErrorsOf(fs)
            && (forall k :: 0 <= k < |fs| ==> Explains(input, fs[k]))
            && (forall k, l :: 0 <= k < l < |fs| ==> LexErrors(input)[k].index < LexErrors(input)[l].index)
  {
    TokensFromFacts(input, 0);
    FaultsFromFacts(input, 0);
  }

  /** No rule but the whitespace one applies to a whitespace character. */
  lemma WhiteSpaceIsInert(c: char)
    requires IsWhiteSpace(c)
    ensures Punctuation(c).None? && !IsAsciiDigit(c) && c != '.'
  {
  }

  /** Whitespace yields neither a token nor an error. */
  lemma {:induction false} WhiteSpaceFrom(input: string, i: nat)
    requires i <= |input| && forall k :: i <= k < |input| ==> IsWhiteSpace(input[k])
    ensures TokensFrom(input, i) == [] && FaultsFrom(input, i) == []
    decreases |input| - i
  {
    if i < |input| {
      WhiteSpaceIsInert(input[i]);
      assert ScanAt(input, i) == Scan(i + 1, None, None);
      Unfold(input, i);
      WhiteSpaceFrom(input, i + 1);
    }
  }

  lemma WhiteSpaceOnly(input: string)
    requires forall k :: 0 <= k < |input| ==> IsWhiteSpace(input[k])
    ensures Lexed(input) == [EofAt(|input|)] && LexErrors(input) == []
  {
    WhiteSpaceFrom(input, 0);
  }

  /** Each punctuation character on its own gives one token over [0, 1), then `Eof`. */
  lemma SinglePunctuation(c: char)
    requires Punctuation(c).Some?
    ensures Lexed([c]) == [Token(FixedRange(0, 1), Punctuation(c).value, None), EofAt(1)]
    ensures LexErrors([c]) == []
  {
    assert ScanAt([c], 0) == Scan(1, Some(Token(FixedRange(0, 1), Punctuation(c).value, None)), None);
    Unfold([c], 0);
  }

  /** Any other single character that starts no number gives the error
      "stray `c`" at 0 and no token. */
  lemma SingleStray(c: char)
    requires Punctuation(c).None? && !IsAsciiDigit(c) && !IsWhiteSpace(c)
    ensures Lexed([c]) == [EofAt(1)]
    ensures LexErrors([c]) == [LexerError(0, "stray `" + [c] + "`")]
  {
    assert ScanAt([c], 0) == Scan(1, None, Some(Stray(0, c)));
    Unfold([c], 0);
  }

  lemma StrayAmpersand()
    ensures Lexed("&") == [EofAt(1)] && LexErrors("&") == [LexerError(0, "stray `&`")]
  {
    SingleStray('&');
    assert "stray `" + ['&'] + "`" == "stray `&`";
  }

  /** `decimal.Parse` on the literals of the tests. */
  lemma LeadingZerosValue()
    ensures ParseDecimal("00123.45") == 123.45
  {
    DotIndexAt("00123.45", 5);
    assert "00123.45"[..5] == "00123" && "00123.45"[6..] == "45";
    assert DigitsValue("00123") == 123 by {
      assert "00123"[..4] == "0012" && "0012"[..3] == "001" && "001"[..2] == "00" && "00"[..1] == "0";
    }
    assert DigitsValue("45") == 45 by {
      assert "45"[..1] == "4";
    }
  }

  lemma FractionValue()
    ensures ParseDecimal(".45") == 0.45
  {
    DotIndexAt(".45", 0);
    assert ".45"[..0] == "" && ".45"[1..] == "45";
    assert DigitsValue("45") == 45 by {
      assert "45"[..1] == "4";
    }
    assert DigitsValue("") == 0 && Pow10(2) == 100;
  }

  /** `00123.45` is one literal of value 123.45 over [0, 8). */
  lemma LeadingZerosDecimal()
    ensures Lexed("00123.45") == [Token(FixedRange(0, 8), LitNumber, Some(123.45)), EofAt(8)]
    ensures LexErrors("00123.45") == []
  {
    var input := "00123.45";
    assert DigitsEnd(input, 5) == 5;
    assert DigitsEnd(input, 1) == 5;
    assert DigitsEnd(input, 8) == 8;
    assert DigitsEnd(input, 7) == 8;
    assert ScanDigits(input, 0) == Scan(8, Some(NumberToken(input, 0, 8)), None);
    assert ScanAt(input, 0) == Scan(8, Some(NumberToken(input, 0, 8)), None);
    assert input[0..8] == input;
    LeadingZerosValue();
    Unfold(input, 0);
  }

  /** `.45` is one literal of value 0.45 over [0, 3). */
  lemma FractionOnly()
    ensures Lexed(".45") == [Token(FixedRange(0, 3), LitNumber, Some(0.45)), EofAt(3)]
    ensures LexErrors(".45") == []
  {
    var input := ".45";
    assert DigitsEnd(input, 3) == 3;
    assert DigitsEnd(input, 2) == 3;
    assert ScanAt(input, 0).next == 3 && ScanAt(input, 0).fault == None;
    assert ScanAt(input, 0).token.value == NumberToken(input, 0, 3);
    assert input[0..3] == input;
    FractionValue();
    Unfold(input, 0);
  }

  /** `123..45`: the first `.` has no digit after it, so `123` gives no token
      and the error "expected digit" at 3; `.45` over [4, 7) follows. */
  lemma DoubleDot()
    ensures Lexed("123..45") == [Token(FixedRange(4, 7), LitNumber, Some(0.45)), EofAt(7)]
    ensures LexErrors("123..45") == [LexerError(3, "expected digit")]
  {
    var input := "123..45";
    assert DigitsEnd(input, 1) == 3;
    assert ScanAt(input, 0) == Scan(4, None, Some(MissingDigit(3)));
    assert DigitsEnd(input, 6) == 7;
    assert ScanAt(input, 4) == Scan(7, Some(NumberToken(input, 4, 7)), None);
    assert input[4..7] == ".45";
    FractionValue();
    assert TokensFrom(input, 4) == [NumberToken(input, 4, 7)];
    assert FaultsFrom(input, 4) == [];
  }
}
