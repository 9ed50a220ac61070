/** The character-level scanner (src/Lexing/Lexer.cs), together with the
    token rules shared by the older scanner (src/csharp/Lexing/Lexer.cs).

    The lexical rules are stated once as pure functions of the input
    (`ScanAt`, `TokensFrom`, `ErrorsFrom`); the class `Lexer` keeps the
    source's mutable cursor fields and its `Lex` loop is proved against them. */
module Lexing {
  import opened Wrappers
  import opened FixedRanges
  import opened Tokens
  import opened Errors

  // ---------------------------------------------------------------------
  // Characters

  /** `char.IsAsciiDigit`. */
  predicate IsAsciiDigit(c: char) {
    '0' <= c <= '9'
  }

  /** The characters `char.IsWhiteSpace` accepts: the control characters
      U+0009 to U+000D, U+0085, and the Unicode space, line and paragraph
      separators. */
  const WhiteSpace: set<char> :=
    {'\t', '\n', '\U{000B}', '\U{000C}', '\r', ' ', '\U{0085}', '\U{00A0}', '\U{1680}',
     '\U{2000}', '\U{2001}', '\U{2002}', '\U{2003}', '\U{2004}', '\U{2005}', '\U{2006}',
     '\U{2007}', '\U{2008}', '\U{2009}', '\U{200A}', '\U{2028}', '\U{2029}', '\U{202F}',
     '\U{205F}', '\U{3000}'}

  predicate IsWhiteSpace(c: char) {
    c in WhiteSpace
  }

  /** The one-character tokens of the `switch`. */
  function Punctuation(c: char): (t: Option<TokenType>)
    ensures t.Some? ==> t.value !in {Eof, LitNumber}
  {
    match c
    case ';' => Some(Semi)
    case '+' => Some(Plus)
    case '-' => Some(Minus)
    case '/' => Some(Div)
    case '*' => Some(Mul)
    case '%' => Some(Mod)
    case '(' => Some(LParen)
    case ')' => Some(RParen)
    case _ => None
  }

  /** Whether the character at `p` exists and is a digit (`MatchDigit`'s test). */
  predicate DigitAt(input: string, p: nat) {
    p < |input| && IsAsciiDigit(input[p])
  }

  /** Where `while (MatchDigit()) { }` stops when started at `p`. */
  function DigitsEnd(input: string, p: nat): (q: nat)
    requires p <= |input|
    ensures p <= q <= |input| && !DigitAt(input, q)
    ensures forall k :: p <= k < q ==> IsAsciiDigit(input[k])
    decreases |input| - p
  {
    if DigitAt(input, p) then DigitsEnd(input, p + 1) else p
  }

  // ---------------------------------------------------------------------
  // Decimal literals

  function DigitValue(c: char): nat {
    if IsAsciiDigit(c) then c as int - '0' as int else 0
  }

  /** The value of a digit string, most significant digit first. */
  function DigitsValue(s: string): nat
    decreases |s|
  {
    if |s| == 0 then 0 else 10 * DigitsValue(s[..|s| - 1]) + DigitValue(s[|s| - 1])
  }

  function Pow10(n: nat): (p: nat)
    ensures p >= 1
  {
    if n == 0 then 1 else 10 * Pow10(n - 1)
  }

  /** The index of the first `.`, or the length when there is none. */
  function DotIndex(s: string): (d: nat)
    ensures d <= |s|
    ensures d < |s| ==> s[d] == '.'
    ensures forall k :: 0 <= k < d ==> s[k] != '.'
  {
    if |s| == 0 then 0 else if s[0] == '.' then 0 else 1 + DotIndex(s[1..])
  }

  /** A number lexeme: `digits`, `digits.digits` or `.digits`. */
  predicate NumberLexeme(s: string) {
    var d := DotIndex(s);
    |s| > 0 && (d < |s| ==> d + 1 < |s|)
    && forall k :: 0 <= k < |s| && k != d ==> IsAsciiDigit(s[k])
  }

  /** `decimal.Parse` of a number lexeme, as the exact rational value
      `whole + fraction / 10^|fraction|`. */
  function ParseDecimal(s: string): real {
    var d := DotIndex(s);
    DigitsValue(s[..d]) as real
    + (if d < |s| then DigitsValue(s[d + 1..]) as real / Pow10(|s| - (d + 1)) as real else 0.0)
  }

  // ---------------------------------------------------------------------
  // The lexical rules

  /** Why a character was rejected; the index is the `_i - 1` of `Error`. */
  datatype Fault = MissingDigit(index: nat) | Stray(index: nat, c: char)

  /** What one turn of the `Lex` loop does when it starts at `i`: where the
      next turn starts, the token it yields and the error it raises. */
  datatype Scan = Scan(next: nat, token: Option<Token>, fault: Option<Fault>)

  function NumberToken(input: string, start: nat, end: nat): Token
    requires start <= end <= |input|
  {
    Token(FixedRange(start, end), LitNumber, Some(ParseDecimal(input[start..end])))
  }

  /** A turn that starts on a digit: the integer part, then an optional
      fraction whose `.` must be followed by a digit. */
  function ScanDigits(input: string, i: nat): (s: Scan)
    requires i < |input| && IsAsciiDigit(input[i])
    ensures i < s.next <= |input|
  {
    var j := DigitsEnd(input, i + 1);
    if j < |input| && input[j] == '.' then
      if DigitAt(input, j + 1) then
        var q := DigitsEnd(input, j + 2);
        Scan(q, Some(NumberToken(input, i, q)), None)
      else
        Scan(j + 1, None, Some(MissingDigit(j)))
    else
      Scan(j, Some(NumberToken(input, i, j)), None)
  }

  function ScanAt(input: string, i: nat): (s: Scan)
    requires i < |input|
    ensures i < s.next <= |input|
  {
    var c := input[i];
    match Punctuation(c)
    case Some(t) => Scan(i + 1, Some(Token(FixedRange(i, i + 1), t, None)), None)
    case None =>
      if c == '.' && DigitAt(input, i + 1) then
        var q := DigitsEnd(input, i + 2);
        Scan(q, Some(NumberToken(input, i, q)), None)
      else if IsAsciiDigit(c) then
        ScanDigits(input, i)
      else if IsWhiteSpace(c) then
        Scan(i + 1, None, None)
      else
        Scan(i + 1, None, Some(Stray(i, c)))
  }

  /** The tokens the loop yields from `i` on, before the final `Eof`. */
  function TokensFrom(input: string, i: nat): (ts: seq<Token>)
    requires i <= |input|
    ensures |ts| <= |input| - i
    decreases |input| - i
  {
    if i == |input| then []
    else
      var s := ScanAt(input, i);
      OptionSeq(s.token) + TokensFrom(input, s.next)
  }

  /** The faults the loop meets from `i` on, in order. */
  function FaultsFrom(input: string, i: nat): (fs: seq<Fault>)
    requires i <= |input|
    ensures |fs| <= |input| - i
    decreases |input| - i
  {
    if i == |input| then []
    else
      var s := ScanAt(input, i);
      OptionSeq(s.fault) + FaultsFrom(input, s.next)
  }

  /** The error the newer scanner enqueues for a fault. */
  function ErrorOf(f: Fault): LexerError {
    match f
    case MissingDigit(k) => LexerError(k, "expected digit")
    case Stray(k, c) => LexerError(k, "stray `" + [c] + "`")
  }

  function ErrorsOf(fs: seq<Fault>): (es: seq<LexerError>)
    ensures |es| == |fs| && forall k :: 0 <= k < |fs| ==> es[k] == ErrorOf(fs[k])
  {
    if |fs| == 0 then [] else [ErrorOf(fs[0])] + ErrorsOf(fs[1..])
  }

  /** The newer scanner's `Eof`: `_start` is moved to the end first. */
  function EofAt(n: nat): Token {
    Token(FixedRange(n, n), Eof, None)
  }

  /** The whole output of the newer scanner on `input`. */
  function Lexed(input: string): (ts: seq<Token>)
    ensures 1 <= |ts| <= |input| + 1 && ts[|ts| - 1] == EofAt(|input|)
  {
    TokensFrom(input, 0) + [EofAt(|input|)]
  }

  /** The errors the newer scanner queues on `input`. */
  function LexErrors(input: string): (es: seq<LexerError>)
    ensures |es| <= |input|
  {
    ErrorsOf(FaultsFrom(input, 0))
  }

  // ---------------------------------------------------------------------
  // The scanner object

  class Lexer {
    const input: string
    /** `_errors`, front first. */
    var errors: seq<LexerError>
    var i: nat
    var start: nat

    ghost predicate Valid()
      reads this
    {
      start <= i <= |input|
    }

    constructor(input: string)
      ensures Valid() && this.input == input && i == 0 && start == 0 && errors == []
    {
      this.input := input;
      errors := [];
      i := 0;
      start := 0;
    }

    predicate IsAtEnd()
      reads this
    {
      i >= |input|
    }

    /** `TryGetError`: dequeues the oldest error, if any; an empty queue
        leaves the default `LexerError`, whose `Message` is `null` in the
        source (a `readonly record struct`, src/ParserError.cs:11). Strings
        here cannot be absent, so the model's default has the empty
        message; callers read `error` only when `ok` holds. */
    method TryGetError() returns (ok: bool, error: LexerError)
      modifies this
      ensures ok <==> old(errors) != []
      ensures ok ==> error == old(errors)[0] && errors == old(errors)[1..]
      ensures !ok ==> error == LexerError(0, "") && errors == []
      ensures i == old(i) && start == old(start)
    {
      if errors == [] {
        ok, error := false, LexerError(0, "");
      } else {
        ok, error := true, errors[0];
        errors := errors[1..];
      }
    }

    method Advance() returns (c: char)
      requires Valid() && !IsAtEnd()
      modifies this
      ensures Valid() && c == input[old(i)] && i == old(i) + 1
      ensures start == old(start) && errors == old(errors)
    {
      c := input[i];
      i := i + 1;
    }

    /** `Error`: enqueues an error at the character just consumed. */
    method Error(message: string)
      modifies this
      ensures errors == old(errors) + [LexerError(i - 1, message)]
      ensures i == old(i) && start == old(start)
    {
      errors := errors + [LexerError(i - 1, message)];
    }

    method Match(expected: char) returns (matched: bool)
      requires Valid()
      modifies this
      ensures Valid() && matched == (old(i) < |input| && input[old(i)] == expected)
      ensures i == if matched then old(i) + 1 else old(i)
      ensures start == old(start) && errors == old(errors)
    {
      if IsAtEnd() || input[i] != expected {
        return false;
      }
      i := i + 1;
      return true;
    }

    method MatchDigit() returns (matched: bool)
      requires Valid()
      modifies this
      ensures Valid() && matched == DigitAt(input, old(i))
      ensures i == if matched then old(i) + 1 else old(i)
      ensures start == old(start) && errors == old(errors)
    {
      if IsAtEnd() || !IsAsciiDigit(input[i]) {
        return false;
      }
      i := i + 1;
      return true;
    }

    /** `while (MatchDigit()) { }`. */
    method SkipDigits()
      requires Valid()
      modifies this
      ensures Valid() && i == DigitsEnd(input, old(i))
      ensures start == old(start) && errors == old(errors)
    {
      var more := MatchDigit();
      while more
        invariant Valid() && old(i) <= i && start == old(start) && errors == old(errors)
        invariant DigitsEnd(input, i) == DigitsEnd(input, old(i))
        invariant !more ==> !DigitAt(input, i)
        decreases |input| - i, if more then 1 else 0
      {
        more := MatchDigit();
      }
    }

    function Ok(kind: TokenType): Token
      reads this
    {
      Token(FixedRange(start, i), kind, None)
    }

    function OkDecimal(): Token
      requires Valid()
      reads this
    {
      NumberToken(input, start, i)
    }

    /** The `char.IsAsciiDigit(c)` branch of the `switch`'s default case. */
    method LexDigits() returns (token: Option<Token>)
      requires Valid() && i == start + 1 && IsAsciiDigit(input[start])
      modifies this
      ensures Valid() && start == old(start)
      ensures var s := ScanDigits(input, start);
              i == s.next && token == s.token && errors == old(errors) + ErrorsOf(OptionSeq(s.fault))
    {
      ghost var j := DigitsEnd(input, start + 1);
      SkipDigits();
      assert i == j;
      var dot := Match('.');
      if dot {
        var digit := MatchDigit();
        if digit {
          SkipDigits();
          token := Some(OkDecimal());
        } else {
          Error("expected digit");
          token := None;
          assert ErrorsOf([MissingDigit(j)]) == [LexerError(j, "expected digit")];
        }
      } else {
        SkipDigits();
        token := Some(OkDecimal());
      }
    }

    /** One turn of the `Lex` loop: the body of the `switch`. */
    method LexOne() returns (token: Option<Token>)
      requires Valid() && !IsAtEnd()
      modifies this
      ensures Valid() && start == old(i)
      ensures var s := ScanAt(input, old(i));
              i == s.next && token == s.token && errors == old(errors) + ErrorsOf(OptionSeq(s.fault))
    {
      start := i;
      var c := Advance();
      var p := Punctuation(c);
      if p.Some? {
        return Some(Ok(p.value));
      }
      var dotDigit := false;
      if c == '.' {
        dotDigit := MatchDigit();
      }
      if dotDigit {
        SkipDigits();
        token := Some(OkDecimal());
      } else if IsAsciiDigit(c) {
        token := LexDigits();
      } else if !IsWhiteSpace(c) {
        Error("stray `" + [c] + "`");
        token := None;
      } else {
        token := None;
      }
    }

    /** `Lex`: every token from the cursor on, then `Eof` at the end of the
        input; the errors met on the way are queued in order. */
    method Lex() returns (tokens: seq<Token>)
      requires Valid()
      modifies this
      ensures Valid() && i == |input| && start == |input|
      ensures tokens == TokensFrom(input, old(i)) + [EofAt(|input|)]
      ensures errors == old(errors) + ErrorsOf(FaultsFrom(input, old(i)))
    {
      tokens := [];
      while !IsAtEnd()
        invariant Valid() && old(i) <= i
        invariant tokens + TokensFrom(input, i) == TokensFrom(input, old(i))
        invariant errors + ErrorsOf(FaultsFrom(input, i)) == old(errors) + ErrorsOf(FaultsFrom(input, old(i)))
        decreases |input| - i
      {
        ghost var before := i;
        ghost var toks, errs := tokens, errors;
        var token := LexOne();
        tokens := tokens + OptionSeq(token);
        Unfold(input, before);
        ghost var s := ScanAt(input, before);
        ErrorsOfAppend(OptionSeq(s.fault), FaultsFrom(input, i));
        AppendAssoc(toks, OptionSeq(s.token), TokensFrom(input, i));
        AppendAssoc(errs, ErrorsOf(OptionSeq(s.fault)), ErrorsOf(FaultsFrom(input, i)));
      }
      start := i;
      tokens := tokens + [Ok(Eof)];
    }
  }

  /** One turn of the loop, seen from the functions. */
  lemma Unfold(input: string, i: nat)
    requires i < |input|
    ensures var s := ScanAt(input, i);
            TokensFrom(input, i) == OptionSeq(s.token) + TokensFrom(input, s.next)
            && FaultsFrom(input, i) == OptionSeq(s.fault) + FaultsFrom(input, s.next)
  {
  }

  lemma ErrorsOfAppend(a: seq<Fault>, b: seq<Fault>)
    ensures ErrorsOf(a + b) == ErrorsOf(a) + ErrorsOf(b)
  {
    var l, r := ErrorsOf(a + b), ErrorsOf(a) + ErrorsOf(b);
    forall k | 0 <= k < |l| ensures l[k] == r[k] {
      if k < |a| {
        assert (a + b)[k] == a[k];
      } else {
        assert (a + b)[k] == b[k - |a|];
      }
    }
  }
}
