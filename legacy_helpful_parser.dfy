/** The older helpful parser (src/csharp/Parsing/HelpfulParser.cs, on the
    base class of src/Parsing/Parser.cs): the ladder of `Descent` with a
    group that reports a missing `)` and fails, reporting each failure point
    as a token index and a message, but never twice in a row at the same
    index (`_iLastError`). */
module LegacyHelpfulParsing {
  import opened Wrappers
  import opened Tokens
  import opened Ast
  import opened Descent

  const Legacy := Dialect(ReportMissing, true)

  /** A call of the `ErrorReporter` delegate. */
  datatype Report = Report(tokenIndex: int, message: string)

  /** The message `ExprPrimary` gives for a failure point. */
  function MessageFor(what: Missing): string {
    match what
    case MissingOperand => "Expected number or '('"
    case MissingRParen => "Expected ')'"
  }

  /** What `Error` lets through of a run of failure points, `last` being
      `_iLastError` before them: a failure point at the index of the one
      before it (or at `last`, for the first) is dropped. */
  function Reports(attempts: seq<Attempt>, last: int): (rs: seq<Report>)
    ensures |rs| <= |attempts|
    ensures |rs| > 0 ==> rs[0].tokenIndex != last
    decreases |attempts|
  {
    if |attempts| == 0 then []
    else
      var a := attempts[0];
      (if a.index == last then [] else [Report(a.index, MessageFor(a.what))])
      + Reports(attempts[1..], a.index)
  }

  /** `_iLastError` after a run of failure points. */
  function LastAfter(attempts: seq<Attempt>, last: int): int {
    if |attempts| == 0 then last else attempts[|attempts| - 1].index
  }

  lemma {:induction false} ReportsAppend(a: seq<Attempt>, b: seq<Attempt>, last: int)
    ensures Reports(a + b, last) == Reports(a, last) + Reports(b, LastAfter(a, last))
    decreases |a|
  {
    if |a| > 0 {
      assert (a + b)[0] == a[0] && (a + b)[1..] == a[1..] + b;
      ReportsAppend(a[1..], b, a[0].index);
      assert LastAfter(a[1..], a[0].index) == LastAfter(a, last);
      var head := if a[0].index == last then [] else [Report(a[0].index, MessageFor(a[0].what))];
      AppendAssoc(head, Reports(a[1..], a[0].index), Reports(b, LastAfter(a, last)));
    } else {
      assert a + b == b;
    }
  }

  lemma LastAfterAppend(a: seq<Attempt>, b: seq<Attempt>, last: int)
    ensures LastAfter(a + b, last) == LastAfter(b, LastAfter(a, last))
  {
    if |b| > 0 {
      assert (a + b)[|a + b| - 1] == b[|b| - 1];
    } else {
      assert a + b == a;
    }
  }

  class LegacyHelpfulParser {
    var tokens: seq<Token>
    /** The cursor `_i`. */
    var i: nat
    var lastError: int
    /** The calls of `reportError`, in order. */
    var reported: seq<Report>

    ghost predicate Valid()
      reads this
    {
      i <= |tokens| && NumbersCarryValue(tokens)
    }

    constructor()
      ensures tokens == [] && i == 0 && lastError == -1 && reported == []
    {
      tokens := [];
      i := 0;
      lastError := -1;
      reported := [];
    }

    /** `Parse` of the base class: store the tokens, rewind the cursor and
        parse a program. `_iLastError` is kept from any earlier run, so a
        first failure at the index of the previous run's last report is
        dropped (`SecondRunDropsError`). */
    method Parse(ts: seq<Token>) returns (prog: Ast.Prog)
      requires NumbersCarryValue(ts)
      modifies this
      ensures Valid() && tokens == ts
      ensures prog == Ast.Prog(Synchronized(Legacy, ts, 0).body)
      ensures i == Synchronized(Legacy, ts, 0).next
      ensures reported == old(reported) + Reports(Synchronized(Legacy, ts, 0).attempts, old(lastError))
      ensures lastError == LastAfter(Synchronized(Legacy, ts, 0).attempts, old(lastError))
    {
      tokens := ts;
      i := 0;
      prog := Prog();
    }

    /** `Parse` as evidently intended: `_iLastError` is reset with the
        cursor, so a run's reports depend on its tokens alone. */
    method ParseAnew(ts: seq<Token>) returns (prog: Ast.Prog)
      requires NumbersCarryValue(ts)
      modifies this
      ensures Valid() && tokens == ts
      ensures prog == Ast.Prog(Synchronized(Legacy, ts, 0).body)
      ensures i == Synchronized(Legacy, ts, 0).next
      ensures reported == old(reported) + Reports(Synchronized(Legacy, ts, 0).attempts, -1)
      ensures lastError == LastAfter(Synchronized(Legacy, ts, 0).attempts, -1)
    {
      tokens := ts;
      i := 0;
      lastError := -1;
      prog := Prog();
    }

    predicate IsAtEnd()
      reads this
    {
      AtEnd(Legacy, tokens, i)
    }

    /** `Error`: report at the cursor unless the last report was there. */
    method Error(message: string)
      modifies this
      ensures lastError == i
      ensures reported == old(reported) + (if old(lastError) == i then [] else [Report(i, message)])
      ensures tokens == old(tokens) && i == old(i)
    {
      if lastError != i {
        lastError := i;
        reported := reported + [Report(i, message)];
      }
    }

    /** `Match(expected)`. */
    method Match(expected: TokenType) returns (matched: bool)
      requires Valid()
      modifies this
      ensures Valid() && matched == Accepts(Legacy, tokens, old(i), {expected})
      ensures i == if matched then old(i) + 1 else old(i)
      ensures tokens == old(tokens) && reported == old(reported) && lastError == old(lastError)
    {
      if IsAtEnd() || expected != tokens[i].kind {
        return false;
      }
      i := i + 1;
      return true;
    }

    /** `Match(expected, out value)`: also hands out the token's value. */
    method MatchValue(expected: TokenType) returns (matched: bool, value: Option<real>)
      requires Valid()
      modifies this
      ensures Valid() && matched == Accepts(Legacy, tokens, old(i), {expected})
      ensures i == if matched then old(i) + 1 else old(i)
      ensures value == if matched then tokens[old(i)].payload else None
      ensures tokens == old(tokens) && reported == old(reported) && lastError == old(lastError)
    {
      if IsAtEnd() || expected != tokens[i].kind {
        return false, None;
      }
      value := tokens[i].payload;
      i := i + 1;
      matched := true;
    }

    /** `Match(expected, out choosen)`: also hands out the type matched, or
        the type's default `Eof` when nothing matched. */
    method MatchAny(expected: set<TokenType>) returns (matched: bool, choosen: TokenType)
      requires Valid()
      modifies this
      ensures Valid() && matched == Accepts(Legacy, tokens, old(i), expected)
      ensures i == if matched then old(i) + 1 else old(i)
      ensures choosen == if matched then tokens[old(i)].kind else Eof
      ensures tokens == old(tokens) && reported == old(reported) && lastError == old(lastError)
    {
      if IsAtEnd() || tokens[i].kind !in expected {
        return false, Eof;
      }
      choosen := tokens[i].kind;
      i := i + 1;
      matched := true;
    }

    /** `Prog`: statements until the end; a statement that failed without
        reading anything skips one token. */
    method Prog() returns (prog: Ast.Prog)
      requires Valid()
      modifies this
      ensures Valid() && tokens == old(tokens)
      ensures prog == Ast.Prog(Synchronized(Legacy, tokens, old(i)).body)
      ensures i == Synchronized(Legacy, tokens, old(i)).next
      ensures reported == old(reported) + Reports(Synchronized(Legacy, tokens, old(i)).attempts, old(lastError))
      ensures lastError == LastAfter(Synchronized(Legacy, tokens, old(i)).attempts, old(lastError))
    {
      ghost var ts := tokens;
      ghost var whole := Synchronized(Legacy, ts, i);
      var body: seq<Ast.Stmt> := [];
      while !IsAtEnd()
        invariant Valid() && tokens == ts
        invariant body + Synchronized(Legacy, ts, i).body == whole.body
        invariant Synchronized(Legacy, ts, i).next == whole.next
        invariant reported + Reports(Synchronized(Legacy, ts, i).attempts, lastError)
                  == old(reported) + Reports(whole.attempts, old(lastError))
        invariant LastAfter(Synchronized(Legacy, ts, i).attempts, lastError) == LastAfter(whole.attempts, old(lastError))
        decreases |ts| - i
      {
        ghost var before, done, said, last := i, body, reported, lastError;
        ghost var st := Statement(Legacy, ts, i);
        var iStart := i;
        var s := Stmt();
        if s.Some? {
          body := body + [s.value];
        } else if iStart == i {
          i := i + 1;
        }
        ghost var rest := Synchronized(Legacy, ts, i);
        SynchronizedTurn(Legacy, ts, before);
        assert i == Resync(st, before);
        assert body == done + OptionSeq(st.value);
        AppendAssoc(done, OptionSeq(st.value), rest.body);
        ReportsAppend(st.attempts, rest.attempts, last);
        LastAfterAppend(st.attempts, rest.attempts, last);
        AppendAssoc(said, Reports(st.attempts, last), Reports(rest.attempts, lastError));
      }
      prog := Ast.Prog(body);
    }

    /** `Stmt`: `;` is the empty statement, anything else an expression. */
    method Stmt() returns (s: Option<Ast.Stmt>)
      requires Valid()
      modifies this
      ensures Valid() && tokens == old(tokens)
      ensures s == Statement(Legacy, tokens, old(i)).value && i == Statement(Legacy, tokens, old(i)).next
      ensures reported == old(reported) + Reports(Statement(Legacy, tokens, old(i)).attempts, old(lastError))
      ensures lastError == LastAfter(Statement(Legacy, tokens, old(i)).attempts, old(lastError))
      decreases |tokens| - i, 7
    {
      var semi := Match(Semi);
      if semi {
        return Some(Nop);
      }
      var e := Expr();
      s := if e.Some? then Some(ExprStmt(e.value)) else None;
    }

    /** `Expr`: a sum of products. */
    method Expr() returns (e: Option<Ast.Expr>)
      requires Valid()
      modifies this
      ensures Valid() && tokens == old(tokens)
      ensures e == Chained(Legacy, tokens, old(i), Sum).value && i == Chained(Legacy, tokens, old(i), Sum).next
      ensures reported == old(reported) + Reports(Chained(Legacy, tokens, old(i), Sum).attempts, old(lastError))
      ensures lastError == LastAfter(Chained(Legacy, tokens, old(i), Sum).attempts, old(lastError))
      decreases |tokens| - i, 6
    {
      e := BinaryLeftAssociative(Sum);
    }

    /** `ExprMult`: a product of primaries. */
    method ExprMult() returns (e: Option<Ast.Expr>)
      requires Valid()
      modifies this
      ensures Valid() && tokens == old(tokens)
      ensures e == Chained(Legacy, tokens, old(i), Product).value && i == Chained(Legacy, tokens, old(i), Product).next
      ensures reported == old(reported) + Reports(Chained(Legacy, tokens, old(i), Product).attempts, old(lastError))
      ensures lastError == LastAfter(Chained(Legacy, tokens, old(i), Product).attempts, old(lastError))
      decreases |tokens| - i, 3
    {
      e := BinaryLeftAssociative(Product);
    }

    /** `ExprPrimary`: a number, or a braced group; `)` is tried only after
        a good inner expression, and its absence is reported and fails the
        group. Anything else is reported. */
    method ExprPrimary() returns (e: Option<Ast.Expr>)
      requires Valid()
      modifies this
      ensures Valid() && tokens == old(tokens)
      ensures e == Primary(Legacy, tokens, old(i)).value && i == Primary(Legacy, tokens, old(i)).next
      ensures reported == old(reported) + Reports(Primary(Legacy, tokens, old(i)).attempts, old(lastError))
      ensures lastError == LastAfter(Primary(Legacy, tokens, old(i)).attempts, old(lastError))
      decreases |tokens| - i, 0
    {
      var number, value := MatchValue(LitNumber);
      if number {
        return Some(Number(value.value));
      }
      var open := Match(LParen);
      if open {
        ghost var inner := Chained(Legacy, tokens, i, Sum);
        var expr := Expr();
        if expr.None? {
          return None;
        }
        ghost var last := lastError;
        var closed := Match(RParen);
        if closed {
          return expr;
        }
        Error("Expected ')'");
        ReportsAppend(inner.attempts, [Attempt(i, MissingRParen)], old(lastError));
        LastAfterAppend(inner.attempts, [Attempt(i, MissingRParen)], old(lastError));
      } else {
        Error("Expected number or '('");
      }
      return None;
    }

    /** `ParseExprBinaryLeftAssociative`, the operand being `ExprMult` for a
        sum and `ExprPrimary` for a product. */
    method BinaryLeftAssociative(level: Level) returns (e: Option<Ast.Expr>)
      requires Valid()
      modifies this
      ensures Valid() && tokens == old(tokens)
      ensures e == Chained(Legacy, tokens, old(i), level).value && i == Chained(Legacy, tokens, old(i), level).next
      ensures reported == old(reported) + Reports(Chained(Legacy, tokens, old(i), level).attempts, old(lastError))
      ensures lastError == LastAfter(Chained(Legacy, tokens, old(i), level).attempts, old(lastError))
      decreases |tokens| - i, if level == Sum then 5 else 2
    {
      ghost var ts := tokens;
      ghost var whole := Chained(Legacy, ts, i, level);
      ghost var lead := Descent.Operand(Legacy, ts, i, level);
      ChainedTurn(Legacy, ts, i, level);
      var first := Operand(level);
      if first.None? {
        assert whole == lead;
        return None;
      }
      var expr := first.value;
      ReportsAppend(lead.attempts, Chain(Legacy, ts, i, level, expr).attempts, old(lastError));
      LastAfterAppend(lead.attempts, Chain(Legacy, ts, i, level, expr).attempts, old(lastError));
      AppendAssoc(old(reported), Reports(lead.attempts, old(lastError)), Reports(Chain(Legacy, ts, i, level, expr).attempts, lastError));
      while true
        invariant Valid() && tokens == ts && old(i) <= i
        invariant Chain(Legacy, ts, i, level, expr).value == whole.value
        invariant Chain(Legacy, ts, i, level, expr).next == whole.next
        invariant reported + Reports(Chain(Legacy, ts, i, level, expr).attempts, lastError)
                  == old(reported) + Reports(whole.attempts, old(lastError))
        invariant LastAfter(Chain(Legacy, ts, i, level, expr).attempts, lastError) == LastAfter(whole.attempts, old(lastError))
        decreases |ts| - i
      {
        ghost var before, said, last := i, reported, lastError;
        var matched, op := MatchAny(Operators(level));
        if !matched {
          assert Chain(Legacy, ts, i, level, expr) == Out(Some(expr), i, []);
          assert whole.value == Some(expr) && whole.next == i;
          return Some(expr);
        }
        assert i == before + 1;
        ghost var r := Descent.Operand(Legacy, tokens, i, level);
        ChainTurn(Legacy, ts, before, level, expr);
        var rhs := Operand(level);
        assert i == r.next && rhs == r.value && reported == said + Reports(r.attempts, last);
        if rhs.None? {
          assert Chain(Legacy, ts, before, level, expr) == Out(None, r.next, r.attempts);
          assert whole.value == None && whole.next == i;
          return None;
        }
        assert op == ts[before].kind;
        ghost var rest := Chain(Legacy, ts, i, level, Binary(expr, op, rhs.value));
        assert Chain(Legacy, ts, before, level, expr) == Out(rest.value, rest.next, r.attempts + rest.attempts);
        ReportsAppend(r.attempts, rest.attempts, last);
        LastAfterAppend(r.attempts, rest.attempts, last);
        AppendAssoc(said, Reports(r.attempts, last), Reports(rest.attempts, lastError));
        expr := Binary(expr, op, rhs.value);
      }
    }

    /** The `operand` delegate: `ExprMult` for a sum, `ExprPrimary` for a product. */
    method Operand(level: Level) returns (e: Option<Ast.Expr>)
      requires Valid()
      modifies this
      ensures Valid() && tokens == old(tokens)
      ensures e == Descent.Operand(Legacy, tokens, old(i), level).value
      ensures i == Descent.Operand(Legacy, tokens, old(i), level).next
      ensures reported == old(reported) + Reports(Descent.Operand(Legacy, tokens, old(i), level).attempts, old(lastError))
      ensures lastError == LastAfter(Descent.Operand(Legacy, tokens, old(i), level).attempts, old(lastError))
      decreases |tokens| - i, if level == Sum then 4 else 1
    {
      if level == Sum {
        e := ExprMult();
      } else {
        e := ExprPrimary();
      }
    }
  }
}
