/** The helpful cursor parser (src/Parsing/HelpfulParser.cs): the ladder of
    `Descent` with a group that keeps its inner expression when `)` is
    missing, reporting each failure point as a `ParserError`.

    Its base class is not part of this model; it is taken to hold the cursor
    `I`, to be at end past the last token or on `Eof`, and to report
    `ParserError(I, subject, expected)` from `Error`. */
module HelpfulParsing {
  import opened Wrappers
  import opened Tokens
  import opened Ast
  import opened Errors
  import opened Descent

  const Helpful := Dialect(KeepInner, true)

  /** The error `ExprPrimary` reports for a failure point. */
  function ErrorFor(a: Attempt): ParserError {
    match a.what
    case MissingOperand => ParserError(a.index, "expression", {LitNumber, LParen})
    case MissingRParen => ParserError(a.index, "braced group", {RParen})
  }

  /** The errors reported for a run of failure points, in order. */
  function ErrorsFor(attempts: seq<Attempt>): (es: seq<ParserError>)
    ensures |es| == |attempts|
  {
    if |attempts| == 0 then [] else [ErrorFor(attempts[0])] + ErrorsFor(attempts[1..])
  }

  lemma {:induction false} ErrorsForAt(attempts: seq<Attempt>)
    ensures forall k :: 0 <= k < |attempts| ==> ErrorsFor(attempts)[k] == ErrorFor(attempts[k])
    decreases |attempts|
  {
    if |attempts| > 0 {
      ErrorsForAt(attempts[1..]);
    }
  }

  lemma ErrorsForAppend(a: seq<Attempt>, b: seq<Attempt>)
    ensures ErrorsFor(a + b) == ErrorsFor(a) + ErrorsFor(b)
  {
    var l, r := ErrorsFor(a + b), ErrorsFor(a) + ErrorsFor(b);
    ErrorsForAt(a + b);
    ErrorsForAt(a);
    ErrorsForAt(b);
    forall k | 0 <= k < |l| ensures l[k] == r[k] {
      if k < |a| {
        assert (a + b)[k] == a[k];
      } else {
        assert (a + b)[k] == b[k - |a|];
      }
    }
  }

  class HelpfulParser {
    var tokens: seq<Token>
    /** The cursor `I`. */
    var i: nat
    /** The errors handed to `reportError`, in order. */
    var reported: seq<ParserError>

    ghost predicate Valid()
      reads this
    {
      i <= |tokens| && NumbersCarryValue(tokens)
    }

    constructor()
      ensures tokens == [] && i == 0 && reported == []
    {
      tokens := [];
      i := 0;
      reported := [];
    }

    /** `Parse`: store the tokens, rewind the cursor and parse a program. */
    method Parse(ts: seq<Token>) returns (prog: Ast.Prog)
      requires NumbersCarryValue(ts)
      modifies this
      ensures Valid() && tokens == ts
      ensures prog == Ast.Prog(Synchronized(Helpful, ts, 0).body)
      ensures i == Synchronized(Helpful, ts, 0).next
      ensures reported == old(reported) + ErrorsFor(Synchronized(Helpful, ts, 0).attempts)
    {
      tokens := ts;
      i := 0;
      prog := Prog();
    }

    predicate IsAtEnd()
      reads this
    {
      AtEnd(Helpful, tokens, i)
    }

    method Error(subject: string, expected: set<TokenType>)
      modifies this
      ensures reported == old(reported) + [ParserError(i, subject, expected)]
      ensures tokens == old(tokens) && i == old(i)
    {
      reported := reported + [ParserError(i, subject, expected)];
    }

    /** `Match(expected)`. */
    method Match(expected: TokenType) returns (matched: bool)
      requires Valid()
      modifies this
      ensures Valid() && matched == Accepts(Helpful, tokens, old(i), {expected})
      ensures i == if matched then old(i) + 1 else old(i)
      ensures tokens == old(tokens) && reported == old(reported)
    {
      if IsAtEnd() || expected != tokens[i].kind {
        return false;
      }
      i := i + 1;
      return true;
    }

    /** `Match(expected, out value)`: also hands out the token's value. */
    method MatchValue(expected: TokenType) returns (matched: bool, value: Option<real>)
      requires Valid()
      modifies this
      ensures Valid() && matched == Accepts(Helpful, tokens, old(i), {expected})
      ensures i == if matched then old(i) + 1 else old(i)
      ensures value == if matched then tokens[old(i)].payload else None
      ensures tokens == old(tokens) && reported == old(reported)
    {
      if IsAtEnd() || expected != tokens[i].kind {
        return false, None;
      }
      value := tokens[i].payload;
      i := i + 1;
      matched := true;
    }

    /** `Match(expected, out choosen)`: also hands out the type matched, or
        the type's default `Eof` when nothing matched. */
    method MatchAny(expected: set<TokenType>) returns (matched: bool, choosen: TokenType)
      requires Valid()
      modifies this
      ensures Valid() && matched == Accepts(Helpful, tokens, old(i), expected)
      ensures i == if matched then old(i) + 1 else old(i)
      ensures choosen == if matched then tokens[old(i)].kind else Eof
      ensures tokens == old(tokens) && reported == old(reported)
    {
      if IsAtEnd() || tokens[i].kind !in expected {
        return false, Eof;
      }
      choosen := tokens[i].kind;
      i := i + 1;
      matched := true;
    }

    /** `Prog`: statements until the end; a statement that failed without
        reading anything skips one token. */
    method Prog() returns (prog: Ast.Prog)
      requires Valid()
      modifies this
      ensures Valid() && tokens == old(tokens)
      ensures prog == Ast.Prog(Synchronized(Helpful, tokens, old(i)).body)
      ensures i == Synchronized(Helpful, tokens, old(i)).next
      ensures reported == old(reported) + ErrorsFor(Synchronized(Helpful, tokens, old(i)).attempts)
    {
      ghost var ts := tokens;
      ghost var whole := Synchronized(Helpful, ts, i);
      var body: seq<Ast.Stmt> := [];
      while !IsAtEnd()
        invariant Valid() && tokens == ts
        invariant body + Synchronized(Helpful, ts, i).body == whole.body
        invariant Synchronized(Helpful, ts, i).next == whole.next
        invariant reported + ErrorsFor(Synchronized(Helpful, ts, i).attempts)
                  == old(reported) + ErrorsFor(whole.attempts)
        decreases |ts| - i
      {
        ghost var before, done, said := i, body, reported;
        ghost var st := Statement(Helpful, ts, i);
        var iStart := i;
        var s := Stmt();
        if s.Some? {
          body := body + [s.value];
        } else if iStart == i {
          i := i + 1;
        }
        ghost var rest := Synchronized(Helpful, ts, i);
        SynchronizedTurn(Helpful, ts, before);
        assert i == Resync(st, before);
        assert body == done + OptionSeq(st.value);
        AppendAssoc(done, OptionSeq(st.value), rest.body);
        ErrorsForAppend(st.attempts, rest.attempts);
        AppendAssoc(said, ErrorsFor(st.attempts), ErrorsFor(rest.attempts));
      }
      prog := Ast.Prog(body);
    }

    /** `Stmt`: `;` is the empty statement, anything else an expression. */
    method Stmt() returns (s: Option<Ast.Stmt>)
      requires Valid()
      modifies this
      ensures Valid() && tokens == old(tokens)
      ensures s == Statement(Helpful, tokens, old(i)).value && i == Statement(Helpful, tokens, old(i)).next
      ensures reported == old(reported) + ErrorsFor(Statement(Helpful, tokens, old(i)).attempts)
      decreases |tokens| - i, 7
    {
      var semi := Match(Semi);
      if semi {
        return Some(Nop);
      }
      var e := Expr();
      s := if e.Some? then Some(ExprStmt(e.value)) else None;
    }

    /** `Expr`: a sum of products. */
    method Expr() returns (e: Option<Ast.Expr>)
      requires Valid()
      modifies this
      ensures Valid() && tokens == old(tokens)
      ensures e == Chained(Helpful, tokens, old(i), Sum).value && i == Chained(Helpful, tokens, old(i), Sum).next
      ensures reported == old(reported) + ErrorsFor(Chained(Helpful, tokens, old(i), Sum).attempts)
      decreases |tokens| - i, 6
    {
      e := BinaryLeftAssociative(Sum);
    }

    /** `ExprMult`: a product of primaries. */
    method ExprMult() returns (e: Option<Ast.Expr>)
      requires Valid()
      modifies this
      ensures Valid() && tokens == old(tokens)
      ensures e == Chained(Helpful, tokens, old(i), Product).value && i == Chained(Helpful, tokens, old(i), Product).next
      ensures reported == old(reported) + ErrorsFor(Chained(Helpful, tokens, old(i), Product).attempts)
      decreases |tokens| - i, 3
    {
      e := BinaryLeftAssociative(Product);
    }

    /** `ExprPrimary`: a number, or a braced group whose `)` is tried in any
        case; a missing `)` is reported only after a good inner expression,
        which is returned all the same. */
    method ExprPrimary() returns (e: Option<Ast.Expr>)
      requires Valid()
      modifies this
      ensures Valid() && tokens == old(tokens)
      ensures e == Primary(Helpful, tokens, old(i)).value && i == Primary(Helpful, tokens, old(i)).next
      ensures reported == old(reported) + ErrorsFor(Primary(Helpful, tokens, old(i)).attempts)
      decreases |tokens| - i, 0
    {
      ghost var whole := Primary(Helpful, tokens, i);
      var number, value := MatchValue(LitNumber);
      if number {
        return Some(Number(value.value));
      }
      var open := Match(LParen);
      if open {
        ghost var inner := Chained(Helpful, tokens, i, Sum);
        var expr := Expr();
        var closed := Match(RParen);
        if !closed && expr.Some? {
          assert whole == Out(inner.value, inner.next, inner.attempts + [Attempt(inner.next, MissingRParen)]);
          Error("braced group", {RParen});
          ErrorsForAppend(inner.attempts, [Attempt(inner.next, MissingRParen)]);
        } else {
          assert whole == Out(inner.value, i, inner.attempts + []);
          assert inner.attempts + [] == inner.attempts;
        }
        return expr;
      }
      assert whole == Out(None, i, [Attempt(i, MissingOperand)]);
      Error("expression", {LitNumber, LParen});
      return None;
    }

    /** `ParseExprBinaryLeftAssociative`, the operand being `ExprMult` for a
        sum and `ExprPrimary` for a product. */
    method BinaryLeftAssociative(level: Level) returns (e: Option<Ast.Expr>)
      requires Valid()
      modifies this
      ensures Valid() && tokens == old(tokens)
      ensures e == Chained(Helpful, tokens, old(i), level).value && i == Chained(Helpful, tokens, old(i), level).next
      ensures reported == old(reported) + ErrorsFor(Chained(Helpful, tokens, old(i), level).attempts)
      decreases |tokens| - i, if level == Sum then 5 else 2
    {
      ghost var ts := tokens;
      ghost var whole := Chained(Helpful, ts, i, level);
      ghost var lead := Descent.Operand(Helpful, ts, i, level);
      ChainedTurn(Helpful, ts, i, level);
      var first := Operand(level);
      if first.None? {
        assert whole == lead;
        return None;
      }
      var expr := first.value;
      ErrorsForAppend(lead.attempts, Chain(Helpful, ts, i, level, expr).attempts);
      AppendAssoc(old(reported), ErrorsFor(lead.attempts), ErrorsFor(Chain(Helpful, ts, i, level, expr).attempts));
      while true
        invariant Valid() && tokens == ts && old(i) <= i
        invariant Chain(Helpful, ts, i, level, expr).value == whole.value
        invariant Chain(Helpful, ts, i, level, expr).next == whole.next
        invariant reported + ErrorsFor(Chain(Helpful, ts, i, level, expr).attempts)
                  == old(reported) + ErrorsFor(whole.attempts)
        decreases |ts| - i
      {
        ghost var before, said := i, reported;
        var matched, op := MatchAny(Operators(level));
        if !matched {
          assert Chain(Helpful, ts, i, level, expr) == Out(Some(expr), i, []);
          assert whole.value == Some(expr) && whole.next == i;
          assert reported == old(reported) + ErrorsFor(whole.attempts);
          return Some(expr);
        }
        assert i == before + 1;
        ghost var r := Descent.Operand(Helpful, tokens, i, level);
        ChainTurn(Helpful, ts, before, level, expr);
        var rhs := Operand(level);
        assert i == r.next && rhs == r.value && reported == said + ErrorsFor(r.attempts);
        if rhs.None? {
          assert Chain(Helpful, ts, before, level, expr) == Out(None, r.next, r.attempts);
          assert whole.value == None && whole.next == i;
          assert reported == old(reported) + ErrorsFor(whole.attempts);
          return None;
        }
        assert op == ts[before].kind;
        ghost var rest := Chain(Helpful, ts, i, level, Binary(expr, op, rhs.value));
        assert Chain(Helpful, ts, before, level, expr) == Out(rest.value, rest.next, r.attempts + rest.attempts);
        ErrorsForAppend(r.attempts, rest.attempts);
        AppendAssoc(said, ErrorsFor(r.attempts), ErrorsFor(rest.attempts));
        expr := Binary(expr, op, rhs.value);
      }
    }

    /** The `operand` delegate: `ExprMult` for a sum, `ExprPrimary` for a product. */
    method Operand(level: Level) returns (e: Option<Ast.Expr>)
      requires Valid()
      modifies this
      ensures Valid() && tokens == old(tokens)
      ensures e == Descent.Operand(Helpful, tokens, old(i), level).value
      ensures i == Descent.Operand(Helpful, tokens, old(i), level).next
      ensures reported == old(reported) + ErrorsFor(Descent.Operand(Helpful, tokens, old(i), level).attempts)
      decreases |tokens| - i, if level == Sum then 4 else 1
    {
      if level == Sum {
        e := ExprMult();
      } else {
        e := ExprPrimary();
      }
    }
  }
}
