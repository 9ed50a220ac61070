/** The older primitive parser (class `Parser` of
    src/csharp/Parsing/PrimitiveParser.cs): no groups, no reports, `Eof` is
    an ordinary token, and the statement loop stops at the first statement
    that fails. */
module LegacyPrimitiveParsing {
  import opened Wrappers
  import opened Tokens
  import opened Ast
  import opened Descent

  const Older := Dialect(NoGroups, false)

  /** The statements `Parse` collects from `i`: statements until the end or
      until one fails. */
  function UntilFailure(ts: seq<Token>, i: nat): (body: seq<Stmt>)
    requires i <= |ts| && NumbersCarryValue(ts)
    decreases |ts| - i
  {
    if AtEnd(Older, ts, i) then []
    else
      var s := Statement(Older, ts, i);
      if s.value.None? then [] else [s.value.value] + UntilFailure(ts, s.next)
  }

  /** Where `Parse` leaves the cursor. */
  function StopsAt(ts: seq<Token>, i: nat): (j: nat)
    requires i <= |ts| && NumbersCarryValue(ts)
    ensures i <= j <= |ts|
    decreases |ts| - i
  {
    if AtEnd(Older, ts, i) then i
    else
      var s := Statement(Older, ts, i);
      if s.value.None? then s.next else StopsAt(ts, s.next)
  }

  class Parser {
    const tokens: seq<Token>
    /** The cursor `_i`. */
    var i: nat

    ghost predicate Valid()
      reads this
    {
      i <= |tokens| && NumbersCarryValue(tokens)
    }

    constructor(tokens: seq<Token>)
      requires NumbersCarryValue(tokens)
      ensures Valid() && this.tokens == tokens && i == 0
    {
      this.tokens := tokens;
      i := 0;
    }

    predicate IsAtEnd()
      reads this
    {
      AtEnd(Older, tokens, i)
    }

    /** `Parse`: statements from the cursor until the end or the first
        statement that fails, which is dropped. */
    method Parse() returns (prog: Ast.Prog)
      requires Valid()
      modifies this
      ensures Valid()
      ensures prog == Ast.Prog(UntilFailure(tokens, old(i))) && i == StopsAt(tokens, old(i))
    {
      var body: seq<Ast.Stmt> := [];
      while !IsAtEnd()
        invariant Valid() && old(i) <= i
        invariant body + UntilFailure(tokens, i) == UntilFailure(tokens, old(i))
        invariant StopsAt(tokens, i) == StopsAt(tokens, old(i))
        decreases |tokens| - i
      {
        ghost var before, done := i, body;
        var s := Stmt();
        if s.None? {
          break;
        }
        body := body + [s.value];
        AppendAssoc(done, [s.value], UntilFailure(tokens, i));
      }
      prog := Ast.Prog(body);
    }

    /** `Stmt`: `;` is the empty statement, anything else an expression. */
    method Stmt() returns (s: Option<Ast.Stmt>)
      requires Valid()
      modifies this
      ensures Valid()
      ensures s == Statement(Older, tokens, old(i)).value && i == Statement(Older, tokens, old(i)).next
    {
      var semi := Match(Semi);
      if semi {
        return Some(Nop);
      }
      var e := Expr();
      s := if e.Some? then Some(ExprStmt(e.value)) else None;
    }

    /** `Expr`: products joined by `+` and `-`, grouped to the left. */
    method Expr() returns (e: Option<Ast.Expr>)
      requires Valid()
      modifies this
      ensures Valid()
      ensures e == Chained(Older, tokens, old(i), Sum).value && i == Chained(Older, tokens, old(i), Sum).next
    {
      ghost var whole := Chained(Older, tokens, i, Sum);
      ChainedTurn(Older, tokens, i, Sum);
      var first := ExprMult();
      if first.None? {
        return None;
      }
      var expr := first.value;
      while true
        invariant Valid() && old(i) <= i
        invariant Chain(Older, tokens, i, Sum, expr).value == whole.value
        invariant Chain(Older, tokens, i, Sum, expr).next == whole.next
        decreases |tokens| - i
      {
        ghost var before := i;
        var matched, op := MatchAny({Plus, Minus});
        if !matched {
          assert Chain(Older, tokens, i, Sum, expr) == Out(Some(expr), i, []);
          return Some(expr);
        }
        ChainTurn(Older, tokens, before, Sum, expr);
        var rhs := ExprMult();
        if rhs.None? {
          return None;
        }
        expr := Binary(expr, op, rhs.value);
      }
    }

    /** `ExprMult`: primaries joined by `*`, `/` and `%`, grouped to the left. */
    method ExprMult() returns (e: Option<Ast.Expr>)
      requires Valid()
      modifies this
      ensures Valid()
      ensures e == Chained(Older, tokens, old(i), Product).value && i == Chained(Older, tokens, old(i), Product).next
    {
      ghost var whole := Chained(Older, tokens, i, Product);
      ChainedTurn(Older, tokens, i, Product);
      var first := ExprPrimary();
      if first.None? {
        return None;
      }
      var expr := first.value;
      while true
        invariant Valid() && old(i) <= i
        invariant Chain(Older, tokens, i, Product, expr).value == whole.value
        invariant Chain(Older, tokens, i, Product, expr).next == whole.next
        decreases |tokens| - i
      {
        ghost var before := i;
        var matched, op := MatchAny({Mul, Div, Mod});
        if !matched {
          assert Chain(Older, tokens, i, Product, expr) == Out(Some(expr), i, []);
          return Some(expr);
        }
        ChainTurn(Older, tokens, before, Product, expr);
        var rhs := ExprPrimary();
        if rhs.None? {
          return None;
        }
        expr := Binary(expr, op, rhs.value);
      }
    }

    /** `ExprPrimary`: a number literal, and nothing else. */
    method ExprPrimary() returns (e: Option<Ast.Expr>)
      requires Valid()
      modifies this
      ensures Valid()
      ensures e == Primary(Older, tokens, old(i)).value && i == Primary(Older, tokens, old(i)).next
    {
      var number, value := MatchValue(LitNumber);
      if !number {
        return None;
      }
      return Some(Number(value.value));
    }

    /** `Match(expected, out value)`: also hands out the token's value. */
    method MatchValue(expected: TokenType) returns (matched: bool, value: Option<real>)
      requires Valid()
      modifies this
      ensures Valid() && matched == Accepts(Older, tokens, old(i), {expected})
      ensures i == if matched then old(i) + 1 else old(i)
      ensures value == if matched then tokens[old(i)].payload else None
    {
      if IsAtEnd() || expected != tokens[i].kind {
        return false, None;
      }
      value := tokens[i].payload;
      i := i + 1;
      matched := true;
    }

    /** `Match(expected, out choosen)`: also hands out the type matched, or
        the type's default `Eof` when nothing matched. */
    method MatchAny(expected: set<TokenType>) returns (matched: bool, choosen: TokenType)
      requires Valid()
      modifies this
      ensures Valid() && matched == Accepts(Older, tokens, old(i), expected)
      ensures i == if matched then old(i) + 1 else old(i)
      ensures choosen == if matched then tokens[old(i)].kind else Eof
    {
      if IsAtEnd() || tokens[i].kind !in expected {
        return false, Eof;
      }
      choosen := tokens[i].kind;
      i := i + 1;
      matched := true;
    }

    /** `Match(expected)`. */
    method Match(expected: TokenType) returns (matched: bool)
      requires Valid()
      modifies this
      ensures Valid() && matched == Accepts(Older, tokens, old(i), {expected})
      ensures i == if matched then old(i) + 1 else old(i)
    {
      if IsAtEnd() || expected != tokens[i].kind {
        return false;
      }
      i := i + 1;
      return true;
    }
  }
}
