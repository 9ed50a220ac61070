/** The primitive cursor parser (src/Parsing/PrimitiveParser.cs): the ladder
    of `Descent` with a group that fails, silently, when `)` is missing. It
    reports nothing; a failed statement is dropped.

    Its statement loop has no forward-progress guard: a statement that fails
    without reading anything leaves the cursor where it was, and the loop
    repeats for ever (`StrayParenStalls`). The class below closes that gap
    with the helpful parser's one-token skip, which changes nothing on the
    inputs where the original loop halts (`GuardAgreesWhenHalting`).

    Its base class is not part of this model; it is taken to hold the cursor
    `I` and to be at end past the last token or on `Eof`. */
module PrimitiveParsing {
  import opened Wrappers
  import opened Tokens
  import opened Ast
  import opened Descent

  const Primitive := Dialect(DropInner, true)

  /** Whether the source's statement loop, started at `i`, reaches the end:
      every turn must read at least one token, since a turn that reads none
      is repeated unchanged. */
  predicate UnguardedHalts(d: Dialect, ts: seq<Token>, i: nat)
    requires i <= |ts| && NumbersCarryValue(ts)
    decreases |ts| - i
  {
    AtEnd(d, ts, i)
    || (Statement(d, ts, i).next > i && UnguardedHalts(d, ts, Statement(d, ts, i).next))
  }

  /** The statements the source's loop collects from `i`, where it halts. */
  function Unguarded(d: Dialect, ts: seq<Token>, i: nat): (body: seq<Stmt>)
    requires i <= |ts| && NumbersCarryValue(ts) && UnguardedHalts(d, ts, i)
    ensures |body| <= |ts| - i
    decreases |ts| - i
  {
    if AtEnd(d, ts, i) then []
    else OptionSeq(Statement(d, ts, i).value) + Unguarded(d, ts, Statement(d, ts, i).next)
  }

  /** On `)` the source's loop never ends: the statement fails without
      reading the `)`, so the turn leaves the cursor at 0 and the body empty,
      and the next turn is the same. */
  lemma StrayParenStalls(extent: Token, eof: Token)
    requires extent.kind == RParen && eof.kind == Eof
    ensures var ts := [extent, eof];
            !AtEnd(Primitive, ts, 0) && Statement(Primitive, ts, 0) == Out(None, 0, [Attempt(0, MissingOperand)])
            && !UnguardedHalts(Primitive, ts, 0)
  {
    var ts := [extent, eof];
    assert Primary(Primitive, ts, 0) == Out(None, 0, [Attempt(0, MissingOperand)]);
    assert Chained(Primitive, ts, 0, Product) == Out(None, 0, [Attempt(0, MissingOperand)]);
    assert Chained(Primitive, ts, 0, Sum) == Out(None, 0, [Attempt(0, MissingOperand)]);
  }

  /** Where the source's loop halts, the guarded loop collects the same
      statements and stops at the same place: the guard only acts on a turn
      that would repeat for ever. */
  lemma {:induction false} GuardAgreesWhenHalting(d: Dialect, ts: seq<Token>, i: nat)
    requires i <= |ts| && NumbersCarryValue(ts) && UnguardedHalts(d, ts, i)
    ensures Synchronized(d, ts, i).body == Unguarded(d, ts, i)
    decreases |ts| - i
  {
    if !AtEnd(d, ts, i) {
      var s := Statement(d, ts, i);
      assert Resync(s, i) == s.next;
      SynchronizedTurn(d, ts, i);
      GuardAgreesWhenHalting(d, ts, s.next);
    }
  }

  class PrimitiveParser {
    var tokens: seq<Token>
    /** The cursor `I`. */
    var i: nat

    ghost predicate Valid()
      reads this
    {
      i <= |tokens| && NumbersCarryValue(tokens)
    }

    constructor()
      ensures tokens == [] && i == 0
    {
      tokens := [];
      i := 0;
    }

    /** `Parse`: store the tokens, rewind the cursor and parse a program. */
    method Parse(ts: seq<Token>) returns (prog: Ast.Prog)
      requires NumbersCarryValue(ts)
      modifies this
      ensures Valid() && tokens == ts
      ensures prog == Ast.Prog(Synchronized(Primitive, ts, 0).body)
      ensures i == Synchronized(Primitive, ts, 0).next
    {
      tokens := ts;
      i := 0;
      prog := Prog();
    }

    predicate IsAtEnd()
      reads this
    {
      AtEnd(Primitive, tokens, i)
    }

    /** `Match(expected)`. */
    method Match(expected: TokenType) returns (matched: bool)
      requires Valid()
      modifies this
      ensures Valid() && matched == Accepts(Primitive, tokens, old(i), {expected})
      ensures i == if matched then old(i) + 1 else old(i)
      ensures tokens == old(tokens)
    {
      if IsAtEnd() || expected != tokens[i].kind {
        return false;
      }
      i := i + 1;
      return true;
    }

    /** `Match(expected, out value)`: also hands out the token's value. */
    method MatchValue(expected: TokenType) returns (matched: bool, value: Option<real>)
      requires Valid()
      modifies this
      ensures Valid() && matched == Accepts(Primitive, tokens, old(i), {expected})
      ensures i == if matched then old(i) + 1 else old(i)
      ensures value == if matched then tokens[old(i)].payload else None
      ensures tokens == old(tokens)
    {
      if IsAtEnd() || expected != tokens[i].kind {
        return false, None;
      }
      value := tokens[i].payload;
      i := i + 1;
      matched := true;
    }

    /** `Match(expected, out choosen)`: also hands out the type matched, or
        the type's default `Eof` when nothing matched. */
    method MatchAny(expected: set<TokenType>) returns (matched: bool, choosen: TokenType)
      requires Valid()
      modifies this
      ensures Valid() && matched == Accepts(Primitive, tokens, old(i), expected)
      ensures i == if matched then old(i) + 1 else old(i)
      ensures choosen == if matched then tokens[old(i)].kind else Eof
      ensures tokens == old(tokens)
    {
      if IsAtEnd() || tokens[i].kind !in expected {
        return false, Eof;
      }
      choosen := tokens[i].kind;
      i := i + 1;
      matched := true;
    }

    /** `Prog`, with the one-token skip after a statement that failed without
        reading anything; without it the loop does not terminate on such a
        statement (`StrayParenStalls`). */
    method Prog() returns (prog: Ast.Prog)
      requires Valid()
      modifies this
      ensures Valid() && tokens == old(tokens)
      ensures prog == Ast.Prog(Synchronized(Primitive, tokens, old(i)).body)
      ensures i == Synchronized(Primitive, tokens, old(i)).next
    {
      ghost var ts := tokens;
      ghost var whole := Synchronized(Primitive, ts, i);
      var body: seq<Ast.Stmt> := [];
      while !IsAtEnd()
        invariant Valid() && tokens == ts
        invariant body + Synchronized(Primitive, ts, i).body == whole.body
        invariant Synchronized(Primitive, ts, i).next == whole.next
        decreases |ts| - i
      {
        ghost var before, done := i, body;
        ghost var st := Statement(Primitive, ts, i);
        var iStart := i;
        var s := Stmt();
        if s.Some? {
          body := body + [s.value];
        } else if iStart == i {
          i := i + 1;
        }
        ghost var rest := Synchronized(Primitive, ts, i);
        SynchronizedTurn(Primitive, ts, before);
        assert i == Resync(st, before);
        assert body == done + OptionSeq(st.value);
        AppendAssoc(done, OptionSeq(st.value), rest.body);
      }
      prog := Ast.Prog(body);
    }

    /** `Stmt`: `;` is the empty statement, anything else an expression. */
    method Stmt() returns (s: Option<Ast.Stmt>)
      requires Valid()
      modifies this
      ensures Valid() && tokens == old(tokens)
      ensures s == Statement(Primitive, tokens, old(i)).value && i == Statement(Primitive, tokens, old(i)).next
      decreases |tokens| - i, 7
    {
      var semi := Match(Semi);
      if semi {
        return Some(Nop);
      }
      var e := Expr();
      s := if e.Some? then Some(ExprStmt(e.value)) else None;
    }

    /** `Expr`: a sum of products. */
    method Expr() returns (e: Option<Ast.Expr>)
      requires Valid()
      modifies this
      ensures Valid() && tokens == old(tokens)
      ensures e == Chained(Primitive, tokens, old(i), Sum).value && i == Chained(Primitive, tokens, old(i), Sum).next
      decreases |tokens| - i, 6
    {
      e := BinaryLeftAssociative(Sum);
    }

    /** `ExprMult`: a product of primaries. */
    method ExprMult() returns (e: Option<Ast.Expr>)
      requires Valid()
      modifies this
      ensures Valid() && tokens == old(tokens)
      ensures e == Chained(Primitive, tokens, old(i), Product).value && i == Chained(Primitive, tokens, old(i), Product).next
      decreases |tokens| - i, 3
    {
      e := BinaryLeftAssociative(Product);
    }

    /** `ExprPrimary`: a number, or a braced group, which fails when its `)`
        is missing. */
    method ExprPrimary() returns (e: Option<Ast.Expr>)
      requires Valid()
      modifies this
      ensures Valid() && tokens == old(tokens)
      ensures e == Primary(Primitive, tokens, old(i)).value && i == Primary(Primitive, tokens, old(i)).next
      decreases |tokens| - i, 0
    {
      var number, value := MatchValue(LitNumber);
      if number {
        return Some(Number(value.value));
      }
      var open := Match(LParen);
      if open {
        var expr := Expr();
        var closed := Match(RParen);
        return if !closed then None else expr;
      }
      return None;
    }

    /** `ParseExprBinaryLeftAssociative`, the operand being `ExprMult` for a
        sum and `ExprPrimary` for a product. */
    method BinaryLeftAssociative(level: Level) returns (e: Option<Ast.Expr>)
      requires Valid()
      modifies this
      ensures Valid() && tokens == old(tokens)
      ensures e == Chained(Primitive, tokens, old(i), level).value && i == Chained(Primitive, tokens, old(i), level).next
      decreases |tokens| - i, if level == Sum then 5 else 2
    {
      ghost var ts := tokens;
      ghost var whole := Chained(Primitive, ts, i, level);
      ghost var lead := Descent.Operand(Primitive, ts, i, level);
      ChainedTurn(Primitive, ts, i, level);
      var first := Operand(level);
      if first.None? {
        assert whole == lead;
        return None;
      }
      var expr := first.value;
      while true
        invariant Valid() && tokens == ts && old(i) <= i
        invariant Chain(Primitive, ts, i, level, expr).value == whole.value
        invariant Chain(Primitive, ts, i, level, expr).next == whole.next
        decreases |ts| - i
      {
        ghost var before := i;
        var matched, op := MatchAny(Operators(level));
        if !matched {
          assert Chain(Primitive, ts, i, level, expr) == Out(Some(expr), i, []);
          return Some(expr);
        }
        assert i == before + 1;
        ghost var r := Descent.Operand(Primitive, tokens, i, level);
        ChainTurn(Primitive, ts, before, level, expr);
        var rhs := Operand(level);
        assert i == r.next && rhs == r.value;
        if rhs.None? {
          return None;
        }
        assert op == ts[before].kind;
        expr := Binary(expr, op, rhs.value);
      }
    }

    /** The `operand` delegate: `ExprMult` for a sum, `ExprPrimary` for a product. */
    method Operand(level: Level) returns (e: Option<Ast.Expr>)
      requires Valid()
      modifies this
      ensures Valid() && tokens == old(tokens)
      ensures e == Descent.Operand(Primitive, tokens, old(i), level).value
      ensures i == Descent.Operand(Primitive, tokens, old(i), level).next
      decreases |tokens| - i, if level == Sum then 4 else 1
    {
      if level == Sum {
        e := ExprMult();
      } else {
        e := ExprPrimary();
      }
    }
  }
}
