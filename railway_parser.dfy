/** The railway-oriented parser (src/Parsing/RailwayParser.cs): the grammar
    written as a recipe of `One`, `First` and `ZeroOrMore`, each run on the
    shared cursor. It reports nothing; a failed statement is dropped.

    Its base class is not part of this model; it is taken to hold the token
    list and the cursor `I`, like the base of the primitive parser. */
module RailwayParsing {
  import opened Wrappers
  import opened Tokens
  import opened Ast
  import opened Rails

  class RailwayParser {
    var tokens: seq<Token>
    /** The cursor `I`. */
    var i: nat

    ghost predicate Valid()
      reads this
    {
      i <= |tokens| && NumbersCarryValue(tokens)
    }

    constructor()
      ensures tokens == [] && i == 0
    {
      tokens := [];
      i := 0;
    }

    /** `Parse`: store the tokens, rewind the cursor and parse a program. */
    method Parse(ts: seq<Token>) returns (prog: Ast.Prog)
      requires NumbersCarryValue(ts)
      modifies this
      ensures Valid() && tokens == ts
      ensures prog == Ast.Prog(StatementsFrom(ts, 0)) && i == StatementsEnd(ts, 0)
    {
      tokens := ts;
      i := 0;
      prog := Prog();
    }

    predicate IsAtEnd()
      reads this
    {
      AtEnd(tokens, i)
    }

    /** `Prog`: zero or more statements. */
    method Prog() returns (prog: Ast.Prog)
      requires Valid()
      modifies this
      ensures Valid() && tokens == old(tokens)
      ensures prog == Ast.Prog(StatementsFrom(tokens, old(i))) && i == StatementsEnd(tokens, old(i))
    {
      var _, body := ZeroOrMore();
      prog := Ast.Prog(body);
    }

    /** `ZeroOrMore(Stmt)`: statements until the end, in order; a statement
        that fails without reading anything skips one token. It always
        succeeds. */
    method ZeroOrMore() returns (ok: bool, result: seq<Ast.Stmt>)
      requires Valid()
      modifies this
      ensures Valid() && tokens == old(tokens)
      ensures ok && result == StatementsFrom(tokens, old(i)) && i == StatementsEnd(tokens, old(i))
    {
      ghost var ts := tokens;
      ghost var whole := StatementsFrom(ts, i);
      ghost var end := StatementsEnd(ts, i);
      result := [];
      while !IsAtEnd()
        invariant Valid() && tokens == ts
        invariant result + StatementsFrom(ts, i) == whole
        invariant StatementsEnd(ts, i) == end
        decreases |ts| - i
      {
        ghost var before, done := i, result;
        ghost var st := StatementAt(ts, i);
        var iStart := i;
        var s := Stmt();
        if s.None? {
          if iStart == i {
            i := i + 1;
          }
        } else {
          result := result + [s.value];
        }
        assert i == Resync(st, before);
        assert result == done + OptionSeq(st.value);
        AppendAssoc(done, OptionSeq(st.value), StatementsFrom(ts, i));
      }
      ok := true;
    }

    /** `Stmt`: `;` is the empty statement, anything else an expression. */
    method Stmt() returns (s: Option<Ast.Stmt>)
      requires Valid()
      modifies this
      ensures Valid() && tokens == old(tokens)
      ensures s == StatementAt(tokens, old(i)).value && i == StatementAt(tokens, old(i)).next
      decreases |tokens| - i, 7, 0
    {
      var semi := One(Semi);
      if semi {
        return Some(Nop);
      }
      var e := Expr();
      s := if e.Some? then Some(ExprStmt(e.value)) else None;
    }

    /** `Expr`: the first of a number and a grouping. */
    method Expr() returns (e: Option<Ast.Expr>)
      requires Valid()
      modifies this
      ensures Valid() && tokens == old(tokens)
      ensures e == ExprAt(tokens, old(i)).value && i == ExprAt(tokens, old(i)).next
      decreases |tokens| - i, 5, 0
    {
      var found, expr := First(ExprRules);
      e := if found then expr else None;
    }

    /** `Grouping`: `(`, an expression and `)`; the value only when all
        three are there. */
    method Grouping() returns (e: Option<Ast.Expr>)
      requires Valid()
      modifies this
      ensures Valid() && tokens == old(tokens)
      ensures e == GroupingAt(tokens, old(i)).value && i == GroupingAt(tokens, old(i)).next
      decreases |tokens| - i, 2, 0
    {
      var open := One(LParen);
      if !open {
        return None;
      }
      var ok, expr := OneOf();
      if !ok {
        return None;
      }
      var closed := One(RParen);
      e := if closed then expr else None;
    }

    /** `Number`: a number literal. */
    method Number() returns (e: Option<Ast.Expr>)
      requires Valid()
      modifies this
      ensures Valid() && tokens == old(tokens)
      ensures e == NumberAt(tokens, old(i)).value && i == NumberAt(tokens, old(i)).next
      decreases |tokens| - i, 0, 0
    {
      var number, value := OneValue(LitNumber);
      e := if number then Some(Ast.Number(value.value)) else None;
    }

    /** `First`: run the productions in order, each from where the previous
        one left the cursor, and stop at the first that gives a value. */
    method First(rules: seq<Rule>) returns (found: bool, result: Option<Ast.Expr>)
      requires Valid()
      modifies this
      ensures Valid() && tokens == old(tokens)
      ensures result == FirstAt(rules, tokens, old(i)).value && i == FirstAt(rules, tokens, old(i)).next
      ensures found == result.Some?
      decreases |tokens| - i, 4, |rules|
    {
      ghost var ts := tokens;
      ghost var whole := FirstAt(rules, ts, i);
      var k := 0;
      while k < |rules|
        invariant 0 <= k <= |rules| && Valid() && tokens == ts && old(i) <= i
        invariant FirstAt(rules[k..], ts, i) == whole
        decreases |rules| - k
      {
        ghost var here := FirstAt(rules[k..], ts, i);
        assert rules[k..][1..] == rules[k + 1..];
        var r := Run(rules[k]);
        if r.Some? {
          assert here == whole;
          return true, r;
        }
        k := k + 1;
      }
      return false, None;
    }

    /** A call of the production a rule names, as `First` makes it. */
    method Run(rule: Rule) returns (e: Option<Ast.Expr>)
      requires Valid()
      modifies this
      ensures Valid() && tokens == old(tokens)
      ensures e == RunAt(rule, tokens, old(i)).value && i == RunAt(rule, tokens, old(i)).next
      decreases |tokens| - i, 3, 0
    {
      match rule
      case NumberRule =>
        e := Number();
      case GroupingRule =>
        e := Grouping();
    }

    /** `One(Expr, out result)`: run `Expr` and tell whether it gave a value. */
    method OneOf() returns (ok: bool, result: Option<Ast.Expr>)
      requires Valid()
      modifies this
      ensures Valid() && tokens == old(tokens)
      ensures result == ExprAt(tokens, old(i)).value && i == ExprAt(tokens, old(i)).next
      ensures ok == result.Some?
      decreases |tokens| - i, 6, 0
    {
      result := Expr();
      ok := result.Some?;
    }

    /** `One(expected, out value)`: also hands out the token's value. */
    method OneValue(expected: TokenType) returns (matched: bool, value: Option<real>)
      requires Valid()
      modifies this
      ensures Valid() && tokens == old(tokens) && matched == Accepts(tokens, old(i), {expected})
      ensures i == if matched then old(i) + 1 else old(i)
      ensures value == if matched then tokens[old(i)].payload else None
    {
      if IsAtEnd() || expected != tokens[i].kind {
        return false, None;
      }
      value := tokens[i].payload;
      i := i + 1;
      matched := true;
    }

    /** `One(expected, out choosen)`: also hands out the type matched, or
        the type's default `Eof` when nothing matched. */
    method OneAny(expected: set<TokenType>) returns (matched: bool, choosen: TokenType)
      requires Valid()
      modifies this
      ensures Valid() && tokens == old(tokens) && matched == Accepts(tokens, old(i), expected)
      ensures i == if matched then old(i) + 1 else old(i)
      ensures choosen == if matched then tokens[old(i)].kind else Eof
    {
      if IsAtEnd() || tokens[i].kind !in expected {
        return false, Eof;
      }
      choosen := tokens[i].kind;
      i := i + 1;
      matched := true;
    }

    /** `One(expected)`. */
    method One(expected: TokenType) returns (matched: bool)
      requires Valid()
      modifies this
      ensures Valid() && tokens == old(tokens) && matched == Accepts(tokens, old(i), {expected})
      ensures i == if matched then old(i) + 1 else old(i)
    {
      if IsAtEnd() || expected != tokens[i].kind {
        return false;
      }
      i := i + 1;
      return true;
    }
  }
}
