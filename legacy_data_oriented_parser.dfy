/** The older data-oriented parser (src/csharp/Parsing/DataOrientedParser.cs):
    the railway grammar of `Rails` on the cursor `_i` of its base class, an
    error reporter it never calls, and the first pieces of a data-oriented
    design (`Production`, `ParseResult`) that nothing uses yet. */
module LegacyDataOriented {
  import opened Wrappers
  import opened Tokens
  import opened Ast
  import opened Rails
  import LegacyHelpfulParsing

  /** The private `Result` struct: a value, or the tokens that were expected. */
  datatype Outcome<T> = Outcome(hasValue: bool, value: Option<T>, expected: Option<seq<Token>>)

  /** The nullability annotations of `Result`: `Value` is set exactly when
      `HasValue`, `Expected` exactly when not. */
  predicate OutcomeShaped<T>(o: Outcome<T>) {
    (o.hasValue <==> o.value.Some?) && (o.hasValue <==> o.expected.None?)
  }

  /** `Ok`. */
  function Success<T>(value: T): (r: Outcome<T>)
    ensures OutcomeShaped(r) && r.hasValue && r.value == Some(value)
  {
    Outcome(true, Some(value), None)
  }

  /** `Fail`. */
  function Failure<T>(expected: seq<Token>): (r: Outcome<T>)
    ensures OutcomeShaped(r) && !r.hasValue && r.expected == Some(expected)
  {
    Outcome(false, None, Some(expected))
  }

  /** The `Production` interface: a name and the token types a production
      may start with. */
  datatype ProductionInfo = ProductionInfo(name: string, head: set<TokenType>)

  /** `ParseResult<T>`: the number of tokens read, and either a value or the
      production that failed and the token it failed at. */
  datatype ParseResult<T> = ParseResult(
    read: int, hasValue: bool, value: Option<T>,
    parser: Option<ProductionInfo>, failedAt: Option<Token>)

  /** The nullability annotations of `ParseResult`: `Value` when `HasValue`,
      `Parser` and `FailedAt` when not. */
  predicate ResultShaped<T>(r: ParseResult<T>) {
    (r.hasValue <==> r.value.Some?) && (!r.hasValue <==> r.parser.Some? && r.failedAt.Some?)
  }

  /** `ParseResult.Ok`. */
  function ResultOk<T>(read: int, value: T): (r: ParseResult<T>)
    ensures ResultShaped(r) && r.hasValue && r.read == read && r.value == Some(value)
  {
    ParseResult(read, true, Some(value), None, None)
  }

  /** `ParseResult.Fail`. */
  function ResultFail<T>(read: int, parser: ProductionInfo, failedAt: Token): (r: ParseResult<T>)
    ensures ResultShaped(r) && !r.hasValue && r.read == read
    ensures r.parser == Some(parser) && r.failedAt == Some(failedAt)
  {
    ParseResult(read, false, None, Some(parser), Some(failedAt))
  }

  /** `Production<T>`: a name, a head set and the `Runner` that parses what
      follows the head token. */
  datatype Production<T> = Production(name: string, head: set<TokenType>, run: (Token, int) -> ParseResult<T>)

  /** `Production.Parse`: the runner's result counting the head token too,
      or, when the head token's type is not in the head set, a failure that
      read nothing, naming this production and that token. */
  function RunProduction<T>(p: Production<T>, head: Token, iStart: int): (r: ParseResult<T>)
    ensures head.kind in p.head ==>
      var inner := p.run(head, iStart);
      r.read == inner.read + 1 && r.hasValue == inner.hasValue && r.value == inner.value
      && r.parser == inner.parser && r.failedAt == inner.failedAt
    ensures head.kind !in p.head ==>
      r == ResultFail(0, ProductionInfo(p.name, p.head), head)
  {
    if head.kind in p.head then
      var r := p.run(head, iStart);
      r.(read := 1 + r.read)
    else
      ResultFail(0, ProductionInfo(p.name, p.head), head)
  }

  /** A production has read at least one token exactly when it accepted its
      head, given a runner that never reports a negative count. */
  lemma ProductionReadsHead<T>(p: Production<T>, head: Token, iStart: int)
    requires p.run(head, iStart).read >= 0
    ensures RunProduction(p, head, iStart).read >= 1 <==> head.kind in p.head
    ensures RunProduction(p, head, iStart).read == 0 <==> head.kind !in p.head
  {
  }

  /** The runner is not called on a head outside the head set: two
      productions that differ only in their runners fail alike there. */
  lemma RunnerNotCalledOffHead<T>(p: Production<T>, q: Production<T>, head: Token, iStart: int)
    requires p.name == q.name && p.head == q.head && head.kind !in p.head
    ensures RunProduction(p, head, iStart) == RunProduction(q, head, iStart)
  {
  }

  /** `Parse` keeps the nullability annotations of what its runner returns. */
  lemma ProductionKeepsShape<T>(p: Production<T>, head: Token, iStart: int)
    requires ResultShaped(p.run(head, iStart))
    ensures ResultShaped(RunProduction(p, head, iStart))
  {
  }

  class DataOrientedParser {
    var tokens: seq<Token>
    /** The cursor `_i`. */
    var i: nat
    /** `_iLastError`. */
    var lastError: int
    /** The calls of the `ErrorReporter` delegate so far. */
    var reported: seq<LegacyHelpfulParsing.Report>

    ghost predicate Valid()
      reads this
    {
      i <= |tokens| && NumbersCarryValue(tokens)
    }

    constructor()
      ensures tokens == [] && i == 0 && lastError == -1 && reported == []
    {
      tokens := [];
      i := 0;
      lastError := -1;
      reported := [];
    }

    /** The base class's `Parse(tokens)`: store the tokens, rewind the cursor
        and parse a program. */
    method Parse(ts: seq<Token>) returns (prog: Ast.Prog)
      requires NumbersCarryValue(ts)
      modifies this
      ensures Valid() && tokens == ts
      ensures prog == Ast.Prog(StatementsFrom(ts, 0)) && i == StatementsEnd(ts, 0)
      ensures reported == old(reported) && lastError == old(lastError)
    {
      tokens := ts;
      i := 0;
      prog := Prog();
    }

    /** `Parse()`: a program from wherever the cursor is, over the tokens
        already stored. */
    method Resume() returns (prog: Ast.Prog)
      requires Valid()
      modifies this
      ensures Valid() && tokens == old(tokens)
      ensures prog == Ast.Prog(StatementsFrom(tokens, old(i))) && i == StatementsEnd(tokens, old(i))
      ensures reported == old(reported) && lastError == old(lastError)
    {
      prog := Prog();
    }

    predicate IsAtEnd()
      reads this
    {
      AtEnd(tokens, i)
    }

    /** `Error`: report at the cursor unless the last report was there. */
    method Error(message: string)
      modifies this
      ensures lastError == i
      ensures reported == old(reported) + (if old(lastError) == i then [] else [LegacyHelpfulParsing.Report(i, message)])
      ensures tokens == old(tokens) && i == old(i)
    {
      if lastError != i {
        lastError := i;
        reported := reported + [LegacyHelpfulParsing.Report(i, message)];
      }
    }

    /** `Prog`: zero or more statements. */
    method Prog() returns (prog: Ast.Prog)
      requires Valid()
      modifies this
      ensures Valid() && tokens == old(tokens)
      ensures prog == Ast.Prog(StatementsFrom(tokens, old(i))) && i == StatementsEnd(tokens, old(i))
      ensures reported == old(reported) && lastError == old(lastError)
    {
      var _, body := ZeroOrMore();
      prog := Ast.Prog(body);
    }

    /** `ZeroOrMore(Stmt)`: statements until the end, in order; a statement
        that fails without reading anything skips one token. It always
        succeeds. */
    method ZeroOrMore() returns (ok: bool, result: seq<Ast.Stmt>)
      requires Valid()
      modifies this
      ensures Valid() && tokens == old(tokens)
      ensures ok && result == StatementsFrom(tokens, old(i)) && i == StatementsEnd(tokens, old(i))
      ensures reported == old(reported) && lastError == old(lastError)
    {
      ghost var ts := tokens;
      ghost var whole := StatementsFrom(ts, i);
      ghost var end := StatementsEnd(ts, i);
      result := [];
      while !IsAtEnd()
        invariant Valid() && tokens == ts
        invariant reported == old(reported) && lastError == old(lastError)
        invariant result + StatementsFrom(ts, i) == whole
        invariant StatementsEnd(ts, i) == end
        decreases |ts| - i
      {
        ghost var before, done := i, result;
        ghost var st := StatementAt(ts, i);
        var iStart := i;
        var s := Stmt();
        if s.None? {
          if iStart == i {
            i := i + 1;
          }
        } else {
          result := result + [s.value];
        }
        assert i == Resync(st, before);
        assert result == done + OptionSeq(st.value);
        AppendAssoc(done, OptionSeq(st.value), StatementsFrom(ts, i));
      }
      ok := true;
    }

    /** `Stmt`: `;` is the empty statement, anything else an expression. */
    method Stmt() returns (s: Option<Ast.Stmt>)
      requires Valid()
      modifies this
      ensures Valid() && tokens == old(tokens)
      ensures s == StatementAt(tokens, old(i)).value && i == StatementAt(tokens, old(i)).next
      ensures reported == old(reported) && lastError == old(lastError)
      decreases |tokens| - i, 7, 0
    {
      var semi := One(Semi);
      if semi {
        return Some(Nop);
      }
      var e := Expr();
      s := if e.Some? then Some(ExprStmt(e.value)) else None;
    }

    /** `Expr`: the first of a number and a grouping. */
    method Expr() returns (e: Option<Ast.Expr>)
      requires Valid()
      modifies this
      ensures Valid() && tokens == old(tokens)
      ensures e == ExprAt(tokens, old(i)).value && i == ExprAt(tokens, old(i)).next
      ensures reported == old(reported) && lastError == old(lastError)
      decreases |tokens| - i, 5, 0
    {
      var found, expr := First(ExprRules);
      e := if found then expr else None;
    }

    /** `Grouping`: `(`, an expression and `)`; the value only when all
        three are there. */
    method Grouping() returns (e: Option<Ast.Expr>)
      requires Valid()
      modifies this
      ensures Valid() && tokens == old(tokens)
      ensures e == GroupingAt(tokens, old(i)).value && i == GroupingAt(tokens, old(i)).next
      ensures reported == old(reported) && lastError == old(lastError)
      decreases |tokens| - i, 2, 0
    {
      var open := One(LParen);
      if !open {
        return None;
      }
      var ok, expr := OneOf();
      if !ok {
        return None;
      }
      var closed := One(RParen);
      e := if closed then expr else None;
    }

    /** `Number`: a number literal. */
    method Number() returns (e: Option<Ast.Expr>)
      requires Valid()
      modifies this
      ensures Valid() && tokens == old(tokens)
      ensures e == NumberAt(tokens, old(i)).value && i == NumberAt(tokens, old(i)).next
      ensures reported == old(reported) && lastError == old(lastError)
      decreases |tokens| - i, 0, 0
    {
      var number, value := OneValue(LitNumber);
      e := if number then Some(Ast.Number(value.value)) else None;
    }

    /** `First`: run the productions in order, each from where the previous
        one left the cursor, and stop at the first that gives a value. */
    method First(rules: seq<Rule>) returns (found: bool, result: Option<Ast.Expr>)
      requires Valid()
      modifies this
      ensures Valid() && tokens == old(tokens)
      ensures result == FirstAt(rules, tokens, old(i)).value && i == FirstAt(rules, tokens, old(i)).next
      ensures found == result.Some?
      ensures reported == old(reported) && lastError == old(lastError)
      decreases |tokens| - i, 4, |rules|
    {
      ghost var ts := tokens;
      ghost var whole := FirstAt(rules, ts, i);
      var k := 0;
      while k < |rules|
        invariant 0 <= k <= |rules| && Valid() && tokens == ts && old(i) <= i
        invariant reported == old(reported) && lastError == old(lastError)
        invariant FirstAt(rules[k..], ts, i) == whole
        decreases |rules| - k
      {
        ghost var here := FirstAt(rules[k..], ts, i);
        assert rules[k..][1..] == rules[k + 1..];
        var r := Run(rules[k]);
        if r.Some? {
          assert here == whole;
          return true, r;
        }
        k := k + 1;
      }
      return false, None;
    }

    /** A call of the production a rule names, as `First` makes it. */
    method Run(rule: Rule) returns (e: Option<Ast.Expr>)
      requires Valid()
      modifies this
      ensures Valid() && tokens == old(tokens)
      ensures e == RunAt(rule, tokens, old(i)).value && i == RunAt(rule, tokens, old(i)).next
      ensures reported == old(reported) && lastError == old(lastError)
      decreases |tokens| - i, 3, 0
    {
      match rule
      case NumberRule =>
        e := Number();
      case GroupingRule =>
        e := Grouping();
    }

    /** `One(Expr, out result)`: run `Expr` and tell whether it gave a value. */
    method OneOf() returns (ok: bool, result: Option<Ast.Expr>)
      requires Valid()
      modifies this
      ensures Valid() && tokens == old(tokens)
      ensures result == ExprAt(tokens, old(i)).value && i == ExprAt(tokens, old(i)).next
      ensures ok == result.Some?
      ensures reported == old(reported) && lastError == old(lastError)
      decreases |tokens| - i, 6, 0
    {
      result := Expr();
      ok := result.Some?;
    }

    /** `One(expected, out value)`: also hands out the token's value. */
    method OneValue(expected: TokenType) returns (matched: bool, value: Option<real>)
      requires Valid()
      modifies this
      ensures Valid() && tokens == old(tokens) && matched == Accepts(tokens, old(i), {expected})
      ensures i == if matched then old(i) + 1 else old(i)
      ensures value == if matched then tokens[old(i)].payload else None
      ensures reported == old(reported) && lastError == old(lastError)
    {
      if IsAtEnd() || expected != tokens[i].kind {
        return false, None;
      }
      value := tokens[i].payload;
      i := i + 1;
      matched := true;
    }

    /** `One(expected, out choosen)`, on an array of types: also hands out
        the type matched, or the type's default `Eof` when nothing matched. */
    method OneAny(expected: seq<TokenType>) returns (matched: bool, choosen: TokenType)
      requires Valid()
      modifies this
      ensures Valid() && tokens == old(tokens)
      ensures matched == (!AtEnd(tokens, old(i)) && tokens[old(i)].kind in expected)
      ensures i == if matched then old(i) + 1 else old(i)
      ensures choosen == if matched then tokens[old(i)].kind else Eof
      ensures reported == old(reported) && lastError == old(lastError)
    {
      if IsAtEnd() || tokens[i].kind !in expected {
        return false, Eof;
      }
      choosen := tokens[i].kind;
      i := i + 1;
      matched := true;
    }

    /** `One(expected)`. */
    method One(expected: TokenType) returns (matched: bool)
      requires Valid()
      modifies this
      ensures Valid() && tokens == old(tokens) && matched == Accepts(tokens, old(i), {expected})
      ensures i == if matched then old(i) + 1 else old(i)
      ensures reported == old(reported) && lastError == old(lastError)
    {
      if IsAtEnd() || expected != tokens[i].kind {
        return false;
      }
      i := i + 1;
      return true;
    }
  }
}
