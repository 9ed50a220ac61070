/** What the railway grammar accepts: an expression is a number in any
    number of matching parentheses, and its value is that number. */
module RailsProperties {
  import opened Wrappers
  import opened Tokens
  import opened Ast
  import opened Rails
  import opened DescentPrinting

  /** `v` inside `depth` pairs of parentheses. */
  function Nest(depth: nat, v: real): (p: seq<Lexeme>)
    ensures |p| == 2 * depth + 1
  {
    if depth == 0 then [Lexeme(LitNumber, Some(v))]
    else [Lexeme(LParen, None)] + Nest(depth - 1, v) + [Lexeme(RParen, None)]
  }

  /** Every nesting of a number reads back as that number, the cursor
      after the last `)`. */
  lemma {:induction false} NestReads(ts: seq<Token>, i: nat, depth: nat, v: real)
    requires i <= |ts| && NumbersCarryValue(ts) && Reads(ts, i, Nest(depth, v))
    ensures ExprAt(ts, i) == Parsed(Some(Number(v)), i + 2 * depth + 1)
    decreases depth
  {
    var p := Nest(depth, v);
    ReadsAt(ts, i, p, 0);
    ExprChooses(ts, i);
    if depth > 0 {
      var inner := Nest(depth - 1, v);
      ReadsSplit(ts, i, [Lexeme(LParen, None)] + inner, [Lexeme(RParen, None)]);
      ReadsSplit(ts, i, [Lexeme(LParen, None)], inner);
      NestReads(ts, i + 1, depth - 1, v);
      ReadsAt(ts, i + 1 + |inner|, [Lexeme(RParen, None)], 0);
      assert GroupingAt(ts, i) == Parsed(Some(Number(v)), i + 2 * depth + 1);
    }
  }

  /** And nothing else gives a value: a value the grammar produces is a
      number, read from a nesting of it. */
  lemma {:induction false} ExprShape(ts: seq<Token>, i: nat) returns (depth: nat)
    requires i <= |ts| && NumbersCarryValue(ts) && ExprAt(ts, i).value.Some?
    ensures ExprAt(ts, i).value.value.Number?
    ensures Reads(ts, i, Nest(depth, ExprAt(ts, i).value.value.value))
    ensures ExprAt(ts, i).next == i + 2 * depth + 1
    decreases |ts| - i
  {
    ExprChooses(ts, i);
    if Accepts(ts, i, {LitNumber}) {
      depth := 0;
      assert Reads(ts, i, Nest(0, ts[i].payload.value));
    } else {
      var inner := ExprAt(ts, i + 1);
      var rest := ExprShape(ts, i + 1);
      depth := rest + 1;
      var v := inner.value.value.value;
      var p := Nest(depth, v);
      assert p == [Lexeme(LParen, None)] + Nest(rest, v) + [Lexeme(RParen, None)];
      forall k | 0 <= k < |p|
        ensures ts[i + k].kind == p[k].kind && (p[k].kind == LitNumber ==> ts[i + k].payload == p[k].payload)
      {
        if 0 < k < |p| - 1 {
          assert p[k] == Nest(rest, v)[k - 1];
          ReadsAt(ts, i + 1, Nest(rest, v), k - 1);
        }
      }
    }
  }

  /** `Expr` is `Number` on a number literal and `Grouping` otherwise:
      `First` tries the grouping only after a number that read nothing. */
  lemma ExprChooses(ts: seq<Token>, i: nat)
    requires i <= |ts| && NumbersCarryValue(ts)
    ensures ExprAt(ts, i) == if Accepts(ts, i, {LitNumber}) then NumberAt(ts, i) else GroupingAt(ts, i)
  {
    assert ExprRules[0] == NumberRule && ExprRules[1..] == [GroupingRule];
    assert RunAt(NumberRule, ts, i) == NumberAt(ts, i);
    if !Accepts(ts, i, {LitNumber}) {
      assert FirstAt(ExprRules, ts, i) == FirstAt([GroupingRule], ts, i);
      var g := GroupingAt(ts, i);
      assert RunAt(GroupingRule, ts, i) == g;
      if g.value.None? {
        assert [GroupingRule][1..] == [];
        assert FirstAt([], ts, g.next) == Parsed(None, g.next);
      }
    }
  }

  /** "123 45.67" : two expression statements. */
  lemma {:induction false} MultipleStatements(ts: seq<Token>)
    requires |ts| == 3 && NumbersCarryValue(ts)
    requires Reads(ts, 0, [Lexeme(LitNumber, Some(123.0)), Lexeme(LitNumber, Some(45.67)), Lexeme(Eof, None)])
    ensures StatementsFrom(ts, 0) == [ExprStmt(Number(123.0)), ExprStmt(Number(45.67))]
    ensures StatementsEnd(ts, 0) == 2
  {
    var p := [Lexeme(LitNumber, Some(123.0)), Lexeme(LitNumber, Some(45.67)), Lexeme(Eof, None)];
    ReadsAt(ts, 0, p, 0);
    ReadsAt(ts, 0, p, 1);
    ReadsAt(ts, 0, p, 2);
    ExprChooses(ts, 0);
    ExprChooses(ts, 1);
    assert StatementAt(ts, 1) == Parsed(Some(ExprStmt(Number(45.67))), 2);
    assert StatementsFrom(ts, 1) == [ExprStmt(Number(45.67))];
    assert StatementAt(ts, 0) == Parsed(Some(ExprStmt(Number(123.0))), 1);
    assert StatementsEnd(ts, 2) == 2;
    assert StatementsEnd(ts, 1) == 2;
  }

  /** "1 + 2" : the grammar has no operators; `+` is skipped as a statement
      that failed without reading, and the numbers are two statements. */
  lemma {:induction false} OperatorSkipped(ts: seq<Token>)
    requires |ts| == 4 && NumbersCarryValue(ts)
    requires Reads(ts, 0, [Lexeme(LitNumber, Some(1.0)), Lexeme(Plus, None), Lexeme(LitNumber, Some(2.0)), Lexeme(Eof, None)])
    ensures StatementsFrom(ts, 0) == [ExprStmt(Number(1.0)), ExprStmt(Number(2.0))]
  {
    var p := [Lexeme(LitNumber, Some(1.0)), Lexeme(Plus, None), Lexeme(LitNumber, Some(2.0)), Lexeme(Eof, None)];
    ReadsAt(ts, 0, p, 0);
    ReadsAt(ts, 0, p, 1);
    ReadsAt(ts, 0, p, 2);
    ReadsAt(ts, 0, p, 3);
    ExprChooses(ts, 0);
    ExprChooses(ts, 1);
    ExprChooses(ts, 2);
    assert StatementAt(ts, 2) == Parsed(Some(ExprStmt(Number(2.0))), 3);
    assert StatementsFrom(ts, 2) == [ExprStmt(Number(2.0))];
    assert GroupingAt(ts, 1) == Parsed(None, 1);
    assert StatementAt(ts, 1) == Parsed(None, 1);
    assert StatementsFrom(ts, 1) == [ExprStmt(Number(2.0))];
    assert StatementAt(ts, 0) == Parsed(Some(ExprStmt(Number(1.0))), 1);
  }
}
