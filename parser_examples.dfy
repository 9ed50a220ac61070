/** The parsers on the inputs of tests/HelpfulParserTests.cs and
    tests/PrimitiveParserTests.cs, stated on the token lists the lexer makes
    of them (types and number values; extents do not matter to a parser),
    and the precedence and grouping those tests check, for all operators
    and values. */
module ParserExamples {
  import opened Wrappers
  import opened Tokens
  import opened Ast
  import opened Errors
  import opened Descent
  import opened DescentPrinting
  import HelpfulParsing
  import PrimitiveParsing
  import LegacyHelpfulParsing
  import LegacyPrimitiveParsing

  function Num(v: real): Lexeme {
    Lexeme(LitNumber, Some(v))
  }

  function Sym(kind: TokenType): Lexeme {
    Lexeme(kind, None)
  }

  /** `ts` is exactly the lexemes `p`. */
  predicate Spelled(ts: seq<Token>, p: seq<Lexeme>) {
    |ts| == |p| && Reads(ts, 0, p) && NumbersCarryValue(ts)
  }

  /** "" : no statement, no error. */
  lemma EmptyProgram(d: Dialect, ts: seq<Token>)
    requires d.eofEnds && Spelled(ts, [Sym(Eof)])
    ensures Synchronized(d, ts, 0) == ProgOut([], 0, [])
  {
    ReadsAt(ts, 0, [Sym(Eof)], 0);
  }

  /** "1 +" : the statement fails for want of an operand at the `Eof`
      token, index 2; the helpful parser reports it as an expression
      expecting a number or `(`. */
  lemma MissingOperand(d: Dialect, ts: seq<Token>)
    requires d.eofEnds && Spelled(ts, [Num(1.0), Sym(Plus), Sym(Eof)])
    ensures Synchronized(d, ts, 0) == ProgOut([], 2, [Attempt(2, Missing.MissingOperand)])
    ensures HelpfulParsing.ErrorsFor(Synchronized(d, ts, 0).attempts)
            == [ParserError(2, "expression", {LitNumber, LParen})]
  {
    var p := [Num(1.0), Sym(Plus), Sym(Eof)];
    ReadsAt(ts, 0, p, 0);
    ReadsAt(ts, 0, p, 1);
    ReadsAt(ts, 0, p, 2);
    assert Primary(d, ts, 2) == Out(None, 2, [Attempt(2, Missing.MissingOperand)]);
    assert Chained(d, ts, 2, Product) == Out(None, 2, [Attempt(2, Missing.MissingOperand)]);
    ChainTurn(d, ts, 1, Sum, Number(1.0));
    assert Chain(d, ts, 1, Sum, Number(1.0)) == Out(None, 2, [Attempt(2, Missing.MissingOperand)]);
    assert Primary(d, ts, 0) == Out(Some(Number(1.0)), 1, []);
    assert Chained(d, ts, 0, Product) == Out(Some(Number(1.0)), 1, []);
    ChainedTurn(d, ts, 0, Sum);
    assert Statement(d, ts, 0) == Out(None, 2, [Attempt(2, Missing.MissingOperand)]);
    SynchronizedTurn(d, ts, 0);
  }

  /** "1 + ;" : the same failure, and the `;` after it is an empty statement. */
  lemma MissingOperandFollowedByNop(d: Dialect, ts: seq<Token>)
    requires d.eofEnds && Spelled(ts, [Num(1.0), Sym(Plus), Sym(Semi), Sym(Eof)])
    ensures Synchronized(d, ts, 0) == ProgOut([Nop], 3, [Attempt(2, Missing.MissingOperand)])
  {
    var p := [Num(1.0), Sym(Plus), Sym(Semi), Sym(Eof)];
    ReadsAt(ts, 0, p, 0);
    ReadsAt(ts, 0, p, 1);
    ReadsAt(ts, 0, p, 2);
    ReadsAt(ts, 0, p, 3);
    assert Primary(d, ts, 2) == Out(None, 2, [Attempt(2, Missing.MissingOperand)]);
    assert Chained(d, ts, 2, Product) == Out(None, 2, [Attempt(2, Missing.MissingOperand)]);
    ChainTurn(d, ts, 1, Sum, Number(1.0));
    assert Primary(d, ts, 0) == Out(Some(Number(1.0)), 1, []);
    assert Chained(d, ts, 0, Product) == Out(Some(Number(1.0)), 1, []);
    ChainedTurn(d, ts, 0, Sum);
    assert Statement(d, ts, 0) == Out(None, 2, [Attempt(2, Missing.MissingOperand)]);
    SynchronizedTurn(d, ts, 0);
    SynchronizedTurn(d, ts, 2);
  }

  /** The tokens of "(1 + 2" and the group's inner sum. */
  lemma OpenGroup(d: Dialect, ts: seq<Token>)
    requires d.eofEnds && d.groups != NoGroups
    requires Spelled(ts, [Sym(LParen), Num(1.0), Sym(Plus), Num(2.0), Sym(Eof)])
    ensures Chained(d, ts, 1, Sum) == Out(Some(Binary(Number(1.0), Plus, Number(2.0))), 4, [])
    ensures Accepts(d, ts, 0, {LParen}) && !Accepts(d, ts, 0, {LitNumber}) && !Accepts(d, ts, 0, {Semi})
    ensures !Accepts(d, ts, 4, {RParen}) && AtEnd(d, ts, 4)
  {
    var p := [Sym(LParen), Num(1.0), Sym(Plus), Num(2.0), Sym(Eof)];
    var e := Binary(Number(1.0), Plus, Number(2.0));
    assert p == [Sym(LParen)] + [Num(1.0), Sym(Plus), Num(2.0), Sym(Eof)];
    ReadsSplit(ts, 0, [Sym(LParen)], [Num(1.0), Sym(Plus), Num(2.0), Sym(Eof)]);
    assert [Num(1.0), Sym(Plus), Num(2.0), Sym(Eof)] == [Num(1.0), Sym(Plus), Num(2.0)] + [Sym(Eof)];
    ReadsSplit(ts, 1, [Num(1.0), Sym(Plus), Num(2.0)], [Sym(Eof)]);
    assert Print(e, Sum) == [Num(1.0), Sym(Plus), Num(2.0)];
    ReadsAt(ts, 0, p, 0);
    ReadsAt(ts, 0, p, 4);
    ChainedReads(d, ts, 1, Sum, e);
  }

  /** "(1 + 2" : the helpful parser keeps the sum and reports the missing
      `)` at the `Eof` token, index 4, as a braced group expecting `)`. */
  lemma MismatchedParenthesesHelpful(ts: seq<Token>)
    requires Spelled(ts, [Sym(LParen), Num(1.0), Sym(Plus), Num(2.0), Sym(Eof)])
    ensures var r := Synchronized(HelpfulParsing.Helpful, ts, 0);
            r.body == [ExprStmt(Binary(Number(1.0), Plus, Number(2.0)))]
            && HelpfulParsing.ErrorsFor(r.attempts) == [ParserError(4, "braced group", {RParen})]
  {
    var d := HelpfulParsing.Helpful;
    var e := Binary(Number(1.0), Plus, Number(2.0));
    OpenGroup(d, ts);
    assert Primary(d, ts, 0) == Out(Some(e), 4, [Attempt(4, MissingRParen)]);
    assert Chained(d, ts, 0, Product) == Out(Some(e), 4, [Attempt(4, MissingRParen)]);
    assert Chained(d, ts, 0, Sum) == Out(Some(e), 4, [Attempt(4, MissingRParen)]);
    SynchronizedTurn(d, ts, 0);
  }

  /** "(1 + 2" : the primitive parser drops the group, silently. */
  lemma MismatchedParenthesesPrimitive(ts: seq<Token>)
    requires Spelled(ts, [Sym(LParen), Num(1.0), Sym(Plus), Num(2.0), Sym(Eof)])
    ensures Synchronized(PrimitiveParsing.Primitive, ts, 0) == ProgOut([], 4, [])
  {
    var d := PrimitiveParsing.Primitive;
    OpenGroup(d, ts);
    assert Primary(d, ts, 0) == Out(None, 4, []);
    assert Chained(d, ts, 0, Product) == Out(None, 4, []);
    assert Chained(d, ts, 0, Sum) == Out(None, 4, []);
    SynchronizedTurn(d, ts, 0);
  }

  /** "(1 + 2" : the older helpful parser drops the group and reports the
      missing `)` at index 4. */
  lemma MismatchedParenthesesLegacy(ts: seq<Token>)
    requires Spelled(ts, [Sym(LParen), Num(1.0), Sym(Plus), Num(2.0), Sym(Eof)])
    ensures var r := Synchronized(LegacyHelpfulParsing.Legacy, ts, 0);
            r.body == [] && LegacyHelpfulParsing.Reports(r.attempts, -1) == [LegacyHelpfulParsing.Report(4, "Expected ')'")]
  {
    var d := LegacyHelpfulParsing.Legacy;
    OpenGroup(d, ts);
    assert Primary(d, ts, 0) == Out(None, 4, [Attempt(4, MissingRParen)]);
    assert Chained(d, ts, 0, Product) == Out(None, 4, [Attempt(4, MissingRParen)]);
    assert Chained(d, ts, 0, Sum) == Out(None, 4, [Attempt(4, MissingRParen)]);
    SynchronizedTurn(d, ts, 0);
  }

  /** "123 45.67" : two expression statements, no error. */
  lemma MultipleStatements(d: Dialect, ts: seq<Token>)
    requires d.eofEnds && Spelled(ts, [Num(123.0), Num(45.67), Sym(Eof)])
    ensures Synchronized(d, ts, 0) == ProgOut([ExprStmt(Number(123.0)), ExprStmt(Number(45.67))], 2, [])
  {
    var p := [Num(123.0), Num(45.67), Sym(Eof)];
    ReadsAt(ts, 0, p, 0);
    ReadsAt(ts, 0, p, 1);
    ReadsAt(ts, 0, p, 2);
    assert Chain(d, ts, 1, Product, Number(123.0)) == Out(Some(Number(123.0)), 1, []);
    assert Chain(d, ts, 1, Sum, Number(123.0)) == Out(Some(Number(123.0)), 1, []);
    ChainedTurn(d, ts, 0, Product);
    ChainedTurn(d, ts, 0, Sum);
    assert Chain(d, ts, 2, Product, Number(45.67)) == Out(Some(Number(45.67)), 2, []);
    assert Chain(d, ts, 2, Sum, Number(45.67)) == Out(Some(Number(45.67)), 2, []);
    ChainedTurn(d, ts, 1, Product);
    ChainedTurn(d, ts, 1, Sum);
    SynchronizedTurn(d, ts, 0);
    SynchronizedTurn(d, ts, 1);
  }

  /** A product inside a sum binds tighter: `a + b * c` is `a + (b * c)`,
      for every pair of operators of the two levels. */
  lemma ProductBindsTighter(d: Dialect, ts: seq<Token>, a: real, b: real, c: real, sumOp: TokenType, productOp: TokenType)
    requires d.groups != NoGroups && sumOp in Operators(Sum) && productOp in Operators(Product)
    requires NumbersCarryValue(ts) && Reads(ts, 0, [Num(a), Sym(sumOp), Num(b), Sym(productOp), Num(c)]) && AtEnd(d, ts, 5)
    ensures Synchronized(d, ts, 0).body
            == [ExprStmt(Binary(Number(a), sumOp, Binary(Number(b), productOp, Number(c))))]
  {
    var e := Binary(Number(a), sumOp, Binary(Number(b), productOp, Number(c)));
    assert productOp !in Operators(Sum);
    assert Print(Binary(Number(b), productOp, Number(c)), Product) == [Num(b), Sym(productOp), Num(c)];
    assert Print(e, Sum) == [Num(a), Sym(sumOp), Num(b), Sym(productOp), Num(c)];
    RoundTrip(d, ts, e);
  }

  /** A braced sum is an operand of a product: `(a + b) * c`. */
  lemma GroupOverridesPrecedence(d: Dialect, ts: seq<Token>, a: real, b: real, c: real, sumOp: TokenType, productOp: TokenType)
    requires d.groups != NoGroups && sumOp in Operators(Sum) && productOp in Operators(Product)
    requires NumbersCarryValue(ts) && AtEnd(d, ts, 7)
    requires Reads(ts, 0, [Sym(LParen), Num(a), Sym(sumOp), Num(b), Sym(RParen), Sym(productOp), Num(c)])
    ensures Synchronized(d, ts, 0).body
            == [ExprStmt(Binary(Binary(Number(a), sumOp, Number(b)), productOp, Number(c)))]
  {
    var e := Binary(Binary(Number(a), sumOp, Number(b)), productOp, Number(c));
    assert productOp !in Operators(Sum);
    assert Print(Binary(Number(a), sumOp, Number(b)), Product) == [Sym(LParen), Num(a), Sym(sumOp), Num(b), Sym(RParen)];
    assert Print(e, Sum) == [Sym(LParen), Num(a), Sym(sumOp), Num(b), Sym(RParen), Sym(productOp), Num(c)];
    RoundTrip(d, ts, e);
  }

  /** Operators of one level group to the left: `a op b op' c` is
      `(a op b) op' c`. */
  lemma LeftAssociative(d: Dialect, ts: seq<Token>, l: Level, a: real, b: real, c: real, op: TokenType, op': TokenType)
    requires d.groups != NoGroups && op in Operators(l) && op' in Operators(l)
    requires NumbersCarryValue(ts) && Reads(ts, 0, [Num(a), Sym(op), Num(b), Sym(op'), Num(c)]) && AtEnd(d, ts, 5)
    ensures Synchronized(d, ts, 0).body
            == [ExprStmt(Binary(Binary(Number(a), op, Number(b)), op', Number(c)))]
  {
    var e := Binary(Binary(Number(a), op, Number(b)), op', Number(c));
    if l == Sum {
      assert Print(Binary(Number(a), op, Number(b)), Sum) == [Num(a), Sym(op), Num(b)];
    } else {
      assert op !in Operators(Sum) && op' !in Operators(Sum);
      assert Print(Binary(Number(a), op, Number(b)), Product) == [Num(a), Sym(op), Num(b)];
    }
    assert Print(e, Sum) == [Num(a), Sym(op), Num(b), Sym(op'), Num(c)];
    RoundTrip(d, ts, e);
  }

  /** The helpful parser on "1 +": an empty program and one error. */
  method HelpfulOnMissingOperand(ts: seq<Token>) returns (prog: Prog, errors: seq<ParserError>)
    requires Spelled(ts, [Num(1.0), Sym(Plus), Sym(Eof)])
    ensures prog == Prog([]) && errors == [ParserError(2, "expression", {LitNumber, LParen})]
  {
    var p := new HelpfulParsing.HelpfulParser();
    prog := p.Parse(ts);
    errors := p.reported;
    MissingOperand(HelpfulParsing.Helpful, ts);
  }

  /** The tokens of a stray `+`. */
  predicate StrayPlus(ts: seq<Token>) {
    Spelled(ts, [Sym(Plus), Sym(Eof)])
  }

  lemma StrayPlusAttempts(ts: seq<Token>)
    requires StrayPlus(ts)
    ensures Synchronized(LegacyHelpfulParsing.Legacy, ts, 0).attempts == [Attempt(0, Missing.MissingOperand)]
  {
    var d := LegacyHelpfulParsing.Legacy;
    ReadsAt(ts, 0, [Sym(Plus), Sym(Eof)], 0);
    ReadsAt(ts, 0, [Sym(Plus), Sym(Eof)], 1);
    assert Primary(d, ts, 0) == Out(None, 0, [Attempt(0, Missing.MissingOperand)]);
    assert Chained(d, ts, 0, Product) == Out(None, 0, [Attempt(0, Missing.MissingOperand)]);
    assert Chained(d, ts, 0, Sum) == Out(None, 0, [Attempt(0, Missing.MissingOperand)]);
    assert Statement(d, ts, 0) == Out(None, 0, [Attempt(0, Missing.MissingOperand)]);
    SynchronizedTurn(d, ts, 0);
  }

  /** `_iLastError` survives `Parse`: parsing a stray `+` twice with one
      older helpful parser reports the error once, the second parse
      reporting nothing. */
  method SecondRunDropsError(ts: seq<Token>) returns (first: seq<LegacyHelpfulParsing.Report>, second: seq<LegacyHelpfulParsing.Report>)
    requires StrayPlus(ts)
    ensures first == [LegacyHelpfulParsing.Report(0, "Expected number or '('")] && second == []
  {
    StrayPlusAttempts(ts);
    var p := new LegacyHelpfulParsing.LegacyHelpfulParser();
    var _ := p.Parse(ts);
    first := p.reported;
    var _ := p.Parse(ts);
    second := p.reported[|first|..];
  }

  /** With `_iLastError` reset, the second parse reports the error again. */
  method SecondRunAnewReportsError(ts: seq<Token>) returns (first: seq<LegacyHelpfulParsing.Report>, second: seq<LegacyHelpfulParsing.Report>)
    requires StrayPlus(ts)
    ensures first == [LegacyHelpfulParsing.Report(0, "Expected number or '('")] && second == first
  {
    StrayPlusAttempts(ts);
    var p := new LegacyHelpfulParsing.LegacyHelpfulParser();
    var _ := p.ParseAnew(ts);
    first := p.reported;
    var _ := p.ParseAnew(ts);
    second := p.reported[|first|..];
  }

  /** Where an expression of the older primitive parser ends: at the end of
      the list or at a token that is no operator of the level. */
  lemma OlderChainEnds(ts: seq<Token>, j: nat, l: Level, acc: Expr)
    requires j <= |ts| && NumbersCarryValue(ts) && (j == |ts| || ts[j].kind !in Operators(l))
    ensures Chain(LegacyPrimitiveParsing.Older, ts, j, l, acc) == Out(Some(acc), j, [])
  {
  }

  /** Three numbers and two operators, read by the older primitive parser
      (src/csharp/Parsing/PrimitiveParser.cs): `* / %` bind tighter than `+ -`, and
      operators of one level group to the left, for all operators and
      values, whether the list ends there or with `Eof`, which the older
      parser does not treat as the end. */
  lemma {:induction false} OlderPrecedence(ts: seq<Token>, a: real, b: real, c: real, op: TokenType, op': TokenType)
    requires op in Operators(Sum) + Operators(Product) && op' in Operators(Sum) + Operators(Product)
    requires NumbersCarryValue(ts) && Reads(ts, 0, [Num(a), Sym(op), Num(b), Sym(op'), Num(c)])
    requires |ts| == 5 || ts[5].kind == Eof
    ensures LegacyPrimitiveParsing.UntilFailure(ts, 0)
            == [ExprStmt(if op in Operators(Sum) && op' in Operators(Product)
                         then Binary(Number(a), op, Binary(Number(b), op', Number(c)))
                         else Binary(Binary(Number(a), op, Number(b)), op', Number(c)))]
    ensures LegacyPrimitiveParsing.StopsAt(ts, 0) == 5
  {
    var d := LegacyPrimitiveParsing.Older;
    var p := [Num(a), Sym(op), Num(b), Sym(op'), Num(c)];
    ReadsAt(ts, 0, p, 0);
    ReadsAt(ts, 0, p, 1);
    ReadsAt(ts, 0, p, 2);
    ReadsAt(ts, 0, p, 3);
    ReadsAt(ts, 0, p, 4);
    assert Primary(d, ts, 0) == Out(Some(Number(a)), 1, []);
    assert Primary(d, ts, 2) == Out(Some(Number(b)), 3, []);
    assert Primary(d, ts, 4) == Out(Some(Number(c)), 5, []);
    // After the last number: no operator, and no further statement.
    assert Primary(d, ts, 5) == Out(None, 5, [Attempt(5, Descent.MissingOperand)]) by {
      assert !Accepts(d, ts, 5, {LitNumber});
    }
    assert Chained(d, ts, 5, Product).value == None;
    assert Chained(d, ts, 5, Sum).value == None;
    assert Statement(d, ts, 5).value == None;
    var e: Expr;
    if op in Operators(Sum) && op' in Operators(Product) {
      var bc := Binary(Number(b), op', Number(c));
      e := Binary(Number(a), op, bc);
      OlderChainEnds(ts, 1, Product, Number(a));
      OlderChainEnds(ts, 5, Product, Number(c));
      OlderChainEnds(ts, 5, Product, bc);
      OlderChainEnds(ts, 5, Sum, e);
      assert Chain(d, ts, 3, Product, Number(b)) == Out(Some(bc), 5, []);
      assert Chained(d, ts, 2, Product) == Out(Some(bc), 5, []);
      assert Chained(d, ts, 0, Product) == Out(Some(Number(a)), 1, []);
      assert Chain(d, ts, 1, Sum, Number(a)) == Out(Some(e), 5, []);
    } else if op in Operators(Product) && op' in Operators(Product) {
      var ab := Binary(Number(a), op, Number(b));
      e := Binary(ab, op', Number(c));
      OlderChainEnds(ts, 5, Product, e);
      OlderChainEnds(ts, 5, Sum, e);
      assert Chain(d, ts, 3, Product, ab) == Out(Some(e), 5, []);
      assert Chain(d, ts, 1, Product, Number(a)) == Out(Some(e), 5, []);
      assert Chained(d, ts, 0, Product) == Out(Some(e), 5, []);
    } else if op in Operators(Product) {
      var ab := Binary(Number(a), op, Number(b));
      e := Binary(ab, op', Number(c));
      OlderChainEnds(ts, 3, Product, ab);
      OlderChainEnds(ts, 5, Product, Number(c));
      OlderChainEnds(ts, 5, Sum, e);
      assert Chain(d, ts, 1, Product, Number(a)) == Out(Some(ab), 3, []);
      assert Chained(d, ts, 0, Product) == Out(Some(ab), 3, []);
      assert Chained(d, ts, 4, Product) == Out(Some(Number(c)), 5, []);
      assert Chain(d, ts, 3, Sum, ab) == Out(Some(e), 5, []);
    } else {
      var ab := Binary(Number(a), op, Number(b));
      e := Binary(ab, op', Number(c));
      OlderChainEnds(ts, 1, Product, Number(a));
      OlderChainEnds(ts, 3, Product, Number(b));
      OlderChainEnds(ts, 5, Product, Number(c));
      OlderChainEnds(ts, 5, Sum, e);
      assert Chained(d, ts, 0, Product) == Out(Some(Number(a)), 1, []);
      assert Chained(d, ts, 2, Product) == Out(Some(Number(b)), 3, []);
      assert Chained(d, ts, 4, Product) == Out(Some(Number(c)), 5, []);
      assert Chain(d, ts, 3, Sum, ab) == Out(Some(e), 5, []);
      assert Chain(d, ts, 1, Sum, Number(a)) == Out(Some(e), 5, []);
    }
    assert Chained(d, ts, 0, Sum).value == Some(e) && Chained(d, ts, 0, Sum).next == 5;
    assert Statement(d, ts, 0) == Out(Some(ExprStmt(e)), 5, []);
    assert LegacyPrimitiveParsing.UntilFailure(ts, 5) == [];
    assert LegacyPrimitiveParsing.StopsAt(ts, 5) == 5;
  }
}
