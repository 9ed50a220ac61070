/** The arithmetic grammar built from the engine (src/Parsing/DataOrientedParser.cs):

      program        = { statement } Eof
      statement      = ";" | additive
      additive       = multiplicative { ("+" | "-") multiplicative }
      multiplicative = primary { ("*" | "/" | "%") primary }
      primary        = number | "(" additive ")"

    Every step of the table produces a `Value`; each build is a named function
    so that the table can be written down and compared. */
module DataOrientedGrammar {
  import opened Wrappers
  import opened Tokens
  import opened Extensions
  import opened Errors
  import opened Results
  import opened Ast
  import opened Steps
  import opened GrammarBuilding

  /** What a step of this grammar can produce: the C# types of the steps
      (`NoValue`, a token type, an expression, a statement, an operator and
      operand pair, a list of items, a program) as one datatype. */
  datatype Value =
    | NoValue
    | Operator(op: TokenType)
    | ENode(expr: Expr)
    | SNode(stmt: Stmt)
    | Operand(opr: TokenType, rhs: Expr)
    | Items(items: seq<Value>)
    | PNode(prog: Prog)

  // ---------------------------------------------------------------------------
  // The builds

  /** `NoValue.Build`. */
  function BuildNoValue(payload: Option<real>): Value {
    NoValue
  }

  /** `Terminal.Of(name, type)`: the token's own type. */
  function BuildOperator(t: TokenType): Option<real> -> Value {
    _ => Operator(t)
  }

  /** The empty statement. */
  function BuildNop(payload: Option<real>): Value {
    SNode(Nop)
  }

  /** A number literal holding the token's value: `(decimal)value.NotNull()`.
      The source asserts the value is there; the parser's callers pass only
      lists whose literals carry one (`NumbersCarryValue`), and the 0 is
      the total function's stand-in for the assertion's failure. */
  function BuildNumber(payload: Option<real>): Value {
    ENode(Number(payload.GetOr(0.0)))
  }

  /** `(_, n, _) => n`: a braced group is its inner expression, whatever
      became of the closing parenthesis. */
  function BuildBraced(open: Value, inner: Option<Value>, close: Option<Value>): Option<Value> {
    inner
  }

  /** `right.Map(r => (op, r))`: a pair only when the operand parsed. */
  function BuildPair(op: Value, right: Option<Value>): (r: Option<Value>)
    ensures r.Some? <==> right.Some?
    ensures r.Some? ==> r.value.Operand? && r.value.opr == OperatorIn(op) && r.value.rhs == ExprIn(right.value)
  {
    match right
    case Some(r) => Some(Operand(OperatorIn(op), ExprIn(r)))
    case None => None
  }

  /** `rights => rights`. */
  function BuildItems(vs: seq<Value>): Value {
    Items(vs)
  }

  /** The fold of a precedence level: the left operand, then every pair
      grouped to the left; a failed list of pairs counts as empty. */
  function BuildChain(left: Value, rights: Option<Value>): Option<Value> {
    Some(ENode(FoldLeft(ExprIn(left), PairsIn(rights.GetOr(Items([]))))))
  }

  /** `body => new Node.Prog(body)`. */
  function BuildProg(vs: seq<Value>): Value {
    PNode(Prog(StmtsIn(vs)))
  }

  // Reading a `Value` back at the C# type a step has. The defaults stand in
  // for values of another type, which the C# types rule out.

  function OperatorIn(v: Value): TokenType {
    if v.Operator? then v.op else Eof
  }

  function ExprIn(v: Value): Expr {
    if v.ENode? then v.expr else Number(0.0)
  }

  function StmtIn(v: Value): Stmt {
    match v
    case ENode(e) => ExprStmt(e)
    case SNode(s) => s
    case _ => Nop
  }

  function PairIn(v: Value): (TokenType, Expr) {
    if v.Operand? then (v.opr, v.rhs) else (Eof, Number(0.0))
  }

  function PairsIn(v: Value): (ps: seq<(TokenType, Expr)>)
    ensures v.Items? ==> |ps| == |v.items| && forall k :: 0 <= k < |ps| ==> ps[k] == PairIn(v.items[k])
    ensures !v.Items? ==> ps == []
  {
    if v.Items? then seq(|v.items|, k requires 0 <= k < |v.items| => PairIn(v.items[k])) else []
  }

  function StmtsIn(vs: seq<Value>): (ss: seq<Stmt>)
    ensures |ss| == |vs| && forall k :: 0 <= k < |vs| ==> ss[k] == StmtIn(vs[k])
  {
    seq(|vs|, k requires 0 <= k < |vs| => StmtIn(vs[k]))
  }

  /** The pairs of operators and operands, as a repetition of pairs collects them. */
  function OperandsOf(pairs: seq<(TokenType, Expr)>): (v: Value)
    ensures v.Items? && |v.items| == |pairs|
    ensures forall k :: 0 <= k < |pairs| ==> v.items[k] == Operand(pairs[k].0, pairs[k].1)
  {
    Items(seq(|pairs|, k requires 0 <= k < |pairs| => Operand(pairs[k].0, pairs[k].1)))
  }

  /** The build of a precedence level is the left fold of its pairs. */
  lemma ChainIsFold(left: Expr, pairs: seq<(TokenType, Expr)>)
    ensures BuildChain(ENode(left), Some(OperandsOf(pairs))) == Some(ENode(FoldLeft(left, pairs)))
  {
    assert PairsIn(OperandsOf(pairs)) == pairs;
  }

  /** With no list of pairs, or an empty one, a level is its first operand. */
  lemma ChainOfNone(left: Expr)
    ensures BuildChain(ENode(left), None) == Some(ENode(left))
    ensures BuildChain(ENode(left), Some(Items([]))) == Some(ENode(left))
  {
  }

  /** `left op1 r1 op2 r2` groups to the left. */
  lemma ChainOfTwo(left: Expr, op1: TokenType, r1: Expr, op2: TokenType, r2: Expr)
    ensures BuildChain(ENode(left), Some(OperandsOf([(op1, r1), (op2, r2)]))) ==
            Some(ENode(Binary(Binary(left, op1, r1), op2, r2)))
  {
    ChainIsFold(left, [(op1, r1), (op2, r2)]);
    FoldLeftSnoc(left, [(op1, r1)], op2, r2);
    assert [(op1, r1)] + [(op2, r2)] == [(op1, r1), (op2, r2)];
  }

  /** The loop of the build: `node = new Binary(node, op, right)` for each pair. */
  method FoldChain(left: Expr, rights: seq<(TokenType, Expr)>) returns (node: Expr)
    ensures node == FoldLeft(left, rights)
  {
    node := left;
    for k := 0 to |rights|
      invariant node == FoldLeft(left, rights[..k])
    {
      FoldLeftSnoc(left, rights[..k], rights[k].0, rights[k].1);
      assert rights[..k + 1] == rights[..k] + [rights[k]];
      node := Binary(node, rights[k].0, rights[k].1);
    }
    assert rights[..|rights|] == rights;
  }

  // ---------------------------------------------------------------------------
  // The table, in the order the constructor builds it

  const LParenId: StepId := 0
  const RParenId: StepId := 1
  const MulId: StepId := 2
  const DivId: StepId := 3
  const ModId: StepId := 4
  const PlusId: StepId := 5
  const MinusId: StepId := 6
  const SemiId: StepId := 7
  const NumberId: StepId := 8
  const BracedGroupId: StepId := 9
  const PrimaryId: StepId := 10
  const MultOpId: StepId := 11
  const MultPairId: StepId := 12
  const MultRestId: StepId := 13
  const ExprMultId: StepId := 14
  const AddOpId: StepId := 15
  const AddPairId: StepId := 16
  const AddRestId: StepId := 17
  const ExprId: StepId := 18
  const StmtId: StepId := 19
  const ProgId: StepId := 20

  /** The name the program is parsed under. */
  const RootName := "useless-statements"

  /** The step with index `id`. */
  function StepAt(id: nat): Step<Value> {
    match id
    case 0 => Terminal(None, BuildNoValue, LParen)
    case 1 => Terminal(None, BuildNoValue, RParen)
    case 2 => Terminal(None, BuildOperator(Mul), Mul)
    case 3 => Terminal(None, BuildOperator(Div), Div)
    case 4 => Terminal(None, BuildOperator(Mod), Mod)
    case 5 => Terminal(None, BuildOperator(Plus), Plus)
    case 6 => Terminal(None, BuildOperator(Minus), Minus)
    case 7 => Terminal(Some("no-op"), BuildNop, Semi)
    case 8 => Terminal(Some("number"), BuildNumber, LitNumber)
    case 9 => Concat3(Some("braced group"), BuildBraced, LParenId, Some(ExprId), RParenId)
    case 10 => Altern(Some("primary expression"), [NumberId, BracedGroupId])
    case 11 => Altern(Some("multiplicative operator"), [MulId, DivId, ModId])
    case 12 => Concat2(None, BuildPair, MultOpId, PrimaryId)
    case 13 => Repeat(None, BuildItems, MultPairId, Complement({Mul, Div, Mod}), 0, IntMax)
    case 14 => Concat2(Some("multiplicative expression"), BuildChain, PrimaryId, MultRestId)
    case 15 => Altern(Some("additive operator"), [PlusId, MinusId])
    case 16 => Concat2(None, BuildPair, AddOpId, ExprMultId)
    case 17 => Repeat(None, BuildItems, AddPairId, Complement({Plus, Minus}), 0, IntMax)
    case 18 => Concat2(Some("additive expression"), BuildChain, ExprMultId, AddRestId)
    case 19 => Altern(Some("statement"), [SemiId, ExprId])
    case _ => Repeat(Some("program"), BuildProg, StmtId, {Eof}, 0, IntMax)
  }

  /** The table of the source's constructor, in the order it builds it. */
  function Grammar(): (g: seq<Step<Value>>)
    ensures |g| == 21 && forall id :: 0 <= id < 21 ==> g[id] == StepAt(id)
  {
    seq(21, id requires 0 <= id < 21 => StepAt(id))
  }

  lemma GrammarOrdered()
    ensures Ordered(Grammar()) && |Grammar()| == 21
  {
  }

  /** The union of two and of three heads. */
  lemma HeadPrimary()
    ensures Ordered(Grammar()) && Head(Grammar(), PrimaryId) == {LitNumber, LParen}
  {
    GrammarOrdered();
    AlternHeadOfTwo(Grammar(), PrimaryId);
  }

  lemma HeadMultOp()
    ensures Ordered(Grammar()) && Head(Grammar(), MultOpId) == {Mul, Div, Mod}
  {
    GrammarOrdered();
    AlternHeadOfThree(Grammar(), MultOpId);
  }

  lemma HeadAddOp()
    ensures Ordered(Grammar()) && Head(Grammar(), AddOpId) == {Plus, Minus}
  {
    GrammarOrdered();
    AlternHeadOfTwo(Grammar(), AddOpId);
  }

  lemma HeadExpr()
    ensures Ordered(Grammar()) && Head(Grammar(), ExprId) == {LitNumber, LParen}
  {
    GrammarOrdered();
    GrammarHeads(Grammar());
  }

  lemma HeadStmt()
    ensures Ordered(Grammar()) && Head(Grammar(), StmtId) == {Semi, LitNumber, LParen}
  {
    GrammarOrdered();
    GrammarHeads(Grammar());
  }

  /** A table holding this grammar's steps. */
  ghost predicate IsGrammar(g: seq<Step<Value>>) {
    |g| == 21 && forall id :: 0 <= id < 21 ==> g[id] == StepAt(id)
  }

  /** The heads of the expression and statement steps of such a table. */
  lemma GrammarHeads(g: seq<Step<Value>>)
    requires IsGrammar(g) && Ordered(g)
    ensures Head(g, SemiId) == {Semi} && Head(g, ExprId) == {LitNumber, LParen}
    ensures Head(g, StmtId) == {Semi, LitNumber, LParen}
  {
    PrimaryHeadOf(g);
    ExprHeadOf(g);
    StmtHeadOf(g);
  }

  lemma PrimaryHeadOf(g: seq<Step<Value>>)
    requires Ordered(g) && |g| == 21 && g[PrimaryId] == StepAt(PrimaryId)
    requires g[NumberId] == StepAt(NumberId) && g[BracedGroupId] == StepAt(BracedGroupId) && g[LParenId] == StepAt(LParenId)
    ensures Head(g, PrimaryId) == {LitNumber, LParen}
  {
    AlternHeadOfTwo(g, PrimaryId);
  }

  lemma ExprHeadOf(g: seq<Step<Value>>)
    requires Ordered(g) && |g| == 21 && g[ExprId] == StepAt(ExprId) && g[ExprMultId] == StepAt(ExprMultId)
    ensures Head(g, ExprId) == Head(g, PrimaryId)
  {
  }

  lemma StmtHeadOf(g: seq<Step<Value>>)
    requires Ordered(g) && |g| == 21 && g[StmtId] == StepAt(StmtId) && g[SemiId] == StepAt(SemiId)
    ensures Head(g, SemiId) == {Semi} && Head(g, StmtId) == {Semi} + Head(g, ExprId)
  {
    AlternHeadOfTwo(g, StmtId);
  }

  /** The table passes every constructor check, and the braced group's middle
      step is bound: the cycle through it starts with "(", which always reads
      a token. */
  lemma GrammarWellFormed()
    ensures WellFormed(Grammar())
  {
    var g := Grammar();
    GrammarOrdered();
    TerminalsOk();
    OperandAlternsOk();
    OperatorAlternsOk();
    StmtAlternOk();
    OthersOk();
    forall id | 0 <= id < |g| ensures LocalOk(g, id) {
      assert id <= 8 || id in {PrimaryId, MultOpId, AddOpId, StmtId} || id in {9, 12, 13, 14, 16, 17, 18, 20};
    }
  }

  lemma TerminalsOk()
    ensures Ordered(Grammar()) && forall id :: 0 <= id <= 8 ==> LocalOk(Grammar(), id)
  {
    GrammarOrdered();
  }

  lemma OthersOk()
    ensures Ordered(Grammar())
    ensures forall id :: id in {9, 12, 13, 14, 16, 17, 18, 20} ==> LocalOk(Grammar(), id)
    ensures forall id :: 0 <= id < 21 && Grammar()[id].Concat3? ==> Grammar()[id].middle.Some?
  {
    GrammarOrdered();
    assert Productive(Grammar(), LParenId);
  }

  lemma OperandAlternsOk()
    ensures Ordered(Grammar()) && LocalOk(Grammar(), PrimaryId)
  {
    HeadPrimaryChoices();
    AlternOfTwoOk(Grammar(), PrimaryId, NumberId, BracedGroupId, {LitNumber}, {LParen});
  }

  lemma OperatorAlternsOk()
    ensures Ordered(Grammar()) && LocalOk(Grammar(), MultOpId) && LocalOk(Grammar(), AddOpId)
  {
    GrammarOrdered();
  }

  lemma StmtAlternOk()
    ensures Ordered(Grammar()) && LocalOk(Grammar(), StmtId)
  {
    GrammarOrdered();
    StmtAlternOkOf(Grammar());
  }

  lemma StmtAlternOkOf(g: seq<Step<Value>>)
    requires IsGrammar(g) && Ordered(g)
    ensures LocalOk(g, StmtId)
  {
    GrammarHeads(g);
    assert g[StmtId] == StepAt(StmtId);
    AlternOfTwoOk(g, StmtId, SemiId, ExprId, {Semi}, {LitNumber, LParen});
  }

  lemma HeadPrimaryChoices()
    ensures Ordered(Grammar()) && Head(Grammar(), NumberId) == {LitNumber} && Head(Grammar(), BracedGroupId) == {LParen}
  {
    GrammarOrdered();
  }

  lemma HeadStmtChoices()
    ensures Ordered(Grammar()) && Head(Grammar(), SemiId) == {Semi} && Head(Grammar(), ExprId) == {LitNumber, LParen}
  {
    GrammarOrdered();
    GrammarHeads(Grammar());
  }
}
