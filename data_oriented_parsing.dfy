/** The data-oriented parser object (src/Parsing/DataOrientedParser.cs): its
    constructor builds the arithmetic grammar step by step, and `Prog` runs the
    program step and hands every error to the reporting callback. */
module DataOrientedParsing {
  import opened Wrappers
  import opened Tokens
  import opened Extensions
  import opened Errors
  import opened Results
  import opened Ast
  import opened Steps
  import opened GrammarBuilding
  import opened StepRunner
  import opened DataOrientedGrammar
  import opened DataOrientedRuns

  class DataOrientedParser {
    /** The steps the constructor built; `ProgId` is the program step. */
    const grammar: seq<Step<Value>>
    /** The errors handed to the reporting callback so far, in order. */
    var reported: seq<ParserError>

    ghost predicate Valid()
      reads this
    {
      grammar == Grammar() && WellFormed(grammar)
    }

    /** The constructor: the same steps in the same order, the braced group's
        middle bound to the additive expression once that exists. */
    constructor()
      ensures Valid() && reported == []
    {
      var b := new GrammarBuilder<Value>();
      AddTokens(b);
      AddBracedGroup(b);
      AddPrimary(b);
      AddMultOp(b);
      AddPair(b, MultOpId, PrimaryId);
      AddRest(b, MultPairId);
      AddChain(b, "multiplicative expression", PrimaryId, MultRestId);
      AddAddOp(b);
      AddPair(b, AddOpId, ExprMultId);
      AddRest(b, AddPairId);
      AddChain(b, "additive expression", ExprMultId, AddRestId);
      BindGroup(b);
      AddStatement(b);
      AddProgram(b);
      grammar := b.steps;
      reported := [];
      BuiltIsGrammar(b.steps);
      GrammarHasAll();
    }

    /** `Prog`: parse the whole token stream as a program, report its errors
        in order and return the program, which is always there. Every number
        literal carries its value, as `NotNull` asserts when the number is
        built, so `BuildNumber`'s fallback is never taken. */
    method Prog(tokens: seq<Token>) returns (p: Ast.Prog)
      requires Valid() && EndsWithEof(tokens) && |tokens| <= IntMax && NumbersCarryValue(tokens)
      modifies this
      ensures var r := Parse(grammar, ProgId, tokens, RootName);
              r.value == Some(PNode(p)) && reported == old(reported) + r.errors
    {
      ProgAlwaysSucceeds(tokens);
      var r := Run(grammar, ProgId, tokens, RootName);
      for k := 0 to |r.errors|
        invariant reported == old(reported) + r.errors[..k]
      {
        reported := reported + [r.errors[k]];
        assert r.errors[..k + 1] == r.errors[..k] + [r.errors[k]];
      }
      assert r.errors[..|r.errors|] == r.errors;
      p := r.value.value.prog;
    }
  }

  // ---------------------------------------------------------------------------
  // The constructor, one step at a time

  /** The braced group as `Concat.Of` builds it, before `SetStep2`. */
  function UnboundGroup(): Step<Value> {
    Concat3(Some("braced group"), BuildBraced, LParenId, None, RParenId)
  }

  /** The grammar as it stands before `SetStep2`. */
  ghost function Unbound(): (g: seq<Step<Value>>)
    ensures |g| == |Grammar()|
  {
    Grammar()[BracedGroupId := UnboundGroup()]
  }

  /** `g` holds the first `n` steps of the grammar; the braced group's middle
      is bound once `bound` holds. */
  ghost predicate Built(g: seq<Step<Value>>, n: nat, bound: bool) {
    n <= |Grammar()| && g == (if bound then Grammar() else Unbound())[..n]
  }

  /** The steps above the terminals, written out. */
  lemma GrammarSteps()
    ensures |Grammar()| == 21
    ensures Grammar()[BracedGroupId].Concat3? && Grammar()[BracedGroupId].(middle := None) == UnboundGroup()
    ensures Grammar()[PrimaryId] == Altern(Some("primary expression"), [NumberId, BracedGroupId])
    ensures Grammar()[MultOpId] == Altern(Some("multiplicative operator"), [MulId, DivId, ModId])
    ensures Grammar()[MultPairId] == Concat2(None, BuildPair, MultOpId, PrimaryId)
    ensures Grammar()[MultRestId] == Repeat(None, BuildItems, MultPairId, Complement({Mul, Div, Mod}), 0, IntMax)
    ensures Grammar()[ExprMultId] == Concat2(Some("multiplicative expression"), BuildChain, PrimaryId, MultRestId)
    ensures Grammar()[AddOpId] == Altern(Some("additive operator"), [PlusId, MinusId])
    ensures Grammar()[AddPairId] == Concat2(None, BuildPair, AddOpId, ExprMultId)
    ensures Grammar()[AddRestId] == Repeat(None, BuildItems, AddPairId, Complement({Plus, Minus}), 0, IntMax)
    ensures Grammar()[ExprId] == Concat2(Some("additive expression"), BuildChain, ExprMultId, AddRestId)
    ensures Grammar()[StmtId] == Altern(Some("statement"), [SemiId, ExprId])
    ensures Grammar()[ProgId] == Repeat(Some("program"), BuildProg, StmtId, {Eof}, 0, IntMax)
  {
  }

  /** One more step built as the grammar has it. */
  lemma Extend(g: seq<Step<Value>>, n: nat, bound: bool, x: Step<Value>)
    requires Built(g, n, bound) && n < |Grammar()| && x == (if bound then Grammar() else Unbound())[n]
    ensures Built(g + [x], n + 1, bound)
  {
    var full := if bound then Grammar() else Unbound();
    assert full[..n + 1] == full[..n] + [full[n]];
  }

  /** A step built so far has the head it has in the grammar. */
  lemma BuiltHead(g: seq<Step<Value>>, n: nat, bound: bool, j: StepId)
    requires Built(g, n, bound) && Ordered(g) && j < n
    ensures Head(g, j) == Head(Grammar(), j)
  {
    GrammarOrdered();
    GrammarSteps();
    var full := if bound then Grammar() else Unbound();
    forall i | 0 <= i < n ensures SameSkeleton(g[i], Grammar()[i]) {
      assert g[i] == full[i];
    }
    SkeletonKeepsHead(g, Grammar(), j);
  }

  lemma HeadTerminals()
    ensures Ordered(Grammar())
    ensures Head(Grammar(), MulId) == {Mul} && Head(Grammar(), DivId) == {Div} && Head(Grammar(), ModId) == {Mod}
    ensures Head(Grammar(), PlusId) == {Plus} && Head(Grammar(), MinusId) == {Minus}
  {
    GrammarOrdered();
  }

  lemma HeadMultPair()
    ensures Ordered(Grammar()) && Head(Grammar(), MultPairId) == {Mul, Div, Mod}
  {
    HeadMultOp();
    ConcatHead(Grammar(), MultPairId, MultOpId);
  }

  lemma HeadAddPair()
    ensures Ordered(Grammar()) && Head(Grammar(), AddPairId) == {Plus, Minus}
  {
    HeadAddOp();
    ConcatHead(Grammar(), AddPairId, AddOpId);
  }

  /** Heads known to be particular pairwise disjoint sets pass the counting
      check. */
  lemma CountDisjoint(hs: seq<set<TokenType>>, known: seq<set<TokenType>>)
    requires hs == known && PairwiseDisjoint(known)
    ensures SumOfSizes(hs) == |UnionOf(hs)|
  {
    CountingDetectsOverlap(hs);
  }

  /** What each alternation and repetition needs of the steps before it. */
  lemma PrimaryFits(g: seq<Step<Value>>, cs: seq<StepId>)
    requires Built(g, PrimaryId, false) && Ordered(g) && cs == [NumberId, BracedGroupId]
    ensures |cs| > 0 && (forall k :: 0 <= k < |cs| ==> cs[k] < |g|)
    ensures SumOfSizes(HeadsOf(g, cs)) == |UnionOf(HeadsOf(g, cs))|
  {
    assert forall k :: 0 <= k < |cs| ==> cs[k] < |g|;
    HeadPrimaryChoices();
    BuiltHead(g, PrimaryId, false, NumberId);
    BuiltHead(g, PrimaryId, false, BracedGroupId);
    CountDisjoint(HeadsOf(g, cs), [{LitNumber}, {LParen}]);
  }

  lemma MultOpFits(g: seq<Step<Value>>, cs: seq<StepId>)
    requires Built(g, MultOpId, false) && Ordered(g) && cs == [MulId, DivId, ModId]
    ensures |cs| > 0 && (forall k :: 0 <= k < |cs| ==> cs[k] < |g|)
    ensures SumOfSizes(HeadsOf(g, cs)) == |UnionOf(HeadsOf(g, cs))|
  {
    assert forall k :: 0 <= k < |cs| ==> cs[k] < |g|;
    HeadTerminals();
    BuiltHead(g, MultOpId, false, MulId);
    BuiltHead(g, MultOpId, false, DivId);
    BuiltHead(g, MultOpId, false, ModId);
    CountDisjoint(HeadsOf(g, cs), [{Mul}, {Div}, {Mod}]);
  }

  lemma AddOpFits(g: seq<Step<Value>>, cs: seq<StepId>)
    requires Built(g, AddOpId, false) && Ordered(g) && cs == [PlusId, MinusId]
    ensures |cs| > 0 && (forall k :: 0 <= k < |cs| ==> cs[k] < |g|)
    ensures SumOfSizes(HeadsOf(g, cs)) == |UnionOf(HeadsOf(g, cs))|
  {
    assert forall k :: 0 <= k < |cs| ==> cs[k] < |g|;
    HeadTerminals();
    BuiltHead(g, AddOpId, false, PlusId);
    BuiltHead(g, AddOpId, false, MinusId);
    CountDisjoint(HeadsOf(g, cs), [{Plus}, {Minus}]);
  }

  lemma RestFits(g: seq<Step<Value>>, pair: StepId)
    requires pair == MultPairId || pair == AddPairId
    requires Built(g, pair + 1, false) && Ordered(g)
    ensures Head(g, pair) == if pair == MultPairId then {Mul, Div, Mod} else {Plus, Minus}
  {
    HeadMultPair();
    HeadAddPair();
    BuiltHead(g, pair + 1, false, pair);
  }

  /** The terminals, `lparen` to `number`. */
  method AddTokens(b: GrammarBuilder<Value>)
    requires b.Valid() && b.steps == []
    modifies b
    ensures b.Valid() && Built(b.steps, NumberId + 1, false)
  {
    var lParen := b.AddTerminal(None, BuildNoValue, LParen);
    var rParen := b.AddTerminal(None, BuildNoValue, RParen);
    var mul := b.AddTerminal(None, BuildOperator(Mul), Mul);
    var div := b.AddTerminal(None, BuildOperator(Div), Div);
    var mod := b.AddTerminal(None, BuildOperator(Mod), Mod);
    var plus := b.AddTerminal(None, BuildOperator(Plus), Plus);
    var minus := b.AddTerminal(None, BuildOperator(Minus), Minus);
    var semi := b.AddTerminal(Some("no-op"), BuildNop, Semi);
    var number := b.AddTerminal(Some("number"), BuildNumber, LitNumber);
    assert Unbound()[..9] == Grammar()[..9];
    assert b.steps == Grammar()[..9];
  }

  /** `bracedGroup`, its middle step left unbound. */
  method AddBracedGroup(b: GrammarBuilder<Value>)
    requires b.Valid() && Built(b.steps, BracedGroupId, false)
    modifies b
    ensures b.Valid() && Built(b.steps, BracedGroupId + 1, false)
  {
    ghost var g := b.steps;
    var id := b.AddConcat3(Some("braced group"), BuildBraced, LParenId, None, RParenId);
    Extend(g, BracedGroupId, false, UnboundGroup());
  }

  /** `exprPrimary`. */
  method AddPrimary(b: GrammarBuilder<Value>)
    requires b.Valid() && Built(b.steps, PrimaryId, false)
    modifies b
    ensures b.Valid() && Built(b.steps, PrimaryId + 1, false)
  {
    ghost var g := b.steps;
    var choices := [NumberId, BracedGroupId];
    PrimaryFits(g, choices);
    var id := b.AddAltern(Some("primary expression"), choices);
    GrammarSteps();
    Extend(g, PrimaryId, false, b.steps[id]);
  }

  /** The multiplicative operator. */
  method AddMultOp(b: GrammarBuilder<Value>)
    requires b.Valid() && Built(b.steps, MultOpId, false)
    modifies b
    ensures b.Valid() && Built(b.steps, MultOpId + 1, false)
  {
    ghost var g := b.steps;
    var choices := [MulId, DivId, ModId];
    MultOpFits(g, choices);
    var id := b.AddAltern(Some("multiplicative operator"), choices);
    GrammarSteps();
    Extend(g, MultOpId, false, b.steps[id]);
  }

  /** The pair of an operator and the operand after it. */
  method AddPair(b: GrammarBuilder<Value>, op: StepId, operand: StepId)
    requires (op, operand) == (MultOpId, PrimaryId) || (op, operand) == (AddOpId, ExprMultId)
    requires b.Valid() && Built(b.steps, op + 1, false)
    modifies b
    ensures b.Valid() && Built(b.steps, op + 2, false)
  {
    ghost var g := b.steps;
    var id := b.AddConcat2(None, BuildPair, op, operand);
    GrammarSteps();
    Extend(g, op + 1, false, b.steps[id]);
  }

  /** The repetition of pairs, which stops at anything but an operator. */
  method AddRest(b: GrammarBuilder<Value>, pair: StepId)
    requires pair == MultPairId || pair == AddPairId
    requires b.Valid() && Built(b.steps, pair + 1, false)
    modifies b
    ensures b.Valid() && Built(b.steps, pair + 2, false)
  {
    ghost var g := b.steps;
    RestFits(g, pair);
    var id := b.AddRepeat(None, BuildItems, pair, None, 0, IntMax);
    GrammarSteps();
    Extend(g, pair + 1, false, b.steps[id]);
  }

  /** A level of binary operators: the first operand, then the repetition. */
  method AddChain(b: GrammarBuilder<Value>, name: string, operand: StepId, rest: StepId)
    requires (name, operand, rest) == ("multiplicative expression", PrimaryId, MultRestId) ||
             (name, operand, rest) == ("additive expression", ExprMultId, AddRestId)
    requires b.Valid() && Built(b.steps, rest + 1, false)
    modifies b
    ensures b.Valid() && Built(b.steps, rest + 2, false)
  {
    ghost var g := b.steps;
    var id := b.AddConcat2(Some(name), BuildChain, operand, rest);
    GrammarSteps();
    Extend(g, rest + 1, false, b.steps[id]);
  }

  /** The additive operator. */
  method AddAddOp(b: GrammarBuilder<Value>)
    requires b.Valid() && Built(b.steps, AddOpId, false)
    modifies b
    ensures b.Valid() && Built(b.steps, AddOpId + 1, false)
  {
    ghost var g := b.steps;
    var choices := [PlusId, MinusId];
    AddOpFits(g, choices);
    var id := b.AddAltern(Some("additive operator"), choices);
    GrammarSteps();
    Extend(g, AddOpId, false, b.steps[id]);
  }

  /** `bracedGroup.SetStep2(expr)`. */
  method BindGroup(b: GrammarBuilder<Value>)
    requires b.Valid() && Built(b.steps, StmtId, false)
    modifies b
    ensures b.Valid() && Built(b.steps, StmtId, true)
  {
    GrammarSteps();
    assert b.steps[LParenId] == Grammar()[LParenId];
    b.SetStep2(BracedGroupId, ExprId);
    assert b.steps == Grammar()[..StmtId];
  }

  /** `stmt`. */
  method AddStatement(b: GrammarBuilder<Value>)
    requires b.Valid() && Built(b.steps, StmtId, true)
    modifies b
    ensures b.Valid() && Built(b.steps, StmtId + 1, true)
  {
    ghost var g := b.steps;
    var choices := [SemiId, ExprId];
    StatementFits(g, choices);
    var id := b.AddAltern(Some("statement"), choices);
    GrammarSteps();
    Extend(g, StmtId, true, b.steps[id]);
  }

  lemma StatementFits(g: seq<Step<Value>>, cs: seq<StepId>)
    requires Built(g, StmtId, true) && Ordered(g) && cs == [SemiId, ExprId]
    ensures |cs| > 0 && (forall k :: 0 <= k < |cs| ==> cs[k] < |g|)
    ensures SumOfSizes(HeadsOf(g, cs)) == |UnionOf(HeadsOf(g, cs))|
  {
    assert forall k :: 0 <= k < |cs| ==> cs[k] < |g|;
    HeadStmtChoices();
    BuiltHead(g, StmtId, true, SemiId);
    BuiltHead(g, StmtId, true, ExprId);
    CountDisjoint(HeadsOf(g, cs), [{Semi}, {LitNumber, LParen}]);
  }

  /** `_prog`, which ends only at the end of input. */
  method AddProgram(b: GrammarBuilder<Value>)
    requires b.Valid() && Built(b.steps, ProgId, true)
    modifies b
    ensures b.Valid() && Built(b.steps, ProgId + 1, true)
  {
    ghost var g := b.steps;
    var id := b.AddRepeat(Some("program"), BuildProg, StmtId, Some({Eof}), 0, IntMax);
    GrammarSteps();
    Extend(g, ProgId, true, b.steps[id]);
  }

  /** All the steps, built and bound, are the grammar. */
  lemma BuiltIsGrammar(g: seq<Step<Value>>)
    requires Built(g, ProgId + 1, true)
    ensures g == Grammar()
  {
    assert Grammar()[..ProgId + 1] == Grammar();
  }
}
