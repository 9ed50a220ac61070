/** Runs of the arithmetic grammar of src/Parsing/DataOrientedParser.cs on
    particular token streams.

    The lemmas about parts of the grammar take the table `g` as a parameter
    and name only the steps they rely on (`Has`), so that each proof sees the
    few steps it is about; the statements about the whole grammar instantiate
    them with `Grammar()`. */
module DataOrientedRuns {
  import opened Wrappers
  import opened FixedRanges
  import opened Tokens
  import opened Errors
  import opened Results
  import opened Ast
  import opened Steps
  import opened DataOrientedGrammar

  /** Step `id` of `g` is the step of that index in the grammar. */
  ghost predicate Has(g: seq<Step<Value>>, id: StepId) {
    id < |g| && g[id] == StepAt(id)
  }

  lemma GrammarHasAll()
    ensures WellFormed(Grammar()) && forall id :: 0 <= id < 21 ==> Has(Grammar(), id)
  {
    GrammarWellFormed();
  }

  /** A statement always reads a token when it succeeds: each way of
      starting one, `;`, a number or `(`, is a token of its own. */
  lemma StmtProductiveOf(g: seq<Step<Value>>)
    requires Ordered(g) && Has(g, LParenId) && Has(g, SemiId) && Has(g, NumberId) && Has(g, BracedGroupId)
    requires Has(g, PrimaryId) && Has(g, ExprMultId) && Has(g, ExprId) && Has(g, StmtId)
    ensures Productive(g, StmtId)
  {
    assert Productive(g, BracedGroupId);
    assert Productive(g, PrimaryId);
    assert Productive(g, ExprMultId);
    assert Productive(g, ExprId);
  }

  lemma StmtProductive()
    ensures Ordered(Grammar()) && Productive(Grammar(), StmtId)
  {
    GrammarHasAll();
    StmtProductiveOf(Grammar());
  }

  lemma ProgSucceedsOf(g: seq<Step<Value>>, tokens: seq<Token>)
    requires WellFormed(g) && Has(g, ProgId) && Productive(g, StmtId)
    requires EndsWithEof(tokens) && |tokens| <= IntMax
    ensures var r := Parse(g, ProgId, tokens, RootName);
            r.HasValue() && r.value.value.PNode?
  {
    RepeatSucceeds(g, ProgId, tokens, RootName);
  }

  /** `Prog`'s assertion: the program always has a value, whatever the
      tokens, as long as they end with the sentinel and fit in a C# list. */
  lemma ProgAlwaysSucceeds(tokens: seq<Token>)
    requires EndsWithEof(tokens) && |tokens| <= IntMax
    ensures WellFormed(Grammar())
    ensures var r := Parse(Grammar(), ProgId, tokens, RootName);
            r.HasValue() && r.value.value.PNode?
  {
    GrammarHasAll();
    StmtProductive();
    ProgSucceedsOf(Grammar(), tokens);
  }

  /** Input of `Eof` alone: the program step stops at once on its tail, with
      an empty body and no error. */
  lemma EofOnlyOf(g: seq<Step<Value>>, tokens: seq<Token>)
    requires WellFormed(g) && Has(g, ProgId) && EndsWithEof(tokens) && |tokens| == 1
    ensures Parse(g, ProgId, tokens, RootName) == Result(0, Some(PNode(Prog([]))), [])
  {
    RepeatAtTerminator(g, ProgId, tokens, RootName);
  }

  lemma EofOnly(tokens: seq<Token>)
    requires EndsWithEof(tokens) && |tokens| == 1
    ensures WellFormed(Grammar())
    ensures Parse(Grammar(), ProgId, tokens, RootName) == Result(0, Some(PNode(Prog([]))), [])
  {
    GrammarHasAll();
    EofOnlyOf(Grammar(), tokens);
  }

  // ---------------------------------------------------------------------------
  // Parts of the grammar

  /** A number literal as a primary expression. */
  lemma PrimaryNumber(g: seq<Step<Value>>, rest: seq<Token>, parent: string)
    requires WellFormed(g) && Has(g, NumberId) && Has(g, PrimaryId)
    requires EndsWithEof(rest) && rest[0].kind == LitNumber
    ensures Parse(g, PrimaryId, rest, parent) == Result(1, Some(ENode(Number(rest[0].payload.GetOr(0.0)))), [])
  {
    AlternDelegates(g, PrimaryId, rest, parent, 0);
  }

  /** A `(` starts a braced group as a primary expression. */
  lemma PrimaryGroup(g: seq<Step<Value>>, rest: seq<Token>, parent: string)
    requires WellFormed(g) && Has(g, PrimaryId) && Head(g, BracedGroupId) == {LParen}
    requires EndsWithEof(rest) && rest[0].kind == LParen
    ensures Parse(g, PrimaryId, rest, parent) == Parse(g, BracedGroupId, rest, "primary expression")
  {
    AlternDelegates(g, PrimaryId, rest, parent, 1);
  }

  /** No multiplicative operator follows: the list of pairs is empty. */
  lemma MultRestEmpty(g: seq<Step<Value>>, rest: seq<Token>, parent: string)
    requires WellFormed(g) && Has(g, MultRestId)
    requires EndsWithEof(rest) && rest[0].kind !in {Mul, Div, Mod}
    ensures Parse(g, MultRestId, rest, parent) == Result(0, Some(Items([])), [])
  {
    RepeatAtTerminator(g, MultRestId, rest, parent);
  }

  /** No additive operator follows: the list of pairs is empty. */
  lemma AddRestEmpty(g: seq<Step<Value>>, rest: seq<Token>, parent: string)
    requires WellFormed(g) && Has(g, AddRestId)
    requires EndsWithEof(rest) && rest[0].kind !in {Plus, Minus}
    ensures Parse(g, AddRestId, rest, parent) == Result(0, Some(Items([])), [])
  {
    RepeatAtTerminator(g, AddRestId, rest, parent);
  }

  /** A primary expression followed by no multiplicative operator is the
      whole multiplicative expression: the fold of no pairs is the operand. */
  lemma MultOfPrimary(g: seq<Step<Value>>, rest: seq<Token>, parent: string, n: nat, e: Expr, es: seq<ParserError>)
    requires WellFormed(g) && Has(g, ExprMultId) && Has(g, MultRestId) && EndsWithEof(rest)
    requires Parse(g, PrimaryId, rest, "multiplicative expression") == Result(n, Some(ENode(e)), es)
    requires n < |rest| && rest[n].kind !in {Mul, Div, Mod}
    ensures Parse(g, ExprMultId, rest, parent) == Result(n, Some(ENode(e)), es)
  {
    MultRestEmpty(g, rest[n..], "multiplicative expression");
    Concat2Of(g, ExprMultId, rest, parent, n, ENode(e), es, 0, Some(Items([])), []);
  }

  /** A multiplicative expression followed by no additive operator is the
      whole expression. */
  lemma ExprOfMult(g: seq<Step<Value>>, rest: seq<Token>, parent: string, n: nat, e: Expr, es: seq<ParserError>)
    requires WellFormed(g) && Has(g, ExprId) && Has(g, AddRestId) && EndsWithEof(rest)
    requires Parse(g, ExprMultId, rest, "additive expression") == Result(n, Some(ENode(e)), es)
    requires n < |rest| && rest[n].kind !in {Plus, Minus}
    ensures Parse(g, ExprId, rest, parent) == Result(n, Some(ENode(e)), es)
  {
    AddRestEmpty(g, rest[n..], "additive expression");
    assert g[ExprId].build2(ENode(e), Some(Items([]))) == Some(ENode(e));
    Concat2Of(g, ExprId, rest, parent, n, ENode(e), es, 0, Some(Items([])), []);
  }

  /** A primary expression followed by no operator is the whole expression. */
  lemma ExprOfPrimary(g: seq<Step<Value>>, rest: seq<Token>, parent: string, n: nat, e: Expr, es: seq<ParserError>)
    requires WellFormed(g) && Has(g, ExprMultId) && Has(g, MultRestId) && Has(g, ExprId) && Has(g, AddRestId)
    requires EndsWithEof(rest)
    requires Parse(g, PrimaryId, rest, "multiplicative expression") == Result(n, Some(ENode(e)), es)
    requires n < |rest| && rest[n].kind !in {Mul, Div, Mod, Plus, Minus}
    ensures Parse(g, ExprId, rest, parent) == Result(n, Some(ENode(e)), es)
  {
    MultOfPrimary(g, rest, "additive expression", n, e, es);
    ExprOfMult(g, rest, parent, n, e, es);
  }

  /** A braced group keeps its inner expression's value whether or not the
      closing parenthesis follows; a missing one adds the error "braced
      group" expecting `)` at the token after the inner expression. */
  lemma BracedGroup(g: seq<Step<Value>>, rest: seq<Token>, parent: string)
    requires WellFormed(g) && Has(g, BracedGroupId) && Has(g, LParenId) && Has(g, RParenId)
    requires EndsWithEof(rest) && rest[0].kind == LParen
    ensures var inner := Parse(g, ExprId, rest[1..], "braced group");
            var j := 1 + inner.read;
            j < |rest| &&
            Parse(g, BracedGroupId, rest, parent) ==
              if rest[j].kind == RParen then Result(j + 1, inner.value, Bubble(inner.errors, 1))
              else Result(j, inner.value, Bubble(inner.errors, 1) + [ParserError(j, "braced group", {RParen})])
  {
    var sub := "braced group";
    assert SubName(g[BracedGroupId].name, parent) == sub;
    var r1 := Parse(g, LParenId, rest, sub);
    assert r1.HasValue() && r1.read == 1 && r1.errors == [];
    var inner := Parse(g, ExprId, rest[1..], sub);
    var j := 1 + inner.read;
    Concat3Sequence(g, BracedGroupId, rest, parent);
    assert rest[j..][0] == rest[j];
    var r3 := Parse(g, RParenId, rest[j..], sub);
    var r := Parse(g, BracedGroupId, rest, parent);
    assert r.read == j + r3.read && r.value == inner.value;
    assert r.errors == Bubble(inner.errors, 1) + Bubble(r3.errors, j);
    if rest[j].kind != RParen {
      assert r3.read == 0 && r3.errors == [ParserError(0, sub, {RParen})];
      assert Bubble(r3.errors, j) == [ParserError(j, sub, {RParen})];
    } else {
      assert r3.read == 1 && r3.errors == [];
    }
  }

  /** A statement that starts like an expression is that expression. */
  lemma StmtOfExpr(g: seq<Step<Value>>, rest: seq<Token>, parent: string, n: nat, e: Expr, es: seq<ParserError>)
    requires WellFormed(g) && Has(g, StmtId) && Head(g, ExprId) == {LitNumber, LParen}
    requires EndsWithEof(rest) && rest[0].kind in {LitNumber, LParen}
    requires Parse(g, ExprId, rest, "statement") == Result(n, Some(ENode(e)), es)
    ensures Parse(g, StmtId, rest, parent) == Result(n, Some(ENode(e)), es)
  {
    AlternDelegates(g, StmtId, rest, parent, 1);
  }

  /** A token that can start no statement: the statement fails at once,
      naming every token type that could have started one. */
  lemma StmtNone(g: seq<Step<Value>>, rest: seq<Token>, parent: string)
    requires WellFormed(g) && Has(g, StmtId) && Head(g, StmtId) == {Semi, LitNumber, LParen}
    requires EndsWithEof(rest) && rest[0].kind !in {Semi, LitNumber, LParen}
    ensures Parse(g, StmtId, rest, parent) == Result(0, None, [ParserError(0, "statement", {Semi, LitNumber, LParen})])
  {
    AlternNoChoice(g, StmtId, rest, parent);
  }

  /** The program of two expression statements. */
  lemma ProgOfTwo(a: Expr, b: Expr)
    ensures BuildProg([ENode(a), ENode(b)]) == PNode(Prog([ExprStmt(a), ExprStmt(b)]))
  {
    var body := StmtsIn([ENode(a), ENode(b)]);
    assert body[0] == ExprStmt(a) && body[1] == ExprStmt(b);
  }

  // ---------------------------------------------------------------------------
  // The test MissingOperator: "(5 4)"

  /** The tokens of "(5 4)". */
  function MissingOperatorTokens(): (ts: seq<Token>)
    ensures EndsWithEof(ts) && |ts| == 5
  {
    [ Token(FixedRange(0, 1), LParen, None),
      Token(FixedRange(1, 2), LitNumber, Some(5.0)),
      Token(FixedRange(3, 4), LitNumber, Some(4.0)),
      Token(FixedRange(4, 5), RParen, None),
      Token(FixedRange(5, 5), Eof, None) ]
  }

  /** The statement loop of the program over "(5 4)", given what each
      statement attempt gives: two statements, then an attempt that fails
      without reading ends it. The tokens are named by what the loop looks
      at: where the statements start, and that none of those is a token
      the loop stops at. */
  lemma MissingOperatorLoop(g: seq<Step<Value>>, ts: seq<Token>, e1: ParserError, e2: ParserError)
    requires WellFormed(g) && ProgId < |g| && g[ProgId].Repeat? && g[ProgId].item == StmtId && g[ProgId].max >= 3
    requires EndsWithEof(ts) && |ts| == 5
    requires ts[0].kind !in g[ProgId].tail && ts[2].kind !in g[ProgId].tail && ts[3].kind !in g[ProgId].tail
    requires Parse(g, StmtId, ts, "program") == Result(2, Some(ENode(Number(5.0))), [e1])
    requires Parse(g, StmtId, ts[2..], "program") == Result(1, Some(ENode(Number(4.0))), [])
    requires Parse(g, StmtId, ts[3..], "program") == Result(0, None, [e2])
    ensures Optional(g, ProgId, ts, "program", Loop([], 0, [], false)) ==
            Loop([ENode(Number(5.0)), ENode(Number(4.0))], 3, [e1, e2.(index := e2.index + 3)], true)
  {
    var s0 := Loop([], 0, [], false);
    var s1 := Loop([ENode(Number(5.0))], 2, [e1], false);
    assert ts[0..] == ts;
    BubbleZero([e1]);
    assert s0.items + [ENode(Number(5.0))] == s1.items && s0.errors + Bubble([e1], 0) == s1.errors;
    OptionalTakes(g, ProgId, ts, "program", s0, 2, ENode(Number(5.0)), [e1]);
    MissingOperatorLoopAfterFirst(g, ts, e1, e2);
  }

  lemma MissingOperatorLoopAfterFirst(g: seq<Step<Value>>, ts: seq<Token>, e1: ParserError, e2: ParserError)
    requires WellFormed(g) && ProgId < |g| && g[ProgId].Repeat? && g[ProgId].item == StmtId && g[ProgId].max >= 3
    requires EndsWithEof(ts) && |ts| == 5
    requires ts[2].kind !in g[ProgId].tail && ts[3].kind !in g[ProgId].tail
    requires ErrorsAccurate([e1], ts, 2)
    requires Parse(g, StmtId, ts[2..], "program") == Result(1, Some(ENode(Number(4.0))), [])
    requires Parse(g, StmtId, ts[3..], "program") == Result(0, None, [e2])
    ensures Optional(g, ProgId, ts, "program", Loop([ENode(Number(5.0))], 2, [e1], false)) ==
            Loop([ENode(Number(5.0)), ENode(Number(4.0))], 3, [e1, e2.(index := e2.index + 3)], true)
  {
    var s1 := Loop([ENode(Number(5.0))], 2, [e1], false);
    var s2 := Loop([ENode(Number(5.0)), ENode(Number(4.0))], 3, [e1], false);
    assert s1.items + [ENode(Number(4.0))] == s2.items && s1.errors + Bubble([], 2) == s2.errors;
    OptionalTakes(g, ProgId, ts, "program", s1, 1, ENode(Number(4.0)), []);
    assert s2.errors + Bubble([e2], 3) == [e1, e2.(index := e2.index + 3)];
    OptionalHalts(g, ProgId, ts, "program", s2, [e2]);
  }

  /** The program over "(5 4)", given what each statement attempt gives. */
  lemma MissingOperatorProgram(g: seq<Step<Value>>, e1: ParserError, e2: ParserError)
    requires WellFormed(g) && Has(g, ProgId)
    requires var ts := MissingOperatorTokens();
             Parse(g, StmtId, ts, "program") == Result(2, Some(ENode(Number(5.0))), [e1]) &&
             Parse(g, StmtId, ts[2..], "program") == Result(1, Some(ENode(Number(4.0))), []) &&
             Parse(g, StmtId, ts[3..], "program") == Result(0, None, [e2])
    ensures Parse(g, ProgId, MissingOperatorTokens(), RootName) ==
            Result(3, Some(PNode(Prog([ExprStmt(Number(5.0)), ExprStmt(Number(4.0))]))), [e1, e2.(index := e2.index + 3)])
  {
    var ts := MissingOperatorTokens();
    assert g[ProgId] == StepAt(ProgId);
    MissingOperatorLoop(g, ts, e1, e2);
    ProgOfTwo(Number(5.0), Number(4.0));
    RepeatOfOptional(g, ProgId, MissingOperatorTokens(), RootName);
  }

  /** Inside the braces of "(5 4)": the expression 5, which stops at the 4. */
  lemma MissingOperatorInner()
    ensures WellFormed(Grammar())
    ensures Parse(Grammar(), ExprId, MissingOperatorTokens()[1..], "braced group") == Result(1, Some(ENode(Number(5.0))), [])
  {
    var g := Grammar();
    var ts := MissingOperatorTokens()[1..];
    GrammarHasAll();
    PrimaryNumber(g, ts, "multiplicative expression");
    ExprOfPrimary(g, ts, "braced group", 1, Number(5.0), []);
  }

  /** The braced group of "(5 4)": the 5, and no `)` where the 4 is. */
  lemma MissingOperatorGroup()
    ensures WellFormed(Grammar())
    ensures Parse(Grammar(), BracedGroupId, MissingOperatorTokens(), "primary expression") ==
            Result(2, Some(ENode(Number(5.0))), [ParserError(2, "braced group", {RParen})])
  {
    GrammarHasAll();
    MissingOperatorInner();
    BracedGroup(Grammar(), MissingOperatorTokens(), "primary expression");
    assert Bubble([], 1) + [ParserError(2, "braced group", {RParen})] == [ParserError(2, "braced group", {RParen})];
  }

  /** The first statement of "(5 4)", given its braced group. */
  lemma MissingOperatorFirstOf(g: seq<Step<Value>>)
    requires WellFormed(g) && Has(g, PrimaryId) && Has(g, ExprMultId) && Has(g, MultRestId)
    requires Has(g, ExprId) && Has(g, AddRestId) && Has(g, StmtId)
    requires Head(g, BracedGroupId) == {LParen} && Head(g, ExprId) == {LitNumber, LParen}
    requires Parse(g, BracedGroupId, MissingOperatorTokens(), "primary expression") ==
             Result(2, Some(ENode(Number(5.0))), [ParserError(2, "braced group", {RParen})])
    ensures Parse(g, StmtId, MissingOperatorTokens(), "program") ==
            Result(2, Some(ENode(Number(5.0))), [ParserError(2, "braced group", {RParen})])
  {
    var ts := MissingOperatorTokens();
    var e1 := ParserError(2, "braced group", {RParen});
    PrimaryGroup(g, ts, "multiplicative expression");
    ExprOfPrimary(g, ts, "statement", 2, Number(5.0), [e1]);
    StmtOfExpr(g, ts, "program", 2, Number(5.0), [e1]);
  }

  /** The first statement of "(5 4)": the braced group lacks its `)` but
      keeps the 5. */
  lemma MissingOperatorFirst()
    ensures WellFormed(Grammar())
    ensures Parse(Grammar(), StmtId, MissingOperatorTokens(), "program") ==
            Result(2, Some(ENode(Number(5.0))), [ParserError(2, "braced group", {RParen})])
  {
    GrammarHasAll();
    HeadPrimaryChoices();
    HeadExpr();
    MissingOperatorGroup();
    MissingOperatorFirstOf(Grammar());
  }

  /** The second statement of "(5 4)": the number 4, up to the `)`. */
  lemma MissingOperatorSecond()
    ensures WellFormed(Grammar())
    ensures Parse(Grammar(), StmtId, MissingOperatorTokens()[2..], "program") == Result(1, Some(ENode(Number(4.0))), [])
  {
    var g := Grammar();
    var ts := MissingOperatorTokens()[2..];
    GrammarHasAll();
    HeadExpr();
    PrimaryNumber(g, ts, "multiplicative expression");
    ExprOfPrimary(g, ts, "statement", 1, Number(4.0), []);
    StmtOfExpr(g, ts, "program", 1, Number(4.0), []);
  }

  /** The test MissingOperator: "(5 4)" gives the statements 5 and 4, and
      exactly two errors, in this order: the braced group expecting `)` at
      index 2, and the statement expecting `(`, a number or `;` at index 3,
      where the stray `)` stops the program. */
  lemma MissingOperator()
    ensures WellFormed(Grammar())
    ensures Parse(Grammar(), ProgId, MissingOperatorTokens(), RootName) ==
            Result(3, Some(PNode(Prog([ExprStmt(Number(5.0)), ExprStmt(Number(4.0))]))),
                   [ParserError(2, "braced group", {RParen}), ParserError(3, "statement", {LParen, LitNumber, Semi})])
  {
    var g := Grammar();
    var ts := MissingOperatorTokens();
    GrammarHasAll();
    HeadStmt();
    MissingOperatorFirst();
    MissingOperatorSecond();
    assert ts[2..][1..] == ts[3..];
    StmtNone(g, ts[3..], "program");
    var e2 := ParserError(0, "statement", {Semi, LitNumber, LParen});
    MissingOperatorProgram(g, ParserError(2, "braced group", {RParen}), e2);
    assert e2.(index := e2.index + 3) == ParserError(3, "statement", {LParen, LitNumber, Semi});
  }
}
