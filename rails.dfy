/** The railway grammar shared by src/Parsing/RailwayParser.cs and
    src/csharp/Parsing/DataOrientedParser.cs, as pure functions of the token
    sequence and a cursor position.

    statement = `;` | expr
    expr      = first of [number, grouping]
    grouping  = `(` expr `)`

    No failure is reported and nothing is given back: a production that fails
    after reading tokens leaves the cursor after them. */
module Rails {
  import opened Wrappers
  import opened Tokens
  import opened Ast

  /** The result of a production: its value (`null` when absent) and the
      cursor afterwards. */
  datatype Parsed<T> = Parsed(value: Option<T>, next: nat)

  /** The productions `First` chooses among in `Expr`. */
  datatype Rule = NumberRule | GroupingRule

  /** The alternatives of `Expr`, in the order they are tried. */
  const ExprRules := [NumberRule, GroupingRule]

  /** `IsAtEnd`: past the last token or on `Eof`. */
  predicate AtEnd(ts: seq<Token>, i: nat) {
    i >= |ts| || ts[i].kind == Eof
  }

  /** The test of every `One` overload on token types. */
  predicate Accepts(ts: seq<Token>, i: nat, kinds: set<TokenType>) {
    !AtEnd(ts, i) && ts[i].kind in kinds
  }

  /** `Number`. */
  function NumberAt(ts: seq<Token>, i: nat): (r: Parsed<Expr>)
    requires i <= |ts| && NumbersCarryValue(ts)
    ensures i <= r.next <= |ts| && (r.value.Some? ==> i < r.next)
  {
    if Accepts(ts, i, {LitNumber}) then Parsed(Some(Number(ts[i].payload.value)), i + 1)
    else Parsed(None, i)
  }

  /** `Grouping`: `(`, an expression and `)`, each tried only if the one
      before it succeeded. */
  function GroupingAt(ts: seq<Token>, i: nat): (r: Parsed<Expr>)
    requires i <= |ts| && NumbersCarryValue(ts)
    ensures i <= r.next <= |ts| && (r.value.Some? ==> i < r.next)
    decreases |ts| - i, 0, 0
  {
    if !Accepts(ts, i, {LParen}) then Parsed(None, i)
    else
      var inner := ExprAt(ts, i + 1);
      if inner.value.None? then Parsed(None, inner.next)
      else if Accepts(ts, inner.next, {RParen}) then Parsed(inner.value, inner.next + 1)
      else Parsed(None, inner.next)
  }

  /** The production a rule names. */
  function RunAt(rule: Rule, ts: seq<Token>, i: nat): (r: Parsed<Expr>)
    requires i <= |ts| && NumbersCarryValue(ts)
    ensures i <= r.next <= |ts| && (r.value.Some? ==> i < r.next)
    decreases |ts| - i, 1, 0
  {
    match rule
    case NumberRule => NumberAt(ts, i)
    case GroupingRule => GroupingAt(ts, i)
  }

  /** `First`: each production in turn, from where the one before it left
      the cursor, until one gives a value. */
  function FirstAt(rules: seq<Rule>, ts: seq<Token>, i: nat): (r: Parsed<Expr>)
    requires i <= |ts| && NumbersCarryValue(ts)
    ensures i <= r.next <= |ts| && (r.value.Some? ==> i < r.next)
    decreases |ts| - i, 2, |rules|
  {
    if |rules| == 0 then Parsed(None, i)
    else
      var r := RunAt(rules[0], ts, i);
      if r.value.Some? then r else FirstAt(rules[1..], ts, r.next)
  }

  /** `Expr`. */
  function ExprAt(ts: seq<Token>, i: nat): (r: Parsed<Expr>)
    requires i <= |ts| && NumbersCarryValue(ts)
    ensures i <= r.next <= |ts| && (r.value.Some? ==> i < r.next)
    decreases |ts| - i, 3, 0
  {
    FirstAt(ExprRules, ts, i)
  }

  /** `Stmt`: `;` is the empty statement, anything else an expression. */
  function StatementAt(ts: seq<Token>, i: nat): (r: Parsed<Stmt>)
    requires i <= |ts| && NumbersCarryValue(ts)
    ensures i <= r.next <= |ts| && (r.value.Some? ==> i < r.next)
  {
    if Accepts(ts, i, {Semi}) then Parsed(Some(Nop), i + 1)
    else
      var e := ExprAt(ts, i);
      Parsed(if e.value.Some? then Some(ExprStmt(e.value.value)) else None, e.next)
  }

  /** The cursor after one turn of `ZeroOrMore`: a failure that read
      nothing skips one token. */
  function Resync(s: Parsed<Stmt>, i: nat): nat {
    if s.value.None? && s.next == i then i + 1 else s.next
  }

  /** `ZeroOrMore(Stmt)` from `i`: the statements collected. */
  function StatementsFrom(ts: seq<Token>, i: nat): (body: seq<Stmt>)
    requires i <= |ts| && NumbersCarryValue(ts)
    ensures |body| <= |ts| - i
    decreases |ts| - i
  {
    if AtEnd(ts, i) then []
    else
      var s := StatementAt(ts, i);
      OptionSeq(s.value) + StatementsFrom(ts, Resync(s, i))
  }

  /** Where `ZeroOrMore(Stmt)` from `i` leaves the cursor. */
  function StatementsEnd(ts: seq<Token>, i: nat): (j: nat)
    requires i <= |ts| && NumbersCarryValue(ts)
    ensures i <= j <= |ts| && AtEnd(ts, j)
    decreases |ts| - i
  {
    if AtEnd(ts, i) then i else StatementsEnd(ts, Resync(StatementAt(ts, i), i))
  }
}
