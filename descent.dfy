/** The recursive-descent ladder shared by the cursor parsers
    (src/Parsing/HelpfulParser.cs, src/Parsing/PrimitiveParser.cs,
    src/csharp/Parsing/HelpfulParser.cs, src/csharp/Parsing/PrimitiveParser.cs),
    as pure functions of the token sequence and a cursor position.

    statement = `;` | sum
    sum       = product { (`+` | `-`) product }
    product   = primary { (`*` | `/` | `%`) primary }
    primary   = number | `(` sum `)`

    The four parsers differ only in how a braced group treats a missing `)`
    and in whether `Eof` ends the input; a `Dialect` names those choices. The
    failure points each parser may report are recorded as `Attempt`s, in the
    order the parse meets them; each class turns them into its own reports. */
module Descent {
  import opened Wrappers
  import opened Tokens
  import opened Ast

  /** What `ExprPrimary` does after the inner expression of `(`. */
  datatype GroupRule =
      /** Try `)` in any case; a missing `)` after a good inner expression is
          reported, and the inner expression is kept (src/Parsing/HelpfulParser.cs). */
    | KeepInner
      /** Try `)` in any case; a missing `)` makes the group fail, silently
          (src/Parsing/PrimitiveParser.cs). */
    | DropInner
      /** Try `)` only after a good inner expression; a missing `)` is
          reported and the group fails (src/csharp/Parsing/HelpfulParser.cs). */
    | ReportMissing
      /** There are no groups: a primary is a number (src/csharp/Parsing/PrimitiveParser.cs). */
    | NoGroups

  /** `eofEnds`: whether `IsAtEnd` also holds on an `Eof` token, or only past
      the last token. */
  datatype Dialect = Dialect(groups: GroupRule, eofEnds: bool)

  /** The two places where a parse can fail: no primary where one is needed,
      and no `)` to close a group. */
  datatype Missing = MissingOperand | MissingRParen

  /** A failure point met at a cursor position. */
  datatype Attempt = Attempt(index: nat, what: Missing)

  /** The result of a parsing function: the value (`null` when absent), the
      cursor afterwards, and the failure points met on the way. */
  datatype Out<T> = Out(value: Option<T>, next: nat, attempts: seq<Attempt>)

  /** The result of parsing a whole program. */
  datatype ProgOut = ProgOut(body: seq<Stmt>, next: nat, attempts: seq<Attempt>)

  /** The two precedence levels of binary operators. */
  datatype Level = Sum | Product

  function Operators(l: Level): set<TokenType> {
    if l == Sum then {Plus, Minus} else {Mul, Div, Mod}
  }

  /** `IsAtEnd`. */
  predicate AtEnd(d: Dialect, ts: seq<Token>, i: nat) {
    i >= |ts| || (d.eofEnds && ts[i].kind == Eof)
  }

  /** The test of every `Match` overload: not at end, and the current token
      has one of the expected types. */
  predicate Accepts(d: Dialect, ts: seq<Token>, i: nat, kinds: set<TokenType>) {
    !AtEnd(d, ts, i) && ts[i].kind in kinds
  }

  /** `ExprPrimary`. */
  function Primary(d: Dialect, ts: seq<Token>, i: nat): (r: Out<Expr>)
    requires i <= |ts| && NumbersCarryValue(ts)
    ensures i <= r.next <= |ts| && (r.value.Some? ==> i < r.next)
    decreases |ts| - i, 0
  {
    if Accepts(d, ts, i, {LitNumber}) then
      Out(Some(Number(ts[i].payload.value)), i + 1, [])
    else if d.groups != NoGroups && Accepts(d, ts, i, {LParen}) then
      var inner := Chained(d, ts, i + 1, Sum);
      var j := inner.next;
      var closed := Accepts(d, ts, j, {RParen});
      match d.groups
      case KeepInner =>
        var missing := if !closed && inner.value.Some? then [Attempt(j, MissingRParen)] else [];
        Out(inner.value, if closed then j + 1 else j, inner.attempts + missing)
      case DropInner =>
        Out(if closed then inner.value else None, if closed then j + 1 else j, inner.attempts)
      case ReportMissing =>
        if inner.value.None? then inner
        else if closed then Out(inner.value, j + 1, inner.attempts)
        else Out(None, j, inner.attempts + [Attempt(j, MissingRParen)])
    else
      Out(None, i, [Attempt(i, MissingOperand)])
  }

  /** The operand of a level: a product for a sum, a primary for a product. */
  function Operand(d: Dialect, ts: seq<Token>, i: nat, l: Level): (r: Out<Expr>)
    requires i <= |ts| && NumbersCarryValue(ts)
    ensures i <= r.next <= |ts| && (r.value.Some? ==> i < r.next)
    decreases |ts| - i, if l == Sum then 3 else 1
  {
    if l == Sum then Chained(d, ts, i, Product) else Primary(d, ts, i)
  }

  /** `ParseExprBinaryLeftAssociative(operand, operators)`: an operand, then
      the chain of operators of the level. */
  function Chained(d: Dialect, ts: seq<Token>, i: nat, l: Level): (r: Out<Expr>)
    requires i <= |ts| && NumbersCarryValue(ts)
    ensures i <= r.next <= |ts| && (r.value.Some? ==> i < r.next)
    decreases |ts| - i, if l == Sum then 5 else 2
  {
    var first := Operand(d, ts, i, l);
    if first.value.None? then first
    else
      var rest := Chain(d, ts, first.next, l, first.value.value);
      Out(rest.value, rest.next, first.attempts + rest.attempts)
  }

  /** The loop of `ParseExprBinaryLeftAssociative` from cursor `j`, with the
      expression built so far: while an operator of the level follows, read
      it and an operand and put the result so far on the left. */
  function Chain(d: Dialect, ts: seq<Token>, j: nat, l: Level, acc: Expr): (r: Out<Expr>)
    requires j <= |ts| && NumbersCarryValue(ts)
    ensures j <= r.next <= |ts|
    decreases |ts| - j, 0
  {
    if Accepts(d, ts, j, Operators(l)) then
      var rhs := Operand(d, ts, j + 1, l);
      if rhs.value.None? then Out(None, rhs.next, rhs.attempts)
      else
        var rest := Chain(d, ts, rhs.next, l, Binary(acc, ts[j].kind, rhs.value.value));
        Out(rest.value, rest.next, rhs.attempts + rest.attempts)
    else
      Out(Some(acc), j, [])
  }

  /** `Stmt`: `;` is the empty statement, anything else an expression. */
  function Statement(d: Dialect, ts: seq<Token>, i: nat): (r: Out<Stmt>)
    requires i <= |ts| && NumbersCarryValue(ts)
    ensures i <= r.next <= |ts| && (r.value.Some? ==> i < r.next)
  {
    if Accepts(d, ts, i, {Semi}) then Out(Some(Nop), i + 1, [])
    else
      var e := Chained(d, ts, i, Sum);
      Out(if e.value.Some? then Some(ExprStmt(e.value.value)) else None, e.next, e.attempts)
  }

  /** The cursor after one turn of a synchronising statement loop: a statement
      that failed without reading anything skips one token. */
  function Resync(s: Out<Stmt>, i: nat): nat {
    if s.value.None? && s.next == i then i + 1 else s.next
  }

  /** The statement loop of the helpful parsers: statements until the end,
      skipping one token after a failure that read nothing. */
  function Synchronized(d: Dialect, ts: seq<Token>, i: nat): (r: ProgOut)
    requires i <= |ts| && NumbersCarryValue(ts)
    ensures i <= r.next <= |ts| && AtEnd(d, ts, r.next)
    decreases |ts| - i
  {
    if AtEnd(d, ts, i) then ProgOut([], i, [])
    else
      var s := Statement(d, ts, i);
      var rest := Synchronized(d, ts, Resync(s, i));
      ProgOut(OptionSeq(s.value) + rest.body, rest.next, s.attempts + rest.attempts)
  }

  /** One turn of `Synchronized`. */
  lemma SynchronizedTurn(d: Dialect, ts: seq<Token>, i: nat)
    requires i <= |ts| && NumbersCarryValue(ts) && !AtEnd(d, ts, i)
    ensures Synchronized(d, ts, i)
            == ProgOut(OptionSeq(Statement(d, ts, i).value) + Synchronized(d, ts, Resync(Statement(d, ts, i), i)).body,
                       Synchronized(d, ts, Resync(Statement(d, ts, i), i)).next,
                       Statement(d, ts, i).attempts + Synchronized(d, ts, Resync(Statement(d, ts, i), i)).attempts)
  {
  }

  /** One turn of `Chain` on an operator. */
  lemma ChainTurn(d: Dialect, ts: seq<Token>, j: nat, l: Level, acc: Expr)
    requires j <= |ts| && NumbersCarryValue(ts) && Accepts(d, ts, j, Operators(l))
    ensures var rhs := Operand(d, ts, j + 1, l);
            Chain(d, ts, j, l, acc)
            == if rhs.value.None? then Out(None, rhs.next, rhs.attempts)
               else Out(Chain(d, ts, rhs.next, l, Binary(acc, ts[j].kind, rhs.value.value)).value,
                        Chain(d, ts, rhs.next, l, Binary(acc, ts[j].kind, rhs.value.value)).next,
                        rhs.attempts + Chain(d, ts, rhs.next, l, Binary(acc, ts[j].kind, rhs.value.value)).attempts)
  {
  }

  /** `Chained` in terms of its operand and the chain after it. */
  lemma ChainedTurn(d: Dialect, ts: seq<Token>, i: nat, l: Level)
    requires i <= |ts| && NumbersCarryValue(ts)
    ensures var first := Operand(d, ts, i, l);
            Chained(d, ts, i, l)
            == if first.value.None? then first
               else Out(Chain(d, ts, first.next, l, first.value.value).value,
                        Chain(d, ts, first.next, l, first.value.value).next,
                        first.attempts + Chain(d, ts, first.next, l, first.value.value).attempts)
  {
  }

  /** The failure points of a braced group: those of its inner expression,
      then a missing `)` only when the inner expression gave a value and the
      dialect reports it. A failed inner expression adds nothing of its own. */
  lemma GroupFailurePoints(d: Dialect, ts: seq<Token>, i: nat)
    requires i <= |ts| && NumbersCarryValue(ts) && d.groups != NoGroups
    requires !Accepts(d, ts, i, {LitNumber}) && Accepts(d, ts, i, {LParen})
    ensures var inner := Chained(d, ts, i + 1, Sum);
            var missing := inner.value.Some? && !Accepts(d, ts, inner.next, {RParen});
            Primary(d, ts, i).attempts
            == inner.attempts + (if missing && d.groups != DropInner then [Attempt(inner.next, MissingRParen)] else [])
  {
    assert Chained(d, ts, i + 1, Sum).attempts + [] == Chained(d, ts, i + 1, Sum).attempts;
  }
}
