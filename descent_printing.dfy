/** Printing an expression as tokens and parsing it back: the ladder of
    `Descent` gives back the very expression, without a failure point, in
    every dialect that has groups. Operators of a sum bind looser than those
    of a product, and both group to the left, so a printed expression needs
    parentheses only around a right operand of its own level or looser and
    around a sum inside a product. */
module DescentPrinting {
  import opened Wrappers
  import opened Tokens
  import opened Ast
  import opened Descent

  /** What the parsers look at in a token: its type, and for a number
      literal its value. */
  datatype Lexeme = Lexeme(kind: TokenType, payload: Option<real>)

  /** `ts` holds the lexemes `p` from position `i` on. */
  predicate Reads(ts: seq<Token>, i: nat, p: seq<Lexeme>) {
    i + |p| <= |ts|
    && forall k :: 0 <= k < |p| ==>
         ts[i + k].kind == p[k].kind && (p[k].kind == LitNumber ==> ts[i + k].payload == p[k].payload)
  }

  lemma ReadsSplit(ts: seq<Token>, i: nat, a: seq<Lexeme>, b: seq<Lexeme>)
    requires Reads(ts, i, a + b)
    ensures Reads(ts, i, a) && Reads(ts, i + |a|, b)
  {
    forall k | 0 <= k < |a|
      ensures ts[i + k].kind == a[k].kind && (a[k].kind == LitNumber ==> ts[i + k].payload == a[k].payload)
    {
      assert (a + b)[k] == a[k];
    }
    forall k | 0 <= k < |b|
      ensures ts[i + |a| + k].kind == b[k].kind && (b[k].kind == LitNumber ==> ts[i + |a| + k].payload == b[k].payload)
    {
      assert (a + b)[|a| + k] == b[k];
    }
  }

  /** The token at one position of what `ts` reads. */
  lemma ReadsAt(ts: seq<Token>, i: nat, p: seq<Lexeme>, k: nat)
    requires Reads(ts, i, p) && k < |p|
    ensures ts[i + k].kind == p[k].kind && (p[k].kind == LitNumber ==> ts[i + k].payload == p[k].payload)
  {
  }

  /** An expression the parsers can build: every operator is one of a
      level's. */
  predicate Printable(e: Expr) {
    match e
    case Number(_) => true
    case Binary(a, op, b) => (op in Operators(Sum) || op in Operators(Product)) && Printable(a) && Printable(b)
  }

  /** `e` printed so that the function of level `l` reads it back. */
  function Print(e: Expr, l: Level): (p: seq<Lexeme>)
    ensures |p| >= 1 && p[0].kind in {LitNumber, LParen}
    decreases e, 0
  {
    match e
    case Number(v) => [Lexeme(LitNumber, Some(v))]
    case Binary(a, op, b) =>
      if op in Operators(Sum) then
        var sum := Print(a, Sum) + [Lexeme(op, None)] + Print(b, Product);
        if l == Sum then sum else [Lexeme(LParen, None)] + sum + [Lexeme(RParen, None)]
      else
        Print(a, Product) + [Lexeme(op, None)] + Grouped(b)
  }

  /** `e` printed as a primary: a number, or a sum in parentheses. */
  function Grouped(e: Expr): (p: seq<Lexeme>)
    ensures |p| >= 1 && p[0].kind in {LitNumber, LParen}
    decreases e, 1
  {
    match e
    case Number(v) => [Lexeme(LitNumber, Some(v))]
    case Binary(_, _, _) => [Lexeme(LParen, None)] + Print(e, Sum) + [Lexeme(RParen, None)]
  }

  /** The operand of level `l` printed. */
  function OperandPrint(e: Expr, l: Level): (p: seq<Lexeme>)
    ensures |p| >= 1
  {
    if l == Sum then Print(e, Product) else Grouped(e)
  }

  /** The operators and operands after the first operand of a level. */
  function Tail(l: Level, rights: seq<(TokenType, Expr)>): seq<Lexeme>
    decreases |rights|
  {
    if rights == [] then []
    else [Lexeme(rights[0].0, None)] + OperandPrint(rights[0].1, l) + Tail(l, rights[1..])
  }

  /** The left spine of `e` at level `l`: its leftmost operand of that
      level, and the operators and right operands after it. */
  function Base(e: Expr, l: Level): Expr {
    if e.Binary? && e.op in Operators(l) then Base(e.lhs, l) else e
  }

  function Rights(e: Expr, l: Level): seq<(TokenType, Expr)> {
    if e.Binary? && e.op in Operators(l) then Rights(e.lhs, l) + [(e.op, e.rhs)] else []
  }

  predicate RightsPrintable(l: Level, rights: seq<(TokenType, Expr)>) {
    forall k :: 0 <= k < |rights| ==> rights[k].0 in Operators(l) && Printable(rights[k].1)
  }

  lemma {:induction false} TailSnoc(l: Level, rights: seq<(TokenType, Expr)>, op: TokenType, rhs: Expr)
    ensures Tail(l, rights + [(op, rhs)]) == Tail(l, rights) + [Lexeme(op, None)] + OperandPrint(rhs, l)
    decreases |rights|
  {
    if rights == [] {
      assert rights + [(op, rhs)] == [(op, rhs)];
    } else {
      assert (rights + [(op, rhs)])[1..] == rights[1..] + [(op, rhs)];
      TailSnoc(l, rights[1..], op, rhs);
    }
  }

  lemma RightsSnocPrintable(l: Level, rights: seq<(TokenType, Expr)>, op: TokenType, rhs: Expr)
    requires RightsPrintable(l, rights) && op in Operators(l) && Printable(rhs)
    ensures RightsPrintable(l, rights + [(op, rhs)])
  {
    forall k | 0 <= k < |rights| + 1
      ensures (rights + [(op, rhs)])[k].0 in Operators(l) && Printable((rights + [(op, rhs)])[k].1)
    {
      if k < |rights| {
        assert (rights + [(op, rhs)])[k] == rights[k];
      }
    }
  }

  /** A printed expression is its first operand followed by the chain of
      its level. */
  lemma {:induction false} Spine(e: Expr, l: Level)
    requires Printable(e)
    ensures e == FoldLeft(Base(e, l), Rights(e, l))
    ensures Print(e, l) == OperandPrint(Base(e, l), l) + Tail(l, Rights(e, l))
    ensures Printable(Base(e, l)) && RightsPrintable(l, Rights(e, l))
  {
    if e.Binary? && e.op in Operators(l) {
      var a, op, b := e.lhs, e.op, e.rhs;
      Spine(a, l);
      var base, ra := Base(a, l), Rights(a, l);
      assert Base(e, l) == base && Rights(e, l) == ra + [(op, b)];
      FoldLeftSnoc(base, ra, op, b);
      TailSnoc(l, ra, op, b);
      RightsSnocPrintable(l, ra, op, b);
      var opLex := [Lexeme(op, None)];
      assert Print(e, l) == Print(a, l) + opLex + OperandPrint(b, l) by {
        if l == Sum {
          assert Print(e, Sum) == Print(a, Sum) + opLex + Print(b, Product);
        } else {
          assert op !in Operators(Sum);
          assert Print(e, Product) == Print(a, Product) + opLex + Grouped(b);
        }
      }
      var head := OperandPrint(base, l);
      calc {
        Print(e, l);
        (head + Tail(l, ra)) + opLex + OperandPrint(b, l);
        { AppendAssoc(head, Tail(l, ra), opLex);
          AppendAssoc(head, Tail(l, ra) + opLex, OperandPrint(b, l)); }
        head + (Tail(l, ra) + opLex + OperandPrint(b, l));
      }
    } else {
      assert Base(e, l) == e && Rights(e, l) == [];
      if e.Binary? {
        if l == Sum {
          assert Print(e, Sum) == Print(e, Product);
        } else {
          assert Grouped(e) == [Lexeme(LParen, None)] + Print(e, Sum) + [Lexeme(RParen, None)];
        }
      }
    }
  }

  /** The operators that would extend an expression of level `l`: an
      expression of that level ends where none of them follows. */
  function Binding(l: Level): set<TokenType> {
    if l == Sum then Operators(Sum) + Operators(Product) else Operators(Product)
  }

  lemma {:induction false} PrimaryReads(d: Dialect, ts: seq<Token>, i: nat, e: Expr)
    requires d.groups != NoGroups && NumbersCarryValue(ts) && Printable(e) && Reads(ts, i, Grouped(e))
    ensures Primary(d, ts, i) == Out(Some(e), i + |Grouped(e)|, [])
    decreases |ts| - i, 0
  {
    if e.Binary? {
      var p := Print(e, Sum);
      ReadsSplit(ts, i, [Lexeme(LParen, None)] + p, [Lexeme(RParen, None)]);
      ReadsSplit(ts, i, [Lexeme(LParen, None)], p);
      ReadsAt(ts, i, [Lexeme(LParen, None)], 0);
      ReadsAt(ts, i + 1 + |p|, [Lexeme(RParen, None)], 0);
      ChainedReads(d, ts, i + 1, Sum, e);
    } else {
      ReadsAt(ts, i, Grouped(e), 0);
    }
  }

  lemma {:induction false} OperandReads(d: Dialect, ts: seq<Token>, i: nat, l: Level, e: Expr)
    requires d.groups != NoGroups && NumbersCarryValue(ts) && Printable(e) && Reads(ts, i, OperandPrint(e, l))
    requires l == Sum ==> !Accepts(d, ts, i + |OperandPrint(e, l)|, Binding(Product))
    ensures Descent.Operand(d, ts, i, l) == Out(Some(e), i + |OperandPrint(e, l)|, [])
    decreases |ts| - i, if l == Sum then 3 else 1
  {
    if l == Sum {
      ChainedReads(d, ts, i, Product, e);
    } else {
      PrimaryReads(d, ts, i, e);
    }
  }

  lemma RightsRest(l: Level, rights: seq<(TokenType, Expr)>)
    requires RightsPrintable(l, rights) && rights != []
    ensures rights[0].0 in Operators(l) && Printable(rights[0].1) && RightsPrintable(l, rights[1..])
  {
    forall k | 0 <= k < |rights| - 1
      ensures rights[1..][k].0 in Operators(l) && Printable(rights[1..][k].1)
    {
      assert rights[1..][k] == rights[k + 1];
    }
  }

  lemma {:induction false} ChainedReads(d: Dialect, ts: seq<Token>, i: nat, l: Level, e: Expr)
    requires d.groups != NoGroups && NumbersCarryValue(ts) && Printable(e) && Reads(ts, i, Print(e, l))
    requires !Accepts(d, ts, i + |Print(e, l)|, Binding(l))
    ensures Chained(d, ts, i, l) == Out(Some(e), i + |Print(e, l)|, [])
    decreases |ts| - i, if l == Sum then 5 else 2
  {
    Spine(e, l);
    var base, rights := Base(e, l), Rights(e, l);
    var head := OperandPrint(base, l);
    ReadsSplit(ts, i, head, Tail(l, rights));
    var j := i + |head|;
    assert j + |Tail(l, rights)| == i + |Print(e, l)|;
    TailEndsOperand(d, ts, j, l, rights);
    OperandReads(d, ts, i, l, base);
    ChainReads(d, ts, j, l, base, rights);
    ChainedLink(d, ts, i, l, base, j, e, i + |Print(e, l)|);
  }

  /** An operand without failure points, then a chain without them. */
  lemma ChainedLink(d: Dialect, ts: seq<Token>, i: nat, l: Level, base: Expr, j: nat, e: Expr, n: nat)
    requires i <= j <= |ts| && NumbersCarryValue(ts)
    requires Descent.Operand(d, ts, i, l) == Out(Some(base), j, [])
    requires Chain(d, ts, j, l, base) == Out(Some(e), n, [])
    ensures Chained(d, ts, i, l) == Out(Some(e), n, [])
  {
    ChainedTurn(d, ts, i, l);
    var none: seq<Attempt> := [];
    assert none + none == none;
  }

  /** A chain's first link is an operator of its level, then an operand. */
  lemma {:induction false} ChainLinkHead(d: Dialect, ts: seq<Token>, j: nat, l: Level, rights: seq<(TokenType, Expr)>)
    requires RightsPrintable(l, rights) && Reads(ts, j, Tail(l, rights)) && rights != []
    ensures rights[0].0 in Operators(l) && Printable(rights[0].1) && RightsPrintable(l, rights[1..])
    ensures Accepts(d, ts, j, Operators(l)) && ts[j].kind == rights[0].0
    ensures Reads(ts, j + 1, OperandPrint(rights[0].1, l))
  {
    RightsRest(l, rights);
    var opLex := [Lexeme(rights[0].0, None)];
    var operand := OperandPrint(rights[0].1, l);
    assert Tail(l, rights) == (opLex + operand) + Tail(l, rights[1..]);
    ReadsSplit(ts, j, opLex + operand, Tail(l, rights[1..]));
    ReadsSplit(ts, j, opLex, operand);
    ReadsAt(ts, j, opLex, 0);
  }

  /** After a chain's first link come the other links. */
  lemma {:induction false} ChainLinkRest(d: Dialect, ts: seq<Token>, j: nat, l: Level, rights: seq<(TokenType, Expr)>)
    requires RightsPrintable(l, rights) && Reads(ts, j, Tail(l, rights)) && rights != []
    requires !Accepts(d, ts, j + |Tail(l, rights)|, Binding(l))
    ensures var after := j + 1 + |OperandPrint(rights[0].1, l)|;
            Reads(ts, after, Tail(l, rights[1..]))
            && after + |Tail(l, rights[1..])| == j + |Tail(l, rights)|
            && (l == Sum ==> !Accepts(d, ts, after, Binding(Product)))
  {
    RightsRest(l, rights);
    var opLex := [Lexeme(rights[0].0, None)];
    var operand := OperandPrint(rights[0].1, l);
    assert Tail(l, rights) == (opLex + operand) + Tail(l, rights[1..]);
    ReadsSplit(ts, j, opLex + operand, Tail(l, rights[1..]));
    TailEndsOperand(d, ts, j + 1 + |operand|, l, rights[1..]);
  }

  /** The operand before the rest of a chain ends there. */
  lemma {:induction false} TailEndsOperand(d: Dialect, ts: seq<Token>, p: nat, l: Level, rest: seq<(TokenType, Expr)>)
    requires RightsPrintable(l, rest) && Reads(ts, p, Tail(l, rest))
    requires !Accepts(d, ts, p + |Tail(l, rest)|, Binding(l))
    ensures l == Sum ==> !Accepts(d, ts, p, Binding(Product))
  {
    if rest != [] {
      RightsRest(l, rest);
      ReadsAt(ts, p, Tail(l, rest), 0);
    }
  }

  lemma {:induction false} ChainReads(d: Dialect, ts: seq<Token>, j: nat, l: Level, acc: Expr, rights: seq<(TokenType, Expr)>)
    requires d.groups != NoGroups && NumbersCarryValue(ts) && RightsPrintable(l, rights) && Reads(ts, j, Tail(l, rights))
    requires !Accepts(d, ts, j + |Tail(l, rights)|, Binding(l))
    ensures Chain(d, ts, j, l, acc) == Out(Some(FoldLeft(acc, rights)), j + |Tail(l, rights)|, [])
    decreases |ts| - j, 1
  {
    if rights == [] {
      assert !Accepts(d, ts, j, Operators(l));
    } else {
      var op, rhs, rest := rights[0].0, rights[0].1, rights[1..];
      var after := ChainLinkReads(d, ts, j, l, acc, rights);
      ChainReads(d, ts, after, l, Binary(acc, op, rhs), rest);
    }
  }

  /** A chain's first link reads its operator and operand, and the chain
      goes on after them with the link folded in. */
  lemma {:induction false} ChainLinkReads(d: Dialect, ts: seq<Token>, j: nat, l: Level, acc: Expr,
                                          rights: seq<(TokenType, Expr)>) returns (after: nat)
    requires d.groups != NoGroups && NumbersCarryValue(ts) && RightsPrintable(l, rights) && Reads(ts, j, Tail(l, rights))
    requires !Accepts(d, ts, j + |Tail(l, rights)|, Binding(l)) && rights != []
    ensures j < after <= |ts| && RightsPrintable(l, rights[1..]) && Reads(ts, after, Tail(l, rights[1..]))
    ensures after + |Tail(l, rights[1..])| == j + |Tail(l, rights)|
    ensures Chain(d, ts, j, l, acc) == Chain(d, ts, after, l, Binary(acc, rights[0].0, rights[0].1))
    decreases |ts| - j, 0
  {
    after := ChainLinkFacts(d, ts, j, l, rights);
    OperandReads(d, ts, j + 1, l, rights[0].1);
    ChainLinkTurn(d, ts, j, l, acc, rights[0].1, after);
  }

  /** Where a chain's first link ends, and what the tokens say there. */
  lemma ChainLinkFacts(d: Dialect, ts: seq<Token>, j: nat, l: Level, rights: seq<(TokenType, Expr)>) returns (after: nat)
    requires RightsPrintable(l, rights) && Reads(ts, j, Tail(l, rights)) && rights != []
    requires !Accepts(d, ts, j + |Tail(l, rights)|, Binding(l))
    ensures after == j + 1 + |OperandPrint(rights[0].1, l)| && j < after <= |ts|
    ensures RightsPrintable(l, rights[1..]) && Reads(ts, after, Tail(l, rights[1..]))
    ensures after + |Tail(l, rights[1..])| == j + |Tail(l, rights)|
    ensures Accepts(d, ts, j, Operators(l)) && ts[j].kind == rights[0].0 && Printable(rights[0].1)
    ensures Reads(ts, j + 1, OperandPrint(rights[0].1, l))
    ensures l == Sum ==> !Accepts(d, ts, after, Binding(Product))
  {
    after := j + 1 + |OperandPrint(rights[0].1, l)|;
    ChainLinkRest(d, ts, j, l, rights);
    ChainLinkHead(d, ts, j, l, rights);
  }

  /** An operator followed by an operand that parses without failure points
      folds that operand into the chain. */
  lemma ChainLinkTurn(d: Dialect, ts: seq<Token>, j: nat, l: Level, acc: Expr, rhs: Expr, after: nat)
    requires j < after <= |ts| && NumbersCarryValue(ts) && Accepts(d, ts, j, Operators(l))
    requires Descent.Operand(d, ts, j + 1, l) == Out(Some(rhs), after, [])
    ensures Chain(d, ts, j, l, acc) == Chain(d, ts, after, l, Binary(acc, ts[j].kind, rhs))
  {
    var c := Chain(d, ts, after, l, Binary(acc, ts[j].kind, rhs));
    ChainTurn(d, ts, j, l, acc);
    assert [] + c.attempts == c.attempts;
  }

  /** The round trip: the tokens of a printed expression, up to the end,
      parse back to one statement holding that expression, with no failure
      point. */
  lemma RoundTrip(d: Dialect, ts: seq<Token>, e: Expr)
    requires d.groups != NoGroups && NumbersCarryValue(ts) && Printable(e)
    requires Reads(ts, 0, Print(e, Sum)) && AtEnd(d, ts, |Print(e, Sum)|)
    ensures Synchronized(d, ts, 0) == ProgOut([ExprStmt(e)], |Print(e, Sum)|, [])
  {
    var n := |Print(e, Sum)|;
    ReadsAt(ts, 0, Print(e, Sum), 0);
    ChainedReads(d, ts, 0, Sum, e);
    SynchronizedTurn(d, ts, 0);
  }
}
