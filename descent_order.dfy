/** The failure points of a parse are met in cursor order: every parsing
    function of `Descent` records them with nondecreasing token indices,
    all between where it started and where it stopped. Hence the helpful
    parsers report errors in token order, and the older helpful parser,
    which drops a repeat at the same index, reports strictly increasing
    indices within one parse. */
module DescentOrder {
  import opened Wrappers
  import opened Tokens
  import opened Ast
  import opened Descent
  import opened Errors
  import HelpfulParsing
  import LegacyHelpfulParsing

  /** Indices within [lo, hi], in nondecreasing order. */
  predicate InOrder(attempts: seq<Attempt>, lo: int, hi: int) {
    (forall k :: 0 <= k < |attempts| ==> lo <= attempts[k].index <= hi)
    && (forall k, m :: 0 <= k < m < |attempts| ==> attempts[k].index <= attempts[m].index)
  }

  lemma InOrderAppend(a: seq<Attempt>, b: seq<Attempt>, lo: int, mid: int, hi: int)
    requires lo <= mid <= hi && InOrder(a, lo, mid) && InOrder(b, mid, hi)
    ensures InOrder(a + b, lo, hi)
  {
    forall k, m | 0 <= k < m < |a + b|
      ensures (a + b)[k].index <= (a + b)[m].index
    {
      if m < |a| {
        assert (a + b)[k] == a[k] && (a + b)[m] == a[m];
      } else if k < |a| {
        assert (a + b)[k] == a[k] && (a + b)[m] == b[m - |a|];
      } else {
        assert (a + b)[k] == b[k - |a|] && (a + b)[m] == b[m - |a|];
      }
    }
    forall k | 0 <= k < |a + b|
      ensures lo <= (a + b)[k].index <= hi
    {
      if k < |a| {
        assert (a + b)[k] == a[k];
      } else {
        assert (a + b)[k] == b[k - |a|];
      }
    }
  }

  lemma {:induction false} PrimaryInOrder(d: Dialect, ts: seq<Token>, i: nat)
    requires i <= |ts| && NumbersCarryValue(ts)
    ensures InOrder(Primary(d, ts, i).attempts, i, Primary(d, ts, i).next)
    decreases |ts| - i, 0
  {
    if !Accepts(d, ts, i, {LitNumber}) && d.groups != NoGroups && Accepts(d, ts, i, {LParen}) {
      var inner := Chained(d, ts, i + 1, Sum);
      ChainedInOrder(d, ts, i + 1, Sum);
      var j := inner.next;
      InOrderAppend(inner.attempts, [Attempt(j, MissingRParen)], i, j, j);
      assert inner.attempts + [] == inner.attempts;
    }
  }

  lemma {:induction false} OperandInOrder(d: Dialect, ts: seq<Token>, i: nat, l: Level)
    requires i <= |ts| && NumbersCarryValue(ts)
    ensures InOrder(Descent.Operand(d, ts, i, l).attempts, i, Descent.Operand(d, ts, i, l).next)
    decreases |ts| - i, if l == Sum then 3 else 1
  {
    if l == Sum {
      ChainedInOrder(d, ts, i, Product);
    } else {
      PrimaryInOrder(d, ts, i);
    }
  }

  lemma {:induction false} ChainedInOrder(d: Dialect, ts: seq<Token>, i: nat, l: Level)
    requires i <= |ts| && NumbersCarryValue(ts)
    ensures InOrder(Chained(d, ts, i, l).attempts, i, Chained(d, ts, i, l).next)
    decreases |ts| - i, if l == Sum then 5 else 2
  {
    var first := Descent.Operand(d, ts, i, l);
    OperandInOrder(d, ts, i, l);
    if first.value.Some? {
      var rest := Chain(d, ts, first.next, l, first.value.value);
      ChainInOrder(d, ts, first.next, l, first.value.value);
      InOrderAppend(first.attempts, rest.attempts, i, first.next, rest.next);
    }
  }

  lemma {:induction false} ChainInOrder(d: Dialect, ts: seq<Token>, j: nat, l: Level, acc: Expr)
    requires j <= |ts| && NumbersCarryValue(ts)
    ensures InOrder(Chain(d, ts, j, l, acc).attempts, j, Chain(d, ts, j, l, acc).next)
    decreases |ts| - j, 0
  {
    if Accepts(d, ts, j, Operators(l)) {
      var rhs := Descent.Operand(d, ts, j + 1, l);
      OperandInOrder(d, ts, j + 1, l);
      if rhs.value.Some? {
        var acc' := Binary(acc, ts[j].kind, rhs.value.value);
        var rest := Chain(d, ts, rhs.next, l, acc');
        ChainInOrder(d, ts, rhs.next, l, acc');
        InOrderAppend(rhs.attempts, rest.attempts, j, rhs.next, rest.next);
      }
    }
  }

  lemma StatementInOrder(d: Dialect, ts: seq<Token>, i: nat)
    requires i <= |ts| && NumbersCarryValue(ts)
    ensures InOrder(Statement(d, ts, i).attempts, i, Statement(d, ts, i).next)
  {
    if !Accepts(d, ts, i, {Semi}) {
      ChainedInOrder(d, ts, i, Sum);
    }
  }

  /** The failure points of a whole program are in cursor order. */
  lemma {:induction false} SynchronizedInOrder(d: Dialect, ts: seq<Token>, i: nat)
    requires i <= |ts| && NumbersCarryValue(ts)
    ensures InOrder(Synchronized(d, ts, i).attempts, i, Synchronized(d, ts, i).next)
    decreases |ts| - i
  {
    if !AtEnd(d, ts, i) {
      var s := Statement(d, ts, i);
      StatementInOrder(d, ts, i);
      SynchronizedInOrder(d, ts, Resync(s, i));
      var rest := Synchronized(d, ts, Resync(s, i));
      InOrderAppend(s.attempts, rest.attempts, i, Resync(s, i), rest.next);
    }
  }

  /** The helpful parser reports errors in token order, at indices of the
      token list. */
  lemma HelpfulErrorsInOrder(ts: seq<Token>)
    requires NumbersCarryValue(ts)
    ensures var es := HelpfulParsing.ErrorsFor(Synchronized(HelpfulParsing.Helpful, ts, 0).attempts);
            (forall k :: 0 <= k < |es| ==> 0 <= es[k].index <= |ts|)
            && (forall k, m :: 0 <= k < m < |es| ==> es[k].index <= es[m].index)
  {
    var attempts := Synchronized(HelpfulParsing.Helpful, ts, 0).attempts;
    SynchronizedInOrder(HelpfulParsing.Helpful, ts, 0);
    HelpfulParsing.ErrorsForAt(attempts);
  }

  /** Report indices in strictly increasing order. */
  predicate Increasing(rs: seq<LegacyHelpfulParsing.Report>) {
    forall k, m :: 0 <= k < m < |rs| ==> rs[k].tokenIndex < rs[m].tokenIndex
  }

  /** After dropping repeats, failure points in order above `last` give
      reports at strictly increasing indices, all above `last`. */
  lemma {:induction false} ReportsAbove(attempts: seq<Attempt>, last: int, hi: int)
    requires InOrder(attempts, last, hi)
    ensures var rs := LegacyHelpfulParsing.Reports(attempts, last);
            Increasing(rs) && forall k :: 0 <= k < |rs| ==> last < rs[k].tokenIndex <= hi
    decreases |attempts|
  {
    if |attempts| > 0 {
      var a := attempts[0];
      var tail := attempts[1..];
      assert InOrder(tail, a.index, hi) by {
        forall k | 0 <= k < |tail|
          ensures a.index <= tail[k].index
        {
          assert tail[k] == attempts[k + 1];
        }
      }
      ReportsAbove(tail, a.index, hi);
    }
  }

  /** Failure points in order give reports at strictly increasing indices,
      whatever `last` is: only the first can be dropped for being at `last`. */
  lemma ReportsIncrease(attempts: seq<Attempt>, last: int, lo: int, hi: int)
    requires InOrder(attempts, lo, hi)
    ensures var rs := LegacyHelpfulParsing.Reports(attempts, last);
            Increasing(rs) && forall k :: 0 <= k < |rs| ==> lo <= rs[k].tokenIndex <= hi
  {
    if |attempts| > 0 {
      var a := attempts[0];
      var tail := attempts[1..];
      assert InOrder(tail, a.index, hi) by {
        forall k | 0 <= k < |tail|
          ensures a.index <= tail[k].index <= hi
        {
          assert tail[k] == attempts[k + 1];
        }
      }
      ReportsAbove(tail, a.index, hi);
      var head := if a.index == last then [] else [LegacyHelpfulParsing.Report(a.index, LegacyHelpfulParsing.MessageFor(a.what))];
      assert LegacyHelpfulParsing.Reports(attempts, last) == head + LegacyHelpfulParsing.Reports(tail, a.index);
    }
  }

  /** The older helpful parser reports strictly increasing token indices
      within one parse, whatever `_iLastError` was before it. */
  lemma LegacyReportsIncrease(ts: seq<Token>, last: int)
    requires NumbersCarryValue(ts)
    ensures var rs := LegacyHelpfulParsing.Reports(Synchronized(LegacyHelpfulParsing.Legacy, ts, 0).attempts, last);
            Increasing(rs) && forall k :: 0 <= k < |rs| ==> 0 <= rs[k].tokenIndex <= |ts|
  {
    SynchronizedInOrder(LegacyHelpfulParsing.Legacy, ts, 0);
    ReportsIncrease(Synchronized(LegacyHelpfulParsing.Legacy, ts, 0).attempts, last, 0, |ts|);
  }
}
