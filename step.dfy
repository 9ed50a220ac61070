/** The predictive parsing-combinator engine (src/Parsing/DataOriented/Step.cs).

    A grammar is a table of steps. A step refers to other steps by their index
    in the table, and the table is in construction order: a step is built after
    the steps it holds, so it may only refer to lower indices. The one exception
    is the middle slot of a three-part concatenation, which is bound after
    construction (`SetStep2`) and may close a cycle.

    `Parse` below is the meaning of running a step on a token span; the
    methods of module StepRunner compute it the way the source does, with
    loops and local accumulators. */
module Steps {
  import opened Wrappers
  import opened Tokens
  import opened Extensions
  import opened Errors
  import opened Results

  /** `int.MaxValue`, the default maximum of a repetition. */
  const IntMax: nat := 0x7FFF_FFFF

  type StepId = nat

  /** The four kinds of step, with the construction arguments each keeps. */
  datatype Step<!V> =
    | Terminal(name: Option<string>, build: Option<real> -> V, kind: TokenType)
    | Altern(name: Option<string>, choices: seq<StepId>)
    | Concat2(name: Option<string>, build2: (V, Option<V>) -> Option<V>, first: StepId, second: StepId)
    | Concat3(name: Option<string>, build3: (V, Option<V>, Option<V>) -> Option<V>,
              first: StepId, middle: Option<StepId>, last: StepId)
    | Repeat(name: Option<string>, collect: seq<V> -> V, item: StepId, tail: set<TokenType>, min: nat, max: nat)

  /** `name ?? parentName`: the rule name passed down and used in errors. */
  function SubName(name: Option<string>, parent: string): string {
    name.GetOr(parent)
  }

  // ---------------------------------------------------------------------------
  // Shape of a step table

  /** The steps a step holds were built before it; a late-bound middle step is
      any step of the table. */
  predicate ChildrenBelow<V>(s: Step<V>, id: StepId, size: nat) {
    match s
    case Terminal(_, _, _) => true
    case Altern(_, cs) => forall k :: 0 <= k < |cs| ==> cs[k] < id
    case Concat2(_, _, a, b) => a < id && b < id
    case Concat3(_, _, a, m, c) => a < id && c < id && (m.Some? ==> m.value < size)
    case Repeat(_, _, it, _, _, _) => it < id
  }

  predicate Ordered<V>(g: seq<Step<V>>) {
    forall id :: 0 <= id < |g| ==> ChildrenBelow(g[id], id, |g|)
  }

  /** `Head`: the token types that may start a match of step `id`. */
  function Head<V>(g: seq<Step<V>>, id: StepId): set<TokenType>
    requires Ordered(g) && id < |g|
    decreases id
  {
    match g[id]
    case Terminal(_, _, t) => {t}
    case Altern(_, cs) => set k, t | 0 <= k < |cs| && t in Head(g, cs[k]) :: t
    case Concat2(_, _, a, _) => Head(g, a)
    case Concat3(_, _, a, _, _) => Head(g, a)
    case Repeat(_, _, it, _, _, _) => Head(g, it)
  }

  /** A productive step reads at least one token whenever it succeeds. */
  predicate Productive<V>(g: seq<Step<V>>, id: StepId)
    requires Ordered(g) && id < |g|
    decreases id
  {
    match g[id]
    case Terminal(_, _, _) => true
    case Altern(_, cs) => forall k :: 0 <= k < |cs| ==> Productive(g, cs[k])
    case Concat2(_, _, a, _) => Productive(g, a)
    case Concat3(_, _, a, _, _) => Productive(g, a)
    case Repeat(_, _, it, _, mn, _) => mn > 0 && Productive(g, it)
  }

  /** The choices of an alternation have pairwise disjoint heads. */
  predicate DisjointHeads<V>(g: seq<Step<V>>, cs: seq<StepId>)
    requires Ordered(g) && forall k :: 0 <= k < |cs| ==> cs[k] < |g|
  {
    forall j, k :: 0 <= j < k < |cs| ==> Head(g, cs[j]) * Head(g, cs[k]) == {}
  }

  /** What the constructors assert of one step.
      - An alternation has a choice and its choices have disjoint heads.
      - A repetition has `min <= max`.
      - A late-bound middle step either was built earlier or follows a
        productive first step, so that the cycle it closes always reads a token
        before coming back (otherwise parsing would recurse without end).
      - No terminal matches the end-of-file sentinel: the engine indexes the
        token after every step without a bounds check, relying on the sentinel. */
  predicate LocalOk<V>(g: seq<Step<V>>, id: StepId)
    requires Ordered(g) && id < |g|
  {
    match g[id]
    case Terminal(_, _, t) => t != Eof
    case Altern(_, cs) => |cs| > 0 && DisjointHeads(g, cs)
    case Concat2(_, _, _, _) => true
    case Concat3(_, _, a, m, _) => m.Some? ==> m.value < id || Productive(g, a)
    case Repeat(_, _, _, _, mn, mx) => mn <= mx
  }

  /** A table under construction: every step passed its constructor's checks. */
  predicate Consistent<V>(g: seq<Step<V>>) {
    Ordered(g) && forall id :: 0 <= id < |g| ==> LocalOk(g, id)
  }

  /** A table ready to parse with: consistent, and every late-bound slot bound
      (`_step2.NotNull()`). */
  predicate WellFormed<V>(g: seq<Step<V>>) {
    Consistent(g) && forall id :: 0 <= id < |g| && g[id].Concat3? ==> g[id].middle.Some?
  }

  // ---------------------------------------------------------------------------
  // The alternation's constructor check, as the source writes it

  function SumOfSizes(hs: seq<set<TokenType>>): nat {
    if hs == [] then 0 else |hs[0]| + SumOfSizes(hs[1..])
  }

  function UnionOf(hs: seq<set<TokenType>>): (u: set<TokenType>)
    ensures forall k :: 0 <= k < |hs| ==> hs[k] <= u
    ensures forall t :: t in u ==> exists k :: 0 <= k < |hs| && t in hs[k]
  {
    if hs == [] then {} else hs[0] + UnionOf(hs[1..])
  }

  predicate PairwiseDisjoint(hs: seq<set<TokenType>>) {
    forall j, k :: 0 <= j < k < |hs| ==> hs[j] * hs[k] == {}
  }

  /** The source checks disjointness by counting: the sizes of the heads add
      up to the number of distinct token types among them exactly when no two
      heads share a token type. */
  lemma {:induction false} CountingDetectsOverlap(hs: seq<set<TokenType>>)
    ensures |UnionOf(hs)| <= SumOfSizes(hs)
    ensures SumOfSizes(hs) == |UnionOf(hs)| <==> PairwiseDisjoint(hs)
  {
    if hs != [] {
      var rest := hs[1..];
      CountingDetectsOverlap(rest);
      var u := UnionOf(rest);
      assert UnionOf(hs) == hs[0] + u;
      SizeOfUnion(hs[0], u);
      DisjointSplit(hs);
    }
  }

  /** A list of sets is pairwise disjoint exactly when its tail is and its
      first set is disjoint from the union of the tail. */
  lemma DisjointSplit(hs: seq<set<TokenType>>)
    requires hs != []
    ensures PairwiseDisjoint(hs) <==> PairwiseDisjoint(hs[1..]) && hs[0] * UnionOf(hs[1..]) == {}
  {
    var rest := hs[1..];
    if PairwiseDisjoint(hs) {
      forall j, k | 0 <= j < k < |rest| ensures rest[j] * rest[k] == {} {
        assert rest[j] == hs[j + 1] && rest[k] == hs[k + 1];
      }
      forall k | 0 <= k < |rest| ensures hs[0] * rest[k] == {} {
        assert rest[k] == hs[k + 1];
      }
    }
    if PairwiseDisjoint(rest) && hs[0] * UnionOf(rest) == {} {
      forall j, k | 0 <= j < k < |hs| ensures hs[j] * hs[k] == {} {
        if j == 0 {
          assert hs[k] == rest[k - 1];
        } else {
          assert hs[j] == rest[j - 1] && hs[k] == rest[k - 1];
        }
      }
    }
  }

  lemma SizeOfUnion(a: set<TokenType>, b: set<TokenType>)
    ensures |a + b| == |a| + |b| - |a * b|
  {
    var d := a - b;
    assert a + b == d + b && d * b == {};
    assert a == d + a * b && d * (a * b) == {};
  }

  /** The heads of a list of choices. */
  function HeadsOf<V>(g: seq<Step<V>>, cs: seq<StepId>): (hs: seq<set<TokenType>>)
    requires Ordered(g) && forall k :: 0 <= k < |cs| ==> cs[k] < |g|
    ensures |hs| == |cs| && forall k :: 0 <= k < |cs| ==> hs[k] == Head(g, cs[k])
  {
    seq(|cs|, k requires 0 <= k < |cs| => Head(g, cs[k]))
  }

  /** The constructor's counting assertion is the disjointness requirement. */
  lemma CountingAssertionIsDisjointness<V>(g: seq<Step<V>>, cs: seq<StepId>)
    requires Ordered(g) && forall k :: 0 <= k < |cs| ==> cs[k] < |g|
    ensures SumOfSizes(HeadsOf(g, cs)) == |UnionOf(HeadsOf(g, cs))| <==> DisjointHeads(g, cs)
  {
    CountingDetectsOverlap(HeadsOf(g, cs));
  }

  // ---------------------------------------------------------------------------
  // What a result promises

  /** Every error lies within the tokens read (or at the token just after) and
      names a token whose type is really not among the expected ones; indices
      are relative to the span the step parsed. */
  predicate ErrorsAccurate(es: seq<ParserError>, rest: seq<Token>, read: nat) {
    forall k :: 0 <= k < |es| ==>
      0 <= es[k].index <= read && es[k].index < |rest| && rest[es[k].index].kind !in es[k].expected
  }

  /** The invariant of every step result on a span ending with the sentinel. */
  predicate Sound<V>(g: seq<Step<V>>, id: StepId, rest: seq<Token>, r: Result<V>)
    requires Ordered(g) && id < |g|
  {
    r.read < |rest| &&
    (Productive(g, id) && r.HasValue() ==> r.read > 0) &&
    ErrorsAccurate(r.errors, rest, r.read)
  }

  lemma AccurateWeaken(es: seq<ParserError>, rest: seq<Token>, read: nat, read': nat)
    requires ErrorsAccurate(es, rest, read) && read <= read'
    ensures ErrorsAccurate(es, rest, read')
  {
  }

  lemma AccurateAppend(xs: seq<ParserError>, ys: seq<ParserError>, rest: seq<Token>, read: nat)
    requires ErrorsAccurate(xs, rest, read) && ErrorsAccurate(ys, rest, read)
    ensures ErrorsAccurate(xs + ys, rest, read)
  {
    forall k | 0 <= k < |xs + ys|
      ensures 0 <= (xs + ys)[k].index <= read && (xs + ys)[k].index < |rest|
      ensures rest[(xs + ys)[k].index].kind !in (xs + ys)[k].expected
    {
      if k >= |xs| { assert (xs + ys)[k] == ys[k - |xs|]; }
    }
  }

  /** Bubbling the errors of a sub-step that started at offset `i` makes them
      accurate for the enclosing span. */
  lemma AccurateBubble(es: seq<ParserError>, rest: seq<Token>, i: nat, read: nat)
    requires i <= |rest| && ErrorsAccurate(es, rest[i..], read)
    ensures ErrorsAccurate(Bubble(es, i), rest, i + read)
  {
    forall k | 0 <= k < |es|
      ensures 0 <= Bubble(es, i)[k].index <= i + read && Bubble(es, i)[k].index < |rest|
      ensures rest[Bubble(es, i)[k].index].kind !in Bubble(es, i)[k].expected
    {
      BubbleAt(es, i, k);
      assert rest[i..][es[k].index] == rest[i + es[k].index];
    }
  }

  /** The errors accumulated so far plus those of a sub-step run at `at`. */
  lemma AccurateExtend(acc: seq<ParserError>, es: seq<ParserError>, rest: seq<Token>, at: nat, read: nat)
    requires at <= |rest| && ErrorsAccurate(acc, rest, at) && ErrorsAccurate(es, rest[at..], read)
    ensures ErrorsAccurate(acc + Bubble(es, at), rest, at + read)
  {
    AccurateBubble(es, rest, at, read);
    AccurateWeaken(acc, rest, at, at + read);
    AccurateAppend(acc, Bubble(es, at), rest, at + read);
  }

  // ---------------------------------------------------------------------------
  // The meaning of running a step

  /** `Terminal.Parse`. */
  function TerminalParse<V>(name: Option<string>, build: Option<real> -> V, t: TokenType,
                            rest: seq<Token>, parent: string): (r: Result<V>)
    ensures r.HasValue() <==> |rest| > 0 && rest[0].kind == t
    ensures r.HasValue() ==> r.read == 1 && r.value.value == build(rest[0].payload) && r.errors == []
    ensures !r.HasValue() ==> r.read == 0 && r.errors == [ParserError(0, SubName(name, parent), {t})]
  {
    if |rest| > 0 && rest[0].kind == t then Ok(1, build(rest[0].payload), None)
    else Fail(0, Some([ParserError(0, SubName(name, parent), {t})]))
  }

  /** The first choice, from position `k` on, whose head holds `t`. */
  function FirstChoice<V>(g: seq<Step<V>>, cs: seq<StepId>, t: TokenType, k: nat): (r: Option<nat>)
    requires Ordered(g) && k <= |cs| && forall j :: 0 <= j < |cs| ==> cs[j] < |g|
    ensures r.Some? ==> k <= r.value < |cs| && t in Head(g, cs[r.value])
    ensures r.Some? ==> forall j :: k <= j < r.value ==> t !in Head(g, cs[j])
    ensures r.None? ==> forall j :: k <= j < |cs| ==> t !in Head(g, cs[j])
    decreases |cs| - k
  {
    if k == |cs| then None
    else if t in Head(g, cs[k]) then Some(k)
    else FirstChoice(g, cs, t, k + 1)
  }

  function Parse<V>(g: seq<Step<V>>, id: StepId, rest: seq<Token>, parent: string): (r: Result<V>)
    requires WellFormed(g) && id < |g| && EndsWithEof(rest)
    ensures Sound(g, id, rest, r)
    decreases |rest|, id, 3, 0, 0
  {
    match g[id]
    case Terminal(name, build, t) =>
      assert LocalOk(g, id);
      TerminalParse(name, build, t, rest, parent)
    case Altern(_, _) => AlternParse(g, id, rest, parent)
    case Concat2(_, _, _, _) => Concat2Parse(g, id, rest, parent)
    case Concat3(_, _, _, _, _) => Concat3Parse(g, id, rest, parent)
    case Repeat(_, _, _, _, _, _) => RepeatParse(g, id, rest, parent)
  }

  /** `Altern.Parse`: run the choice whose head holds the next token type, or fail. */
  function AlternParse<V>(g: seq<Step<V>>, id: StepId, rest: seq<Token>, parent: string): (r: Result<V>)
    requires WellFormed(g) && id < |g| && g[id].Altern? && EndsWithEof(rest)
    ensures Sound(g, id, rest, r)
    decreases |rest|, id, 2, 0, 0
  {
    var sub := SubName(g[id].name, parent);
    var cs := g[id].choices;
    match FirstChoice(g, cs, rest[0].kind, 0)
    case Some(k) => Parse(g, cs[k], rest, sub)
    case None => Fail(0, Some([ParserError(0, sub, Head(g, id))]))
  }

  /** The end of a concatenation: `build(...).Match(Ok, Fail)`, a value
      exactly when the build gives one. */
  function Complete<V>(v: Option<V>, read: nat, errors: seq<ParserError>): (r: Result<V>)
    ensures r == Result(read, v, errors)
  {
    match v
    case Some(x) => Ok(read, x, Some(errors))
    case None => Fail(read, Some(errors))
  }

  /** `Concat<T, T1, T2>.Parse`. */
  function Concat2Parse<V>(g: seq<Step<V>>, id: StepId, rest: seq<Token>, parent: string): (r: Result<V>)
    requires WellFormed(g) && id < |g| && g[id].Concat2? && EndsWithEof(rest)
    ensures Sound(g, id, rest, r)
    decreases |rest|, id, 2, 0, 0
  {
    var Concat2(name, build, a, b) := g[id];
    var sub := SubName(name, parent);
    var r1 := Parse(g, a, rest, sub);
    BubbleZero(r1.errors);
    if !r1.HasValue() then Fail(r1.read, Some(Bubble(r1.errors, 0)))
    else
      var i := r1.read;
      var r2 := Parse(g, b, rest[i..], sub);
      var errors := Bubble(r1.errors, 0) + Bubble(r2.errors, i);
      AccurateExtend(r1.errors, r2.errors, rest, i, r2.read);
      Complete(build(r1.value.value, r2.value), i + r2.read, errors)
  }

  /** `Concat<T, T1, T2, T3>.Parse`. */
  function Concat3Parse<V>(g: seq<Step<V>>, id: StepId, rest: seq<Token>, parent: string): (r: Result<V>)
    requires WellFormed(g) && id < |g| && g[id].Concat3? && EndsWithEof(rest)
    ensures Sound(g, id, rest, r)
    decreases |rest|, id, 2, 0, 0
  {
    var Concat3(name, build, a, m, c) := g[id];
    assert LocalOk(g, id);
    var sub := SubName(name, parent);
    var r1 := Parse(g, a, rest, sub);
    BubbleZero(r1.errors);
    if !r1.HasValue() then Fail(r1.read, Some(Bubble(r1.errors, 0)))
    else
      var i := r1.read;
      var r2 := Parse(g, m.value, rest[i..], sub);
      var errors2 := Bubble(r1.errors, 0) + Bubble(r2.errors, i);
      AccurateExtend(r1.errors, r2.errors, rest, i, r2.read);
      var j := i + r2.read;
      var r3 := Parse(g, c, rest[j..], sub);
      var errors := errors2 + Bubble(r3.errors, j);
      AccurateExtend(errors2, r3.errors, rest, j, r3.read);
      Complete(build(r1.value.value, r2.value, r3.value), j + r3.read, errors)
  }

  /** The state of a repetition's loops: the items collected, the offset
      reached, the errors gathered, and whether the loop ended by returning. */
  datatype Loop<V> = Loop(items: seq<V>, at: nat, errors: seq<ParserError>, halted: bool)

  /** The first loop of `Repeat.Parse`: read the `min` mandatory items; a
      failure halts it. */
  function Mandatory<V>(g: seq<Step<V>>, id: StepId, rest: seq<Token>, sub: string, s: Loop<V>): (r: Loop<V>)
    requires WellFormed(g) && id < |g| && g[id].Repeat? && EndsWithEof(rest)
    requires s.at < |rest| && |s.items| <= g[id].min && !s.halted && ErrorsAccurate(s.errors, rest, s.at)
    ensures s.at <= r.at < |rest| && ErrorsAccurate(r.errors, rest, r.at)
    ensures !r.halted ==> |r.items| == g[id].min <= g[id].max
    ensures !r.halted && |s.items| < g[id].min && Productive(g, g[id].item) ==> r.at > s.at
    decreases |rest|, id, 1, g[id].min - |s.items|, 0
  {
    var it := g[id].item;
    assert LocalOk(g, id);
    if |s.items| >= g[id].min then s
    else
      var r := Parse(g, it, rest[s.at..], sub);
      var errors := s.errors + Bubble(r.errors, s.at);
      AccurateExtend(s.errors, r.errors, rest, s.at, r.read);
      var at := s.at + r.read;
      if !r.HasValue() then Loop(s.items, at, errors, true)
      else Mandatory(g, id, rest, sub, Loop(s.items + [r.value.value], at, errors, false))
  }

  /** The second loop of `Repeat.Parse`: read further items until `max` items,
      a terminator, or a failed attempt that read nothing (which halts it). */
  function Optional<V>(g: seq<Step<V>>, id: StepId, rest: seq<Token>, sub: string, s: Loop<V>): (r: Loop<V>)
    requires WellFormed(g) && id < |g| && g[id].Repeat? && EndsWithEof(rest)
    requires s.at < |rest| && |s.items| <= g[id].max && !s.halted && ErrorsAccurate(s.errors, rest, s.at)
    ensures s.at <= r.at < |rest| && ErrorsAccurate(r.errors, rest, r.at)
    ensures |s.items| <= |r.items| <= g[id].max && r.items[..|s.items|] == s.items
    ensures r.halted || |r.items| == g[id].max || rest[r.at].kind in g[id].tail
    ensures Productive(g, g[id].item) ==> |r.items| - |s.items| <= r.at - s.at
    decreases |rest|, id, 0, |rest| - s.at, g[id].max - |s.items|
  {
    var it := g[id].item;
    if |s.items| >= g[id].max || rest[s.at].kind in g[id].tail then s
    else
      var r := Parse(g, it, rest[s.at..], sub);
      var errors := s.errors + Bubble(r.errors, s.at);
      AccurateExtend(s.errors, r.errors, rest, s.at, r.read);
      var at := s.at + r.read;
      if r.HasValue() then
        var next := Loop(s.items + [r.value.value], at, errors, false);
        var o := Optional(g, id, rest, sub, next);
        assert o.items[..|s.items|] == o.items[..|next.items|][..|s.items|];
        o
      else if r.read == 0 then Loop(s.items, at, errors, true)
      else Optional(g, id, rest, sub, Loop(s.items, at, errors, false))
  }

  /** One mandatory attempt that gives an item: the loop goes on after it. */
  lemma MandatoryStepItem<V>(g: seq<Step<V>>, id: StepId, rest: seq<Token>, sub: string, s: Loop<V>, r: Result<V>)
    requires WellFormed(g) && id < |g| && g[id].Repeat? && EndsWithEof(rest)
    requires s.at < |rest| && |s.items| < g[id].min && !s.halted && ErrorsAccurate(s.errors, rest, s.at)
    requires r == Parse(g, g[id].item, rest[s.at..], sub) && r.HasValue()
    requires ErrorsAccurate(s.errors + Bubble(r.errors, s.at), rest, s.at + r.read)
    ensures Mandatory(g, id, rest, sub, s)
            == Mandatory(g, id, rest, sub, Loop(s.items + [r.value.value], s.at + r.read, s.errors + Bubble(r.errors, s.at), false))
  {
  }

  /** One mandatory attempt that fails: the loop halts after it. */
  lemma MandatoryStepFail<V>(g: seq<Step<V>>, id: StepId, rest: seq<Token>, sub: string, s: Loop<V>, r: Result<V>)
    requires WellFormed(g) && id < |g| && g[id].Repeat? && EndsWithEof(rest)
    requires s.at < |rest| && |s.items| < g[id].min && !s.halted && ErrorsAccurate(s.errors, rest, s.at)
    requires r == Parse(g, g[id].item, rest[s.at..], sub) && !r.HasValue()
    ensures Mandatory(g, id, rest, sub, s) == Loop(s.items, s.at + r.read, s.errors + Bubble(r.errors, s.at), true)
  {
  }

  /** One optional attempt that gives an item: the loop goes on after it;
      one that fails without reading halts it; one that fails after reading
      goes on from where it stopped. */
  lemma OptionalStepItem<V>(g: seq<Step<V>>, id: StepId, rest: seq<Token>, sub: string, s: Loop<V>, r: Result<V>)
    requires WellFormed(g) && id < |g| && g[id].Repeat? && EndsWithEof(rest)
    requires s.at < |rest| && |s.items| < g[id].max && !s.halted && ErrorsAccurate(s.errors, rest, s.at)
    requires rest[s.at].kind !in g[id].tail
    requires r == Parse(g, g[id].item, rest[s.at..], sub) && r.HasValue()
    requires ErrorsAccurate(s.errors + Bubble(r.errors, s.at), rest, s.at + r.read)
    ensures Optional(g, id, rest, sub, s)
            == Optional(g, id, rest, sub, Loop(s.items + [r.value.value], s.at + r.read, s.errors + Bubble(r.errors, s.at), false))
  {
  }

  lemma OptionalStepHalt<V>(g: seq<Step<V>>, id: StepId, rest: seq<Token>, sub: string, s: Loop<V>, r: Result<V>)
    requires WellFormed(g) && id < |g| && g[id].Repeat? && EndsWithEof(rest)
    requires s.at < |rest| && |s.items| < g[id].max && !s.halted && ErrorsAccurate(s.errors, rest, s.at)
    requires rest[s.at].kind !in g[id].tail
    requires r == Parse(g, g[id].item, rest[s.at..], sub) && !r.HasValue() && r.read == 0
    ensures Optional(g, id, rest, sub, s) == Loop(s.items, s.at, s.errors + Bubble(r.errors, s.at), true)
  {
  }

  lemma OptionalStepSkip<V>(g: seq<Step<V>>, id: StepId, rest: seq<Token>, sub: string, s: Loop<V>, r: Result<V>)
    requires WellFormed(g) && id < |g| && g[id].Repeat? && EndsWithEof(rest)
    requires s.at < |rest| && |s.items| < g[id].max && !s.halted && ErrorsAccurate(s.errors, rest, s.at)
    requires rest[s.at].kind !in g[id].tail
    requires r == Parse(g, g[id].item, rest[s.at..], sub) && !r.HasValue() && r.read > 0
    requires ErrorsAccurate(s.errors + Bubble(r.errors, s.at), rest, s.at + r.read)
    ensures Optional(g, id, rest, sub, s)
            == Optional(g, id, rest, sub, Loop(s.items, s.at + r.read, s.errors + Bubble(r.errors, s.at), false))
  {
  }

  /** An optional attempt that gives an item: the loop goes on after it. */
  lemma OptionalTakes<V>(g: seq<Step<V>>, id: StepId, rest: seq<Token>, sub: string, s: Loop<V>,
                         n: nat, v: V, es: seq<ParserError>)
    requires WellFormed(g) && id < |g| && g[id].Repeat? && EndsWithEof(rest)
    requires s.at < |rest| && |s.items| < g[id].max && !s.halted && ErrorsAccurate(s.errors, rest, s.at)
    requires rest[s.at].kind !in g[id].tail
    requires Parse(g, g[id].item, rest[s.at..], sub) == Result(n, Some(v), es)
    ensures s.at + n < |rest| && ErrorsAccurate(s.errors + Bubble(es, s.at), rest, s.at + n)
    ensures Optional(g, id, rest, sub, s) ==
            Optional(g, id, rest, sub, Loop(s.items + [v], s.at + n, s.errors + Bubble(es, s.at), false))
  {
    AccurateExtend(s.errors, es, rest, s.at, n);
    OptionalStepItem(g, id, rest, sub, s, Parse(g, g[id].item, rest[s.at..], sub));
  }

  /** An optional attempt that fails without reading ends the loop. */
  lemma OptionalHalts<V>(g: seq<Step<V>>, id: StepId, rest: seq<Token>, sub: string, s: Loop<V>, es: seq<ParserError>)
    requires WellFormed(g) && id < |g| && g[id].Repeat? && EndsWithEof(rest)
    requires s.at < |rest| && |s.items| < g[id].max && !s.halted && ErrorsAccurate(s.errors, rest, s.at)
    requires rest[s.at].kind !in g[id].tail
    requires Parse(g, g[id].item, rest[s.at..], sub) == Result(0, None, es)
    ensures Optional(g, id, rest, sub, s) == Loop(s.items, s.at, s.errors + Bubble(es, s.at), true)
  {
    AccurateExtend(s.errors, es, rest, s.at, 0);
    OptionalStepHalt(g, id, rest, sub, s, Parse(g, g[id].item, rest[s.at..], sub));
  }

  /** A repetition with no mandatory items is its optional loop from the
      start; when that loop halts, the repetition succeeds with its items. */
  lemma RepeatOfOptional<V>(g: seq<Step<V>>, id: StepId, rest: seq<Token>, parent: string)
    requires WellFormed(g) && id < |g| && g[id].Repeat? && EndsWithEof(rest) && g[id].min == 0
    ensures var o := Optional(g, id, rest, SubName(g[id].name, parent), Loop([], 0, [], false));
            o.halted ==> Parse(g, id, rest, parent) == Result(o.at, Some(g[id].collect(o.items)), o.errors)
  {
    assert LocalOk(g, id);
    var sub := SubName(g[id].name, parent);
    assert Mandatory(g, id, rest, sub, Loop([], 0, [], false)) == Loop([], 0, [], false);
    assert Parse(g, id, rest, parent) == RepeatParse(g, id, rest, parent);
  }

  /** `Repeat.Parse`. */
  function RepeatParse<V>(g: seq<Step<V>>, id: StepId, rest: seq<Token>, parent: string): (r: Result<V>)
    requires WellFormed(g) && id < |g| && g[id].Repeat? && EndsWithEof(rest)
    ensures Sound(g, id, rest, r)
    decreases |rest|, id, 2, 0, 0
  {
    var Repeat(name, collect, _, tail, _, _) := g[id];
    assert LocalOk(g, id);
    var sub := SubName(name, parent);
    var m := Mandatory(g, id, rest, sub, Loop([], 0, [], false));
    if m.halted then Fail(m.at, Some(m.errors))
    else
      var o := Optional(g, id, rest, sub, m);
      if o.halted || rest[o.at].kind in tail then Ok(o.at, collect(o.items), Some(o.errors))
      else
        var err := ParserError(o.at, sub, tail);
        AccurateAppend(o.errors, [err], rest, o.at);
        Fail(o.at, Some(o.errors + [err]))
  }

  // ---------------------------------------------------------------------------
  // Properties of the steps

  /** An alternation's head is the union of its choices' heads. */
  lemma AlternHead<V>(g: seq<Step<V>>, id: StepId, t: TokenType)
    requires Ordered(g) && id < |g| && g[id].Altern?
    ensures t in Head(g, id) <==> exists k :: 0 <= k < |g[id].choices| && t in Head(g, g[id].choices[k])
  {
  }

  /** The same, as one set. */
  lemma AlternHeadUnion<V>(g: seq<Step<V>>, id: StepId)
    requires Ordered(g) && id < |g| && g[id].Altern?
    ensures Head(g, id) == UnionOf(HeadsOf(g, g[id].choices))
  {
    var hs := HeadsOf(g, g[id].choices);
    forall t ensures t in Head(g, id) <==> t in UnionOf(hs) {
      AlternHead(g, id, t);
    }
  }

  /** The head of an alternation of two choices, and of three. */
  lemma AlternHeadOfTwo<V>(g: seq<Step<V>>, id: StepId)
    requires Ordered(g) && id < |g| && g[id].Altern? && |g[id].choices| == 2
    ensures Head(g, id) == Head(g, g[id].choices[0]) + Head(g, g[id].choices[1])
  {
    forall t ensures t in Head(g, id) <==> t in Head(g, g[id].choices[0]) + Head(g, g[id].choices[1]) {
      AlternHead(g, id, t);
    }
  }

  lemma AlternHeadOfThree<V>(g: seq<Step<V>>, id: StepId)
    requires Ordered(g) && id < |g| && g[id].Altern? && |g[id].choices| == 3
    ensures Head(g, id) == Head(g, g[id].choices[0]) + Head(g, g[id].choices[1]) + Head(g, g[id].choices[2])
  {
    var cs := g[id].choices;
    forall t ensures t in Head(g, id) <==> t in Head(g, cs[0]) + Head(g, cs[1]) + Head(g, cs[2]) {
      AlternHead(g, id, t);
    }
  }

  /** An alternation of two choices with disjoint heads passes its checks. */
  lemma AlternOfTwoOk<V>(g: seq<Step<V>>, id: StepId, a: StepId, b: StepId, ha: set<TokenType>, hb: set<TokenType>)
    requires Ordered(g) && id < |g| && g[id].Altern? && g[id].choices == [a, b]
    requires a < |g| && b < |g| && Head(g, a) == ha && Head(g, b) == hb && ha * hb == {}
    ensures LocalOk(g, id)
  {
  }

  /** An alternation hands the whole span, under its own name, to the one
      choice whose head holds the next token type; the result is that
      choice's, unchanged. */
  lemma AlternDelegates<V>(g: seq<Step<V>>, id: StepId, rest: seq<Token>, parent: string, k: nat)
    requires WellFormed(g) && id < |g| && g[id].Altern? && EndsWithEof(rest)
    requires k < |g[id].choices| && rest[0].kind in Head(g, g[id].choices[k])
    ensures Parse(g, id, rest, parent) == Parse(g, g[id].choices[k], rest, SubName(g[id].name, parent))
  {
    var cs := g[id].choices;
    assert LocalOk(g, id);
    var t := rest[0].kind;
    assert DisjointHeads(g, cs);
    forall j | 0 <= j < |cs| && j != k ensures t !in Head(g, cs[j]) {
      var a, b := Head(g, cs[j]), Head(g, cs[k]);
      assert t in b;
      if j < k {
        assert a * b == {};
      } else {
        assert b * a == {};
      }
      assert t in a ==> t in a * b;
    }
    assert FirstChoice(g, cs, rest[0].kind, 0) == Some(k);
  }

  /** When no choice's head holds the next token type, the alternation fails
      without reading, with the single error naming its whole head. */
  lemma AlternNoChoice<V>(g: seq<Step<V>>, id: StepId, rest: seq<Token>, parent: string)
    requires WellFormed(g) && id < |g| && g[id].Altern? && EndsWithEof(rest)
    requires rest[0].kind !in Head(g, id)
    ensures Parse(g, id, rest, parent) == Result(0, None, [ParserError(0, SubName(g[id].name, parent), Head(g, id))])
  {
    var cs := g[id].choices;
    AlternHead(g, id, rest[0].kind);
  }

  /** A concatenation whose first step fails reports that failure as its own:
      the same read, the first step's errors and nothing else. */
  lemma ConcatStopsAtFirstFailure<V>(g: seq<Step<V>>, id: StepId, rest: seq<Token>, parent: string)
    requires WellFormed(g) && id < |g| && (g[id].Concat2? || g[id].Concat3?) && EndsWithEof(rest)
    ensures var r1 := Parse(g, g[id].first, rest, SubName(g[id].name, parent));
            !r1.HasValue() ==> Parse(g, id, rest, parent) == Result(r1.read, None, r1.errors)
  {
    var r1 := Parse(g, g[id].first, rest, SubName(g[id].name, parent));
    BubbleZero(r1.errors);
  }

  /** A two-part concatenation whose first step succeeds runs the second
      after the tokens the first read: the reads add up, the errors are the
      first's followed by the second's shifted to where it started, and the
      result has a value exactly when the build gives one. */
  lemma Concat2Sequence<V>(g: seq<Step<V>>, id: StepId, rest: seq<Token>, parent: string)
    requires WellFormed(g) && id < |g| && g[id].Concat2? && EndsWithEof(rest)
    ensures var sub := SubName(g[id].name, parent);
            var r1 := Parse(g, g[id].first, rest, sub);
            r1.HasValue() ==>
              var r2 := Parse(g, g[id].second, rest[r1.read..], sub);
              var r := Parse(g, id, rest, parent);
              r.read == r1.read + r2.read &&
              r.errors == r1.errors + Bubble(r2.errors, r1.read) &&
              r.value == g[id].build2(r1.value.value, r2.value)
  {
    var r1 := Parse(g, g[id].first, rest, SubName(g[id].name, parent));
    BubbleZero(r1.errors);
  }

  /** A concatenation starts as its first part does. */
  lemma ConcatHead<V>(g: seq<Step<V>>, id: StepId, a: StepId)
    requires Ordered(g) && id < |g| && g[id].Concat2? && g[id].first == a
    ensures Head(g, id) == Head(g, a)
  {
  }

  /** `Concat2Sequence` for given results of the two parts. */
  lemma Concat2Of<V>(g: seq<Step<V>>, id: StepId, rest: seq<Token>, parent: string,
                     n: nat, v: V, es: seq<ParserError>, m: nat, w: Option<V>, fs: seq<ParserError>)
    requires WellFormed(g) && id < |g| && g[id].Concat2? && EndsWithEof(rest)
    requires Parse(g, g[id].first, rest, SubName(g[id].name, parent)) == Result(n, Some(v), es)
    requires n < |rest| && Parse(g, g[id].second, rest[n..], SubName(g[id].name, parent)) == Result(m, w, fs)
    ensures Parse(g, id, rest, parent) == Result(n + m, g[id].build2(v, w), es + Bubble(fs, n))
  {
    Concat2Sequence(g, id, rest, parent);
  }

  /** The same for three parts: the middle and last steps both run, whatever
      the middle step's outcome. */
  lemma Concat3Sequence<V>(g: seq<Step<V>>, id: StepId, rest: seq<Token>, parent: string)
    requires WellFormed(g) && id < |g| && g[id].Concat3? && EndsWithEof(rest)
    ensures var sub := SubName(g[id].name, parent);
            var r1 := Parse(g, g[id].first, rest, sub);
            r1.HasValue() ==>
              var i := r1.read;
              var r2 := Parse(g, g[id].middle.value, rest[i..], sub);
              var j := i + r2.read;
              var r3 := Parse(g, g[id].last, rest[j..], sub);
              var r := Parse(g, id, rest, parent);
              r.read == j + r3.read &&
              r.errors == r1.errors + Bubble(r2.errors, i) + Bubble(r3.errors, j) &&
              r.value == g[id].build3(r1.value.value, r2.value, r3.value)
  {
    var r1 := Parse(g, g[id].first, rest, SubName(g[id].name, parent));
    BubbleZero(r1.errors);
  }

  /** A repetition succeeds with every item it read, between `min` and `max`
      of them, and stops before a terminator unless an attempt failed without
      reading; it fails only when one of its first `min` attempts fails, or
      when `max` items were read and no terminator follows, in which case its
      last error names the terminators at the position reached. */
  lemma RepeatOutcome<V>(g: seq<Step<V>>, id: StepId, rest: seq<Token>, parent: string)
    requires WellFormed(g) && id < |g| && g[id].Repeat? && EndsWithEof(rest)
    ensures var sub := SubName(g[id].name, parent);
            var m := Mandatory(g, id, rest, sub, Loop([], 0, [], false));
            var r := Parse(g, id, rest, parent);
            (m.halted ==> r == Result(m.at, None, m.errors)) &&
            (!m.halted ==>
              var o := Optional(g, id, rest, sub, m);
              r.read == o.at &&
              g[id].min <= |o.items| <= g[id].max &&
              (r.HasValue() <==> o.halted || rest[o.at].kind in g[id].tail) &&
              (r.HasValue() ==> r.value == Some(g[id].collect(o.items)) && r.errors == o.errors) &&
              (!r.HasValue() ==> |o.items| == g[id].max &&
                                 r.errors == o.errors + [ParserError(o.at, sub, g[id].tail)]))
  {
    assert LocalOk(g, id);
  }

  /** A repetition with no mandatory items, looking at one of its
      terminators, succeeds at once: nothing read, no items, no errors. */
  lemma RepeatAtTerminator<V>(g: seq<Step<V>>, id: StepId, rest: seq<Token>, parent: string)
    requires WellFormed(g) && id < |g| && g[id].Repeat? && EndsWithEof(rest)
    requires g[id].min == 0 && rest[0].kind in g[id].tail
    ensures Parse(g, id, rest, parent) == Result(0, Some(g[id].collect([])), [])
  {
    assert LocalOk(g, id);
    var sub := SubName(g[id].name, parent);
    var s := Loop([], 0, [], false);
    assert Mandatory(g, id, rest, sub, s) == s;
    assert Optional(g, id, rest, sub, s) == s;
    assert Parse(g, id, rest, parent) == RepeatParse(g, id, rest, parent);
  }

  /** A repetition with no mandatory items, of an item that always reads
      a token, over a span no longer than its maximum, cannot fail: every
      item takes a token, so the maximum is out of reach and the loop stops at
      a terminator or at an attempt that read nothing. */
  lemma RepeatSucceeds<V>(g: seq<Step<V>>, id: StepId, rest: seq<Token>, parent: string)
    requires WellFormed(g) && id < |g| && g[id].Repeat? && EndsWithEof(rest)
    requires g[id].min == 0 && Productive(g, g[id].item) && |rest| <= g[id].max
    ensures Parse(g, id, rest, parent).value ==
            Some(g[id].collect(Optional(g, id, rest, SubName(g[id].name, parent), Loop([], 0, [], false)).items))
  {
    assert LocalOk(g, id);
    var sub := SubName(g[id].name, parent);
    var s := Loop([], 0, [], false);
    assert Mandatory(g, id, rest, sub, s) == s;
    assert Parse(g, id, rest, parent) == RepeatParse(g, id, rest, parent);
  }

  // ---------------------------------------------------------------------------
  // Growing and rebinding a table

  /** Two steps alike except, perhaps, in a late-bound middle slot. */
  ghost predicate SameSkeleton<V>(a: Step<V>, b: Step<V>) {
    if a.Concat3? then b.Concat3? && a.(middle := None) == b.(middle := None) else a == b
  }

  /** Heads and productivity do not depend on late-bound slots or on steps
      built later. */
  lemma {:induction false} SkeletonKeepsHead<V>(g: seq<Step<V>>, g': seq<Step<V>>, j: StepId)
    requires Ordered(g) && Ordered(g') && j < |g| <= |g'|
    requires forall i :: 0 <= i < |g| ==> SameSkeleton(g[i], g'[i])
    ensures Head(g', j) == Head(g, j)
    ensures Productive(g', j) <==> Productive(g, j)
    decreases j
  {
    assert SameSkeleton(g[j], g'[j]);
    match g[j]
    case Terminal(_, _, _) =>
    case Altern(_, cs) =>
      forall k | 0 <= k < |cs|
        ensures Head(g', cs[k]) == Head(g, cs[k]) && (Productive(g', cs[k]) <==> Productive(g, cs[k]))
      {
        SkeletonKeepsHead(g, g', cs[k]);
      }
    case Concat2(_, _, a, _) => SkeletonKeepsHead(g, g', a);
    case Concat3(_, _, a, _, _) => SkeletonKeepsHead(g, g', a);
    case Repeat(_, _, it, _, _, _) => SkeletonKeepsHead(g, g', it);
  }

  /** The constructors' checks of earlier steps stay true when a step is
      added or a late-bound slot of another step changes. */
  lemma SkeletonKeepsLocalOk<V>(g: seq<Step<V>>, g': seq<Step<V>>, j: StepId)
    requires Ordered(g) && Ordered(g') && j < |g| <= |g'| && g'[j] == g[j]
    requires forall i :: 0 <= i < |g| ==> SameSkeleton(g[i], g'[i])
    ensures LocalOk(g', j) <==> LocalOk(g, j)
  {
    match g[j]
    case Terminal(_, _, _) =>
    case Altern(_, cs) =>
      forall k | 0 <= k < |cs| ensures Head(g', cs[k]) == Head(g, cs[k]) {
        SkeletonKeepsHead(g, g', cs[k]);
      }
    case Concat2(_, _, _, _) =>
    case Concat3(_, _, a, _, _) => SkeletonKeepsHead(g, g', a);
    case Repeat(_, _, _, _, _, _) =>
  }
}
