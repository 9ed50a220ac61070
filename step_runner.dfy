/** The `Parse` methods of the steps (src/Parsing/DataOriented/Step.cs), written
    as the source writes them: a search with early return, a local offset and
    error list, and the two loops of a repetition. Each computes the meaning
    the Steps module gives to the step. */
module StepRunner {
  import opened Wrappers
  import opened Tokens
  import opened Errors
  import opened Results
  import opened Steps

  /** `Step<T>.Parse`, dispatched on the kind of step. */
  method Run<V>(g: seq<Step<V>>, id: StepId, rest: seq<Token>, parent: string) returns (r: Result<V>)
    requires WellFormed(g) && id < |g| && EndsWithEof(rest)
    ensures r == Parse(g, id, rest, parent)
    decreases |rest|, id, 3
  {
    match g[id]
    case Terminal(name, build, t) =>
      if |rest| > 0 && rest[0].kind == t {
        r := Ok(1, build(rest[0].payload), None);
      } else {
        r := Fail(0, Some([ParserError(0, SubName(name, parent), {t})]));
      }
    case Altern(_, _) => r := RunAltern(g, id, rest, parent);
    case Concat2(_, _, _, _) => r := RunConcat2(g, id, rest, parent);
    case Concat3(_, _, _, _, _) => r := RunConcat3(g, id, rest, parent);
    case Repeat(_, _, _, _, _, _) => r := RunRepeat(g, id, rest, parent);
  }

  /** `Altern.Parse`: the first choice whose head holds the next token type. */
  method RunAltern<V>(g: seq<Step<V>>, id: StepId, rest: seq<Token>, parent: string) returns (r: Result<V>)
    requires WellFormed(g) && id < |g| && g[id].Altern? && EndsWithEof(rest)
    ensures r == AlternParse(g, id, rest, parent)
    decreases |rest|, id, 2
  {
    var sub := SubName(g[id].name, parent);
    var cs := g[id].choices;
    for k := 0 to |cs|
      invariant FirstChoice(g, cs, rest[0].kind, k) == FirstChoice(g, cs, rest[0].kind, 0)
    {
      if rest[0].kind in Head(g, cs[k]) {
        r := Run(g, cs[k], rest, sub);
        return;
      }
    }
    r := Fail(0, Some([ParserError(0, sub, Head(g, id))]));
  }

  /** `Concat<T, T1, T2>.Parse`. */
  method RunConcat2<V>(g: seq<Step<V>>, id: StepId, rest: seq<Token>, parent: string) returns (r: Result<V>)
    requires WellFormed(g) && id < |g| && g[id].Concat2? && EndsWithEof(rest)
    ensures r == Concat2Parse(g, id, rest, parent)
    decreases |rest|, id, 2
  {
    var Concat2(name, build, a, b) := g[id];
    var sub := SubName(name, parent);
    var i: nat := 0;
    var errors: seq<ParserError> := [];
    assert rest[i..] == rest;
    var r1 := Run(g, a, rest[i..], sub);
    errors := errors + Bubble(r1.errors, i);
    assert errors == Bubble(r1.errors, 0);
    i := i + r1.read;
    if !r1.HasValue() {
      return Fail(i, Some(errors));
    }
    var r2 := Run(g, b, rest[i..], sub);
    errors := errors + Bubble(r2.errors, i);
    i := i + r2.read;
    r := Complete(build(r1.value.value, r2.value), i, errors);
  }

  /** `Concat<T, T1, T2, T3>.Parse`. */
  method RunConcat3<V>(g: seq<Step<V>>, id: StepId, rest: seq<Token>, parent: string) returns (r: Result<V>)
    requires WellFormed(g) && id < |g| && g[id].Concat3? && EndsWithEof(rest)
    ensures r == Concat3Parse(g, id, rest, parent)
    decreases |rest|, id, 2
  {
    var Concat3(name, build, a, m, c) := g[id];
    assert LocalOk(g, id);
    var sub := SubName(name, parent);
    var i: nat := 0;
    var errors: seq<ParserError> := [];
    assert rest[i..] == rest;
    var r1 := Run(g, a, rest[i..], sub);
    errors := errors + Bubble(r1.errors, i);
    assert errors == Bubble(r1.errors, 0);
    i := i + r1.read;
    if !r1.HasValue() {
      return Fail(i, Some(errors));
    }
    assert m.value < id || i > 0;
    var r2 := Run(g, m.value, rest[i..], sub);
    errors := errors + Bubble(r2.errors, i);
    i := i + r2.read;
    var r3 := Run(g, c, rest[i..], sub);
    errors := errors + Bubble(r3.errors, i);
    i := i + r3.read;
    r := Complete(build(r1.value.value, r2.value, r3.value), i, errors);
    assert r == Concat3Parse(g, id, rest, parent) by {
      assert r1.HasValue() && Parse(g, a, rest, sub) == r1;
    }
  }

  /** `Repeat.Parse`: the mandatory items, then the optional ones, then the
      check for a terminator. */
  method RunRepeat<V>(g: seq<Step<V>>, id: StepId, rest: seq<Token>, parent: string) returns (r: Result<V>)
    requires WellFormed(g) && id < |g| && g[id].Repeat? && EndsWithEof(rest)
    ensures r == RepeatParse(g, id, rest, parent)
    decreases |rest|, id, 2
  {
    var Repeat(name, collect, _, tail, _, _) := g[id];
    var sub := SubName(name, parent);
    var m := ReadMandatory(g, id, rest, sub);
    if m.halted {
      return Fail(m.at, Some(m.errors));
    }
    var o := ReadOptional(g, id, rest, sub, m);
    if o.halted || rest[o.at].kind in tail {
      return Ok(o.at, collect(o.items), Some(o.errors));
    }
    r := Fail(o.at, Some(o.errors + [ParserError(o.at, sub, tail)]));
  }

  /** The first loop of `Repeat.Parse`: read what we must, fail if we don't
      have enough. */
  method ReadMandatory<V>(g: seq<Step<V>>, id: StepId, rest: seq<Token>, sub: string) returns (m: Loop<V>)
    requires WellFormed(g) && id < |g| && g[id].Repeat? && EndsWithEof(rest)
    ensures m == Mandatory(g, id, rest, sub, Loop([], 0, [], false))
    decreases |rest|, id, 1
  {
    var it, min := g[id].item, g[id].min;
    assert LocalOk(g, id);
    ghost var whole := Mandatory(g, id, rest, sub, Loop([], 0, [], false));
    var items: seq<V> := [];
    var i: nat := 0;
    var errors: seq<ParserError> := [];
    while |items| < min
      invariant i < |rest| && |items| <= min && ErrorsAccurate(errors, rest, i)
      invariant Mandatory(g, id, rest, sub, Loop(items, i, errors, false)) == whole
      decreases min - |items|
    {
      ghost var s := Loop(items, i, errors, false);
      var ri := Run(g, it, rest[i..], sub);
      AccurateExtend(errors, ri.errors, rest, i, ri.read);
      errors := errors + Bubble(ri.errors, i);
      i := i + ri.read;
      if !ri.HasValue() {
        MandatoryStepFail(g, id, rest, sub, s, ri);
        return Loop(items, i, errors, true);
      }
      MandatoryStepItem(g, id, rest, sub, s, ri);
      items := items + [ri.value.value];
      assert Loop(items, i, errors, false) == Loop(s.items + [ri.value.value], s.at + ri.read, s.errors + Bubble(ri.errors, s.at), false);
    }
    m := Loop(items, i, errors, false);
  }

  /** The second loop of `Repeat.Parse`: read until `max` items or a
      terminator; an attempt that fails without reading ends it early. */
  method ReadOptional<V>(g: seq<Step<V>>, id: StepId, rest: seq<Token>, sub: string, m: Loop<V>) returns (o: Loop<V>)
    requires WellFormed(g) && id < |g| && g[id].Repeat? && EndsWithEof(rest)
    requires m.at < |rest| && |m.items| <= g[id].max && !m.halted && ErrorsAccurate(m.errors, rest, m.at)
    ensures o == Optional(g, id, rest, sub, m)
    decreases |rest|, id, 0
  {
    var it, tail, max := g[id].item, g[id].tail, g[id].max;
    var items, i, errors := m.items, m.at, m.errors;
    ghost var whole := Optional(g, id, rest, sub, m);
    assert m == Loop(items, i, errors, false);
    while |items| < max && rest[i].kind !in tail
      invariant i < |rest| && |items| <= max && ErrorsAccurate(errors, rest, i)
      invariant Optional(g, id, rest, sub, Loop(items, i, errors, false)) == whole
      decreases |rest| - i, max - |items|
    {
      ghost var s := Loop(items, i, errors, false);
      var ri := Run(g, it, rest[i..], sub);
      AccurateExtend(errors, ri.errors, rest, i, ri.read);
      errors := errors + Bubble(ri.errors, i);
      i := i + ri.read;
      if ri.HasValue() {
        OptionalStepItem(g, id, rest, sub, s, ri);
        items := items + [ri.value.value];
        assert Loop(items, i, errors, false) == Loop(s.items + [ri.value.value], s.at + ri.read, s.errors + Bubble(ri.errors, s.at), false);
      } else if ri.read == 0 {
        OptionalStepHalt(g, id, rest, sub, s, ri);
        return Loop(items, i, errors, true);
      } else {
        OptionalStepSkip(g, id, rest, sub, s, ri);
        assert Loop(items, i, errors, false) == Loop(s.items, s.at + ri.read, s.errors + Bubble(ri.errors, s.at), false);
      }
    }
    o := Loop(items, i, errors, false);
  }
}
