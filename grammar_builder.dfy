/** Building a step table the way the source's constructors do
    (src/Parsing/DataOriented/Step.cs): each `Of` adds one step after checking
    its `Debug.Assert`s, and `SetStep2` binds a three-part concatenation's
    middle step afterwards. */
module GrammarBuilding {
  import opened Wrappers
  import opened Tokens
  import opened Extensions
  import opened Steps

  class GrammarBuilder<!V> {
    /** The steps built so far, in construction order. */
    var steps: seq<Step<V>>

    ghost predicate Valid()
      reads this
    {
      Consistent(steps)
    }

    constructor()
      ensures Valid() && steps == []
    {
      steps := [];
    }

    /** `Terminal.Of`. */
    method AddTerminal(name: Option<string>, build: Option<real> -> V, kind: TokenType) returns (id: StepId)
      requires Valid() && kind != Eof
      modifies this
      ensures Valid() && id == |old(steps)| && steps == old(steps) + [Terminal(name, build, kind)]
      ensures Head(steps, id) == {kind} && Productive(steps, id)
      ensures forall j :: 0 <= j < |old(steps)| ==> Head(steps, j) == Head(old(steps), j)
    {
      Append(Terminal(name, build, kind));
      id := |steps| - 1;
    }

    /** `Altern.Of`: the choices' heads must not overlap, which the source
        checks by counting; the new step's head is their union. */
    method AddAltern(name: Option<string>, choices: seq<StepId>) returns (id: StepId)
      requires Valid() && |choices| > 0 && forall k :: 0 <= k < |choices| ==> choices[k] < |steps|
      requires SumOfSizes(HeadsOf(steps, choices)) == |UnionOf(HeadsOf(steps, choices))|
      modifies this
      ensures Valid() && id == |old(steps)| && steps == old(steps) + [Altern(name, choices)]
      ensures Head(steps, id) == UnionOf(HeadsOf(old(steps), choices))
      ensures forall j :: 0 <= j < |old(steps)| ==> Head(steps, j) == Head(old(steps), j)
    {
      AlternFits(steps, name, choices);
      ghost var g := steps;
      Append(Altern(name, choices));
      id := |steps| - 1;
      AlternHeadIsUnion(g, steps, choices);
    }

    /** `Concat.Of` with two parts; its head is the first part's. */
    method AddConcat2(name: Option<string>, build: (V, Option<V>) -> Option<V>, first: StepId, second: StepId)
      returns (id: StepId)
      requires Valid() && first < |steps| && second < |steps|
      modifies this
      ensures Valid() && id == |old(steps)| && steps == old(steps) + [Concat2(name, build, first, second)]
      ensures Head(steps, id) == Head(old(steps), first)
      ensures forall j :: 0 <= j < |old(steps)| ==> Head(steps, j) == Head(old(steps), j)
    {
      Append(Concat2(name, build, first, second));
      id := |steps| - 1;
    }

    /** `Concat.Of` with three parts; the middle part may be left unbound. */
    method AddConcat3(name: Option<string>, build: (V, Option<V>, Option<V>) -> Option<V>,
                      first: StepId, middle: Option<StepId>, last: StepId) returns (id: StepId)
      requires Valid() && first < |steps| && last < |steps| && (middle.Some? ==> middle.value < |steps|)
      modifies this
      ensures Valid() && id == |old(steps)| && steps == old(steps) + [Concat3(name, build, first, middle, last)]
      ensures Head(steps, id) == Head(old(steps), first)
      ensures forall j :: 0 <= j < |old(steps)| ==> Head(steps, j) == Head(old(steps), j)
    {
      Append(Concat3(name, build, first, middle, last));
      id := |steps| - 1;
    }

    /** `Repeat.Of`: `min <= max`, and the terminators default to every token
        type outside the item's head. */
    method AddRepeat(name: Option<string>, collect: seq<V> -> V, item: StepId, tail: Option<set<TokenType>>,
                     min: nat, max: nat) returns (id: StepId)
      requires Valid() && item < |steps| && min <= max
      modifies this
      ensures Valid() && id == |old(steps)|
      ensures steps == old(steps) + [Repeat(name, collect, item, tail.GetOr(Complement(Head(old(steps), item))), min, max)]
      ensures Head(steps, id) == Head(old(steps), item)
      ensures forall j :: 0 <= j < |old(steps)| ==> Head(steps, j) == Head(old(steps), j)
      ensures tail.None? ==> forall t :: t in steps[id].tail <==> t !in Head(steps, item)
    {
      var ts := tail.GetOr(Complement(Head(steps, item)));
      Append(Repeat(name, collect, item, ts, min, max));
      id := |steps| - 1;
    }

    /** `SetStep2`: bind the middle step of the concatenation `id`. A middle
        step built later closes a cycle, which terminates only when the first
        part always reads a token. */
    method SetStep2(id: StepId, middle: StepId)
      requires Valid() && id < |steps| && steps[id].Concat3? && middle < |steps|
      requires middle < id || Productive(steps, steps[id].first)
      modifies this
      ensures Valid() && steps == old(steps)[id := old(steps)[id].(middle := Some(middle))]
      ensures forall j :: 0 <= j < |steps| ==> Head(steps, j) == Head(old(steps), j)
    {
      ghost var g := steps;
      steps := steps[id := steps[id].(middle := Some(middle))];
      forall j | 0 <= j < |steps|
        ensures Head(steps, j) == Head(g, j) && (Productive(steps, j) <==> Productive(g, j))
      {
        SkeletonKeepsHead(g, steps, j);
      }
      forall j | 0 <= j < |steps| ensures LocalOk(steps, j) {
        if j != id {
          SkeletonKeepsLocalOk(g, steps, j);
        }
      }
    }

    /** Adds a step whose parts are all below it and that passes its own checks. */
    method Append(s: Step<V>)
      requires Valid() && ChildrenBelow(s, |steps|, |steps|)
      requires LocalOk(steps + [s], |steps|)
      modifies this
      ensures Valid() && steps == old(steps) + [s]
      ensures forall j :: 0 <= j < |old(steps)| ==>
                Head(steps, j) == Head(old(steps), j) && (Productive(steps, j) <==> Productive(old(steps), j))
    {
      ghost var g := steps;
      steps := steps + [s];
      forall j | 0 <= j < |g|
        ensures Head(steps, j) == Head(g, j) && (Productive(steps, j) <==> Productive(g, j))
      {
        SkeletonKeepsHead(g, steps, j);
      }
      forall j | 0 <= j < |g| ensures LocalOk(steps, j) {
        SkeletonKeepsLocalOk(g, steps, j);
      }
    }
  }

  /** An alternation whose choices pass the counting check can be added. */
  lemma AlternFits<V>(g: seq<Step<V>>, name: Option<string>, choices: seq<StepId>)
    requires Consistent(g) && |choices| > 0 && forall k :: 0 <= k < |choices| ==> choices[k] < |g|
    requires SumOfSizes(HeadsOf(g, choices)) == |UnionOf(HeadsOf(g, choices))|
    ensures ChildrenBelow<V>(Altern(name, choices), |g|, |g|)
    ensures Ordered<V>(g + [Altern(name, choices)]) && LocalOk<V>(g + [Altern(name, choices)], |g|)
  {
    var s: Step<V> := Altern(name, choices);
    var g' := g + [s];
    OrderedAppend(g, s);
    CountingAssertionIsDisjointness(g, choices);
    HeadsCarryOver(g, g', choices);
  }

  /** A step whose parts are all below it keeps the table ordered. */
  lemma OrderedAppend<V>(g: seq<Step<V>>, s: Step<V>)
    requires Ordered(g) && ChildrenBelow(s, |g|, |g|)
    ensures Ordered(g + [s])
  {
    var g' := g + [s];
    forall id | 0 <= id < |g'| ensures ChildrenBelow(g'[id], id, |g'|) {
      if id < |g| {
        assert g'[id] == g[id];
        assert ChildrenBelow(g[id], id, |g|);
      }
    }
  }

  /** Choices below the old size keep disjoint heads after an append. */
  lemma HeadsCarryOver<V>(g: seq<Step<V>>, g': seq<Step<V>>, choices: seq<StepId>)
    requires Ordered(g) && Ordered(g') && |g| < |g'| && g'[..|g|] == g
    requires forall k :: 0 <= k < |choices| ==> choices[k] < |g|
    requires DisjointHeads(g, choices)
    ensures DisjointHeads(g', choices)
  {
    assert forall j :: 0 <= j < |g| ==> g'[j] == g[j];
    forall k | 0 <= k < |choices| ensures Head(g', choices[k]) == Head(g, choices[k]) {
      SkeletonKeepsHead(g, g', choices[k]);
    }
  }

  /** The head of the alternation just added is the union of its choices' heads. */
  lemma AlternHeadIsUnion<V>(g: seq<Step<V>>, g': seq<Step<V>>, choices: seq<StepId>)
    requires Ordered(g) && Ordered(g') && |g'| == |g| + 1 && g'[|g|].Altern? && g'[|g|].choices == choices
    requires forall k :: 0 <= k < |choices| ==> choices[k] < |g|
    requires forall j :: 0 <= j < |g| ==> Head(g', j) == Head(g, j)
    ensures Head(g', |g|) == UnionOf(HeadsOf(g, choices))
  {
    var hs := HeadsOf(g, choices);
    forall t ensures t in Head(g', |g|) <==> t in UnionOf(hs) {
      AlternHead(g', |g|, t);
    }
  }
}
