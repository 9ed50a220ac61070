/** The outcome of running one parsing step (src/Parsing/DataOriented/Result.cs). */
module Results {
  import opened Wrappers
  import opened Errors

  /** How many tokens were read, the value when the step succeeded, and the
      ordered errors collected while running it. */
  datatype Result<V> = Result(read: nat, value: Option<V>, errors: seq<ParserError>) {

    predicate HasValue() {
      value.Some?
    }
  }

  /** `Errors` of a result built with an optional error list: null stands for none. */
  function SuppliedErrors(errors: Option<seq<ParserError>>): (es: seq<ParserError>)
    ensures errors.Some? ==> es == errors.value
    ensures errors.None? ==> es == []
  {
    errors.GetOr([])
  }

  /** `Result.Fail`: no value. */
  function Fail<V>(read: nat, errors: Option<seq<ParserError>>): (r: Result<V>)
    ensures !r.HasValue() && r.read == read && r.errors == SuppliedErrors(errors)
  {
    Result(read, None, SuppliedErrors(errors))
  }

  /** `Result.Ok`: a value. */
  function Ok<V>(read: nat, value: V, errors: Option<seq<ParserError>>): (r: Result<V>)
    ensures r.HasValue() && r.value.value == value
    ensures r.read == read && r.errors == SuppliedErrors(errors)
  {
    Result(read, Some(value), SuppliedErrors(errors))
  }

  /** `BubbleErrors(i)`: the errors re-indexed by the offset `i` at which the step started. */
  function Bubble(errors: seq<ParserError>, i: int): (r: seq<ParserError>)
    ensures |r| == |errors|
  {
    if errors == [] then []
    else [errors[0].(index := errors[0].index + i)] + Bubble(errors[1..], i)
  }

  /** Bubbling keeps the order and changes nothing but the index, by `+i`. */
  lemma {:induction false} BubbleAt(errors: seq<ParserError>, i: int, k: nat)
    requires k < |errors|
    ensures Bubble(errors, i)[k] == errors[k].(index := errors[k].index + i)
    ensures Bubble(errors, i)[k].subject == errors[k].subject
    ensures Bubble(errors, i)[k].expected == errors[k].expected
  {
    if k > 0 {
      BubbleAt(errors[1..], i, k - 1);
    }
  }

  lemma BubbleZero(errors: seq<ParserError>)
    ensures Bubble(errors, 0) == errors
  {
    forall k | 0 <= k < |errors| ensures Bubble(errors, 0)[k] == errors[k] {
      BubbleAt(errors, 0, k);
    }
  }

  lemma BubbleCompose(errors: seq<ParserError>, a: int, b: int)
    ensures Bubble(Bubble(errors, a), b) == Bubble(errors, a + b)
  {
    var once := Bubble(errors, a);
    var twice := Bubble(once, b);
    var direct := Bubble(errors, a + b);
    forall k | 0 <= k < |errors| ensures twice[k] == direct[k] {
      BubbleAt(errors, a, k);
      BubbleAt(once, b, k);
      BubbleAt(errors, a + b, k);
    }
    assert twice == direct;
  }

  lemma BubbleAppend(xs: seq<ParserError>, ys: seq<ParserError>, i: int)
    ensures Bubble(xs + ys, i) == Bubble(xs, i) + Bubble(ys, i)
  {
    forall k | 0 <= k < |xs| + |ys| ensures Bubble(xs + ys, i)[k] == (Bubble(xs, i) + Bubble(ys, i))[k] {
      BubbleAt(xs + ys, i, k);
      if k < |xs| { BubbleAt(xs, i, k); } else { BubbleAt(ys, i, k - |xs|); }
    }
  }
}
