/** The optional value used throughout the model, standing for C# nullable
    references and for the Option type of the external option library. */
module Wrappers {

  datatype Option<+T> = None | Some(value: T) {

    /** The value, or `default` when there is none (`ValueOr`, `??`). */
    function GetOr(default: T): T {
      match this
      case Some(v) => v
      case None => default
    }
  }

  /** The value as a sequence of at most one element. */
  function OptionSeq<T>(o: Option<T>): (s: seq<T>)
    ensures |s| == if o.Some? then 1 else 0
  {
    if o.Some? then [o.value] else []
  }

  /** Concatenation is associative; the loops that append in turns use it
      to move one turn's output from the specification to the result. */
  lemma AppendAssoc<T>(a: seq<T>, b: seq<T>, c: seq<T>)
    ensures (a + b) + c == a + (b + c)
  {
  }
}
