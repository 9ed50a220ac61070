/** Character extents of tokens (src/FixedRange.cs). */
module FixedRanges {

  /** A half-open range [start, end) of character offsets. */
  datatype FixedRange = FixedRange(start: int, end: int) {

    /** The number of characters covered. */
    function Length(): (n: int)
      ensures start + n == end
      ensures start <= end ==> n >= 0
    {
      end - start
    }
  }

  /** `System.Range` as seen through `Start..End`. */
  datatype Range = Range(start: int, end: int)

  /** The checked constructor: a range never ends before it starts. */
  function Make(start: int, end: int): (r: FixedRange)
    requires start <= end
    ensures r.start == start && r.end == end
    ensures r.Length() >= 0
  {
    FixedRange(start, end)
  }

  /** `FixedRange.Of(start, length)`: the range of `length` characters from `start`. */
  function Of(start: int, length: int): (r: FixedRange)
    requires length >= 0
    ensures r.start == start && r.Length() == length
  {
    Make(start, start + length)
  }

  /** The explicit conversion to `Range`. */
  function ToRange(r: FixedRange): (rr: Range)
    ensures rr.start == r.start && rr.end == r.end
  {
    Range(r.start, r.end)
  }
}
