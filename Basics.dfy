/** Shared vocabulary: an optional value and the Kotlin `Int` helpers the widget uses. */
module Basics {

  /** A value that may be absent: a null reference, or an operation that throws. */
  datatype Option<T> = None | Some(value: T)

  function Abs(v: int): (r: int)
    ensures r >= 0 && (r == v || r == -v)
  {
    if v < 0 then -v else v
  }

  /** Kotlin's `minimum.coerceAtLeast(v)` and `v.coerceAtLeast(minimum)`: the larger of the two. */
  function CoerceAtLeast(v: int, minimum: int): (r: int)
    ensures r >= v && r >= minimum
    ensures r == v || r == minimum
  {
    if v < minimum then minimum else v
  }

  /** Kotlin's `maximum.coerceAtMost(v)` and `v.coerceAtMost(maximum)`: the smaller of the two. */
  function CoerceAtMost(v: int, maximum: int): (r: int)
    ensures r <= v && r <= maximum
    ensures r == v || r == maximum
  {
    if v > maximum then maximum else v
  }
}
