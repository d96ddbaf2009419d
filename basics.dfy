/** Small helpers shared by both agent variants: an optional value,
    Python's float-to-int conversion and its `max(lo, min(hi, x))` clamp. */
module Basics {

  datatype Option<T> = None | Some(value: T) {
    /** The wrapped value, or `default` when absent (Python's `dict.get(key, default)`). */
    function GetOr(default: T): T {
      if Some? then value else default
    }

    /** The wrapped value as a one-element sequence, or nothing. */
    function ToSeq(): seq<T> {
      if Some? then [value] else []
    }
  }

  /** Python's `int(x)` on a float: truncation toward zero. */
  function Trunc(x: real): (n: int)
    ensures x >= 0.0 ==> n as real <= x < n as real + 1.0
    ensures x <= 0.0 ==> n as real - 1.0 < x <= n as real
  {
    if x >= 0.0 then x.Floor else -((-x).Floor)
  }

  /** Truncating an integral value gives that integer back. */
  lemma TruncOfInt(n: int)
    ensures Trunc(n as real) == n
  {
  }

  /** Truncation toward zero never reverses the order of its arguments. */
  lemma TruncMonotone(x: real, y: real)
    requires x <= y
    ensures Trunc(x) <= Trunc(y)
  {
  }

  /** `max(lo, min(hi, x))`, as the agents write their brightness clamps. */
  function Clamp(lo: int, hi: int, x: int): (r: int)
    ensures lo <= hi ==> lo <= r <= hi
    ensures lo <= x <= hi ==> r == x
    ensures r == lo || r == hi || r == x
    ensures x < lo ==> r == lo
    ensures lo <= hi < x ==> r == hi
    ensures hi < lo ==> r == lo
  {
    var capped := if hi < x then hi else x;
    if lo < capped then capped else lo
  }

  /** The clamp is monotone in the clamped value. */
  lemma ClampMonotone(lo: int, hi: int, x: int, y: int)
    requires x <= y
    ensures Clamp(lo, hi, x) <= Clamp(lo, hi, y)
  {
  }
}
