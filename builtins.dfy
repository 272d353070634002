/** Python's `min` and `abs` on two numbers, over exact reals. */
module Builtins {

  /** `min(a, b)`: the smaller of the two arguments. */
  function Min(a: real, b: real): (m: real)
    ensures m <= a && m <= b
    ensures m == a || m == b
  {
    if b < a then b else a
  }

  /** `abs(x)`: the magnitude of `x`. */
  function Abs(x: real): (r: real)
    ensures r >= 0.0
    ensures r == x || r == -x
  {
    if x < 0.0 then -x else x
  }
}
