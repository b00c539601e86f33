/** Small shared vocabulary: optional values and real-number helpers. */
module Common {

  /** Python's `None`-or-value, as used for timestamps, history and baseline. */
  datatype Option<T> = None | Some(value: T)

  /** Python's `abs` on floats (modelled as reals). */
  function Abs(x: real): (r: real)
    ensures 0.0 <= r
    ensures r == x || r == -x
  {
    if x < 0.0 then -x else x
  }

  /** Python's two-argument `max` on floats. */
  function MaxReal(a: real, b: real): (r: real)
    ensures a <= r && b <= r
    ensures r == a || r == b
  {
    if a < b then b else a
  }

  /** Python's two-argument `min` on floats. */
  function MinReal(a: real, b: real): (r: real)
    ensures r <= a && r <= b
    ensures r == a || r == b
  {
    if a < b then a else b
  }
}
