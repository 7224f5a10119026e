/**
 * The few JavaScript `Math` operations the components use, on exact reals.
 * `Math.random()` itself is not modelled: its results are parameters, and
 * `IsRandomDraw` is the range every such parameter is required to lie in.
 */
module JsMath {

  /** `Math.min(a, b)`. */
  function Min(a: real, b: real): (m: real)
    ensures m <= a && m <= b
    ensures m == a || m == b
  {
    if a <= b then a else b
  }

  /** `Math.max(a, b)`. */
  function Max(a: real, b: real): (m: real)
    ensures m >= a && m >= b
    ensures m == a || m == b
  {
    if a >= b then a else b
  }

  /** `Math.abs(v)`. */
  function Abs(v: real): (r: real)
    ensures r >= 0.0
    ensures r == v || r == -v
  {
    if v < 0.0 then -v else v
  }

  /** `Math.sign(v)`: 1 for positive, -1 for negative and 0 for zero. */
  function Sign(v: real): (s: real)
    ensures v > 0.0 ==> s == 1.0
    ensures v < 0.0 ==> s == -1.0
    ensures v == 0.0 ==> s == 0.0
  {
    if v > 0.0 then 1.0 else if v < 0.0 then -1.0 else 0.0
  }

  /** A value `Math.random()` can return: the half-open interval [0, 1). */
  predicate IsRandomDraw(r: real)
  {
    0.0 <= r < 1.0
  }

  /** `Math.random() * extent`: uniform over [0, extent) when `extent` is positive. */
  function DrawTimes(r: real, extent: real): (v: real)
    requires IsRandomDraw(r)
    ensures extent > 0.0 ==> 0.0 <= v < extent
    ensures extent == 0.0 ==> v == 0.0
  {
    assert extent > 0.0 ==> (1.0 - r) * extent > 0.0;
    r * extent
  }
}
