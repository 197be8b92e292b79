/** The two number conversions on the prediction path, on exact reals:
    Python's `int(x)` on a float and `round(x, 2)`. */
module Numerics {

  /** `int(x)`: truncation toward zero. */
  function Trunc(x: real): (n: int)
    ensures 0.0 <= x ==> 0 <= n && n as real <= x < n as real + 1.0
    ensures x < 0.0 ==> n <= 0 && n as real - 1.0 < x <= n as real
  {
    if x >= 0.0 then x.Floor else -((-x).Floor)
  }

  /** Round to the nearest integer, ties to the even neighbour. */
  function RoundHalfEven(y: real): (n: int)
    ensures y - 0.5 <= n as real <= y + 0.5
  {
    var f := y.Floor;
    var frac := y - f as real;
    if frac < 0.5 then f
    else if frac > 0.5 then f + 1
    else if f % 2 == 0 then f else f + 1
  }

  /** `round(x, 2)`: a whole number of hundredths, off by at most half a hundredth. */
  function Round2(x: real): (r: real)
    ensures x - 0.005 <= r <= x + 0.005
    ensures (r * 100.0).Floor as real == r * 100.0
  {
    RoundHalfEven(x * 100.0) as real / 100.0
  }

  /** A congestion percentage computed as in the site response example:
      7394 visitors at a capacity of 119765 is 6.17 percent. */
  lemma CongestionExample()
    ensures Round2(7394 as real / 119765 as real * 100.0) == 6.17
  {
    var y := 7394 as real / 119765 as real * 100.0 * 100.0;
    assert 617.0 <= y < 618.0;
    assert y.Floor == 617;
    assert y - 617.0 < 0.5;
  }
}
