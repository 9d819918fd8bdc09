/** The few JavaScript `Math` operations the simulators use, over exact reals.
    IEEE-754 rounding is not modelled: a JavaScript number is a `real` here. */
module JsMath {

  /** `Math.round`: the nearest integer, a half rounded up (toward +infinity),
      so `Math.round(2.5) == 3` and `Math.round(-2.5) == -2`. */
  function Round(x: real): (r: int)
    ensures x - 0.5 < r as real <= x + 0.5
  {
    (x + 0.5).Floor
  }

  /** The window in Round's contract admits exactly one integer. */
  lemma RoundUnique(x: real, n: int)
    requires x - 0.5 < n as real <= x + 0.5
    ensures Round(x) == n
  {
  }

  lemma RoundMonotone(x: real, y: real)
    requires x <= y
    ensures Round(x) <= Round(y)
  {
  }

  /** `Math.floor`: the greatest integer not above `x`. */
  function Floor(x: real): (r: int)
    ensures r as real <= x < r as real + 1.0
  {
    x.Floor
  }

  /** `Math.random()` draws from [0, 1). */
  predicate IsRandomDraw(d: real)
  {
    0.0 <= d < 1.0
  }

  /** A stand-in for `Math.exp`, known only on the non-positive half-line,
      where the exponential lies in (0, 1]. */
  type Exp = f: real -> real | forall x :: x <= 0.0 ==> 0.0 < f(x) <= 1.0
    witness (x: real) => 1.0
}
