/**
 * Rounding to a fixed number of decimals, as `Number(x.toFixed(d))` does when
 * the arithmetic is exact: the result is the multiple of 10^-d nearest to x,
 * and a tie goes away from zero (for |x| the larger candidate is picked).
 * The grid is given by its number of steps per unit, u = 10^d, so that the
 * proofs below never reason about a power.
 */
module Rounding {

  /** A number of grid steps per unit. */
  type Steps = n: nat | n >= 1 witness 1

  /** The grid of d decimals has 10^d steps per unit. */
  function Pow10(d: nat): (p: Steps)
  {
    if d == 0 then 1 else 10 * Pow10(d - 1)
  }

  predicate IsInteger(y: real) {
    y.Floor as real == y
  }

  /** x is a multiple of 1/u. */
  predicate OnGrid(x: real, u: Steps) {
    IsInteger(x * u as real)
  }

  /** How many steps of 1/u the half-up rounding of x is. */
  function Units(x: real, u: Steps): int {
    (x * u as real + 0.5).Floor
  }

  /** Rounding of a non-negative value: a tie goes up. */
  function HalfUp(x: real, u: Steps): real {
    Units(x, u) as real / u as real
  }

  /** The model of `Number(x.toFixed(d))` for u = 10^d. */
  function RoundTo(x: real, u: Steps): (r: real)
    ensures OnGrid(r, u)
  {
    if x < 0.0 then
      HalfUpIsOnGrid(-x, u);
      NegatedOnGrid(HalfUp(-x, u), u);
      -HalfUp(-x, u)
    else
      HalfUpIsOnGrid(x, u);
      HalfUp(x, u)
  }

  // Small facts about real arithmetic, each kept apart so that no proof mixes
  // a product of variables with a Floor.

  lemma DivMul(k: real, p: real)
    requires p > 0.0
    ensures (k / p) * p == k
  {}

  lemma MulDiv(k: real, p: real)
    requires p > 0.0
    ensures (k * p) / p == k
  {}

  lemma DivMonotone(a: real, b: real, p: real)
    requires p > 0.0 && a <= b
    ensures a / p <= b / p
  {}

  lemma MulMonotone(a: real, b: real, p: real)
    requires p > 0.0 && a <= b
    ensures a * p <= b * p
  {}

  lemma NegMul(x: real, p: real)
    ensures (-x) * p == -(x * p)
  {}

  lemma IntegerIsInteger(n: int)
    ensures IsInteger(n as real)
  {}

  lemma NegatedInteger(y: real)
    requires IsInteger(y)
    ensures IsInteger(-y)
  {
    IntegerIsInteger(-y.Floor);
  }

  lemma FloorUnique(z: real, n: int)
    requires n as real <= z < n as real + 1.0
    ensures z.Floor == n
  {}

  lemma FloorOfIntegerAndHalf(y: real)
    requires IsInteger(y)
    ensures (y + 0.5).Floor as real == y
  {
    FloorUnique(y + 0.5, y.Floor);
  }

  lemma HalfUpScaled(x: real, u: Steps)
    ensures HalfUp(x, u) * u as real == Units(x, u) as real
  {
    DivMul(Units(x, u) as real, u as real);
  }

  lemma {:induction false} HalfUpMonotone(x: real, y: real, u: Steps)
    requires x <= y
    ensures HalfUp(x, u) <= HalfUp(y, u)
  {
    var p := u as real;
    MulMonotone(x, y, p);
    assert Units(x, u) <= Units(y, u);
    DivMonotone(Units(x, u) as real, Units(y, u) as real, p);
  }

  lemma {:induction false} HalfUpNonNegative(x: real, u: Steps)
    requires 0.0 <= x
    ensures 0.0 <= HalfUp(x, u)
  {
    HalfUpMonotone(0.0, x, u);
  }

  /** Rounding never puts two values out of order. */
  lemma {:induction false} RoundMonotone(x: real, y: real, u: Steps)
    requires x <= y
    ensures RoundTo(x, u) <= RoundTo(y, u)
  {
    if x < 0.0 && y < 0.0 {
      HalfUpMonotone(-y, -x, u);
    } else if x < 0.0 {
      HalfUpNonNegative(-x, u);
      HalfUpNonNegative(y, u);
    } else {
      HalfUpMonotone(x, y, u);
    }
  }

  lemma UnitsOnGrid(x: real, u: Steps)
    requires OnGrid(x, u)
    ensures Units(x, u) as real == x * u as real
  {
    FloorOfIntegerAndHalf(x * u as real);
  }

  lemma {:induction false} HalfUpFixesGrid(x: real, u: Steps)
    requires OnGrid(x, u)
    ensures HalfUp(x, u) == x
  {
    UnitsOnGrid(x, u);
    MulDiv(x, u as real);
  }

  lemma NegatedOnGrid(x: real, u: Steps)
    requires OnGrid(x, u)
    ensures OnGrid(-x, u)
  {
    NegatedInteger(x * u as real);
    NegMul(x, u as real);
  }

  /** A value already on the grid is left unchanged. */
  lemma {:induction false} RoundFixesGrid(x: real, u: Steps)
    requires OnGrid(x, u)
    ensures RoundTo(x, u) == x
  {
    if x < 0.0 {
      NegatedOnGrid(x, u);
      HalfUpFixesGrid(-x, u);
    } else {
      HalfUpFixesGrid(x, u);
    }
  }

  lemma HalfUpIsOnGrid(x: real, u: Steps)
    ensures OnGrid(HalfUp(x, u), u)
  {
    HalfUpScaled(x, u);
    IntegerIsInteger(Units(x, u));
  }

  /** Rounding twice is rounding once. */
  lemma RoundIdempotent(x: real, u: Steps)
    ensures RoundTo(RoundTo(x, u), u) == RoundTo(x, u)
  {
    RoundFixesGrid(RoundTo(x, u), u);
  }

  /** The rounded value is within half a grid step of the input. */
  lemma {:induction false} RoundIsNearest(x: real, u: Steps)
    ensures -0.5 <= (RoundTo(x, u) - x) * u as real <= 0.5
  {
    var p := u as real;
    if x < 0.0 {
      HalfUpScaled(-x, u);
      assert (RoundTo(x, u) - x) * p == -(HalfUp(-x, u) * p - (-x) * p);
    } else {
      HalfUpScaled(x, u);
      assert (RoundTo(x, u) - x) * p == HalfUp(x, u) * p - x * p;
    }
  }

  /** Every integer lies on every grid. */
  lemma {:induction false} IntegerOnGrid(n: int, u: Steps)
    ensures OnGrid(n as real, u)
  {
    assert n as real * u as real == (n * u) as real;
    IntegerIsInteger(n * u);
  }

  /**
   * The property the validator relies on: a value checked against bounds that
   * lie on the grid stays within those bounds after rounding.
   */
  lemma RoundStaysInRange(lo: real, hi: real, x: real, u: Steps)
    requires OnGrid(lo, u) && OnGrid(hi, u)
    requires lo <= x <= hi
    ensures lo <= RoundTo(x, u) <= hi
  {
    RoundMonotone(lo, x, u);
    RoundMonotone(x, hi, u);
    RoundFixesGrid(lo, u);
    RoundFixesGrid(hi, u);
  }
}
