/**
 Real arithmetic shared by every component: the two tolerances the system uses,
 rounding to whole micro-units, and the notion of a whole micro-unit quantity.
 */
module Numeric {
  // The slack used by almost every comparison.
  const EPS: real := 0.000000001
  // One micro-unit: the grid that `round(x, 6)` rounds to.
  const MICRO: real := 0.000001

  /** A quantity counted in micro-units. */
  function Micros(x: real): real {
    1000000.0 * x
  }

  /** The dust tolerance, `n` times over. */
  function Dust(n: int): real {
    0.000000001 * n as real
  }

  function Abs(x: real): real {
    if x < 0.0 then -x else x
  }

  function Min(x: real, y: real): real {
    if x <= y then x else y
  }

  function Max(x: real, y: real): real {
    if x <= y then y else x
  }

  /** The value of `qty` shares at `price`. */
  function Notional(qty: real, price: real): real {
    qty * price
  }

  lemma NotionalLaws(a: real, b: real, price: real)
    ensures Notional(a + b, price) == Notional(a, price) + Notional(b, price)
    ensures Notional(-a, price) == -Notional(a, price)
    ensures a >= 0.0 && price >= 0.0 ==> Notional(a, price) >= 0.0
  {
  }

  /** The integer nearest to `y`; an exact tie goes to the even neighbour. */
  function Nearest(y: real): int {
    var f := y.Floor;
    var d := y - f as real;
    if d < 0.5 then f
    else if d > 0.5 then f + 1
    else if f % 2 == 0 then f
    else f + 1
  }

  /** `round(x, 6)` over exact reals. */
  function Round6(x: real): real {
    Nearest(Micros(x)) as real / 1000000.0
  }

  /** `q` is a whole number of micro-units. */
  predicate Whole(q: real) {
    Micros(q).Floor as real == Micros(q)
  }

  lemma RoundError(x: real)
    ensures Abs(Round6(x) - x) <= MICRO / 2.0
    ensures Whole(Round6(x))
  {
    var n := Nearest(Micros(x));
    assert Abs(n as real - Micros(x)) <= 0.5;
    assert Micros(Round6(x)) == n as real;
  }

  lemma RoundWhole(q: real)
    requires Whole(q)
    ensures Round6(q) == q
  {
  }

  lemma RoundNonNegative(x: real)
    requires x >= 0.0
    ensures Round6(x) >= 0.0
  {
  }

  /** Whole quantities are closed under addition and subtraction. */
  lemma WholeSum(a: real, b: real)
    requires Whole(a) && Whole(b)
    ensures Whole(a + b) && Whole(a - b)
  {
    var m, n := Micros(a).Floor, Micros(b).Floor;
    assert Micros(a + b) == (m + n) as real;
    assert Micros(a - b) == (m - n) as real;
  }

  lemma WholeNegated(a: real)
    requires Whole(a)
    ensures Whole(-a)
  {
    assert Micros(-a) == (-(Micros(a).Floor)) as real;
  }

  /** On whole quantities the tolerance test is the exact test. */
  lemma WholeNoDust(q: real)
    requires Whole(q)
    ensures q > EPS <==> q > 0.0
    ensures q < -EPS <==> q < 0.0
    ensures q > 0.0 ==> q >= MICRO
  {
    var n := Micros(q).Floor;
    if n > 0 {
      assert Micros(q) >= 1.0;
    } else if n < 0 {
      assert Micros(q) <= -1.0;
    }
  }
}
