/**
 Products of reals behind a named function, with the few laws of a commutative
 ordered ring that the matrix proofs use. Keeping the product named lets each
 proof say which law it needs.
 */
module Products {
  import opened Numeric

  function Mul(x: real, y: real): real {
    x * y
  }

  lemma MulComm(x: real, y: real)
    ensures Mul(x, y) == Mul(y, x)
  {
  }

  lemma MulAssoc(x: real, y: real, z: real)
    ensures Mul(Mul(x, y), z) == Mul(x, Mul(y, z))
  {
    assert (x * y) * z == x * (y * z);
  }

  /** Products of products regroup freely. */
  lemma MulShuffle(x: real, y: real, z: real, w: real)
    ensures Mul(Mul(x, y), Mul(z, w)) == Mul(Mul(x, z), Mul(y, w))
  {
    assert (x * y) * (z * w) == (x * z) * (y * w);
  }

  lemma MulAdd(x: real, y: real, z: real)
    ensures Mul(x, y + z) == Mul(x, y) + Mul(x, z)
    ensures Mul(x, y - z) == Mul(x, y) - Mul(x, z)
  {
  }

  lemma AddMul(x: real, y: real, z: real)
    ensures Mul(x + y, z) == Mul(x, z) + Mul(y, z)
    ensures Mul(x - y, z) == Mul(x, z) - Mul(y, z)
  {
  }

  lemma SquareOfDifference(x: real, y: real)
    ensures Mul(x - y, x - y) == Mul(x, x) - 2.0 * Mul(x, y) + Mul(y, y)
    ensures Mul(x + y, x + y) == Mul(x, x) + 2.0 * Mul(x, y) + Mul(y, y)
  {
    AddMul(x, y, x - y);
    AddMul(x, y, x + y);
    MulAdd(x, x, y);
    MulAdd(y, x, y);
    MulComm(x, y);
  }

  lemma MulPositive(x: real, y: real)
    requires x > 0.0 && y > 0.0
    ensures Mul(x, y) > 0.0
  {
  }

  lemma SquarePositive(x: real)
    ensures Mul(x, x) >= 0.0
    ensures x != 0.0 <==> Mul(x, x) > 0.0
    ensures Mul(-x, -x) == Mul(x, x)
  {
    if x > 0.0 { MulPositive(x, x); } else if x < 0.0 { MulPositive(-x, -x); }
    AddMul(0.0, x, -x);
    MulAdd(x, 0.0, x);
  }

  lemma MulLe(x: real, y: real, k: real)
    requires x <= y && k >= 0.0
    ensures Mul(x, k) <= Mul(y, k) && Mul(k, x) <= Mul(k, y)
  {
    AddMul(y, x, k);
    var d := y - x;
    assert Mul(d, k) >= 0.0;
    MulComm(x, k);
    MulComm(y, k);
  }

  lemma AbsMul(x: real, y: real)
    ensures Abs(Mul(x, y)) == Mul(Abs(x), Abs(y))
  {
  }

  lemma MulBounded(x: real, y: real, m: real, w: real)
    requires Abs(x) <= m && Abs(y) <= w
    ensures Abs(Mul(x, y)) <= Mul(m, w)
  {
    AbsMul(x, y);
    MulLe(Abs(x), m, Abs(y));
    MulLe(Abs(y), w, m);
  }

  /** A positive factor cancels from an inequality. */
  lemma CancelLe(x: real, y: real, k: real)
    requires k > 0.0 && Mul(x, k) <= Mul(y, k)
    ensures x <= y
  {
    if y < x {
      AddMul(x, y, k);
      MulPositive(x - y, k);
    }
  }

  lemma CancelEq(x: real, y: real, k: real)
    requires k > 0.0 && Mul(x, k) == Mul(y, k)
    ensures x == y
  {
    CancelLe(x, y, k);
    CancelLe(y, x, k);
  }

  lemma DivideMul(x: real, k: real)
    requires k != 0.0
    ensures Mul(x / k, k) == x
  {
  }

  lemma MulZero(x: real)
    ensures Mul(0.0, x) == 0.0 && Mul(x, 0.0) == 0.0
  {
  }

  lemma MulOne(x: real)
    ensures Mul(1.0, x) == x && Mul(x, 1.0) == x
  {
  }

  lemma MulSucc(n: nat, z: real)
    ensures Mul((n + 1) as real, z) == Mul(n as real, z) + z
  {
    AddMul(n as real, 1.0, z);
    assert (n + 1) as real == n as real + 1.0;
  }
}
