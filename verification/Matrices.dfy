/** Square real matrices, the sums taken over them, and their eigenvalues. */
module Matrices {
  import opened Numeric
  import opened Products

  type Matrix = seq<seq<real>>
  type Vector = seq<real>

  ghost predicate Square(a: Matrix) {
    forall i :: 0 <= i < |a| ==> |a[i]| == |a|
  }

  /** The entry, 0 outside the matrix. */
  function At(a: Matrix, i: int, j: int): real {
    if 0 <= i < |a| && 0 <= j < |a[i]| then a[i][j] else 0.0
  }

  function Coord(v: Vector, i: int): real {
    if 0 <= i < |v| then v[i] else 0.0
  }

  ghost predicate Symmetric(a: Matrix) {
    forall i, j :: At(a, i, j) == At(a, j, i)
  }

  // ----- sums over an index range -----

  ghost function SumTo(n: nat, f: int -> real): real {
    if n == 0 then 0.0 else SumTo(n - 1, f) + f(n - 1)
  }

  lemma {:induction false} SumToEq(n: nat, f: int -> real, g: int -> real)
    requires forall i :: 0 <= i < n ==> f(i) == g(i)
    ensures SumTo(n, f) == SumTo(n, g)
  {
    if n > 0 { SumToEq(n - 1, f, g); }
  }

  /** `h` is the linear combination `x * f + y * g`. */
  lemma {:induction false} SumToLinear(n: nat, x: real, f: int -> real, y: real, g: int -> real, h: int -> real)
    requires forall i :: 0 <= i < n ==> h(i) == Mul(x, f(i)) + Mul(y, g(i))
    ensures SumTo(n, h) == Mul(x, SumTo(n, f)) + Mul(y, SumTo(n, g))
  {
    if n > 0 {
      SumToLinear(n - 1, x, f, y, g, h);
      MulAdd(x, SumTo(n - 1, f), f(n - 1));
      MulAdd(y, SumTo(n - 1, g), g(n - 1));
    }
  }

  lemma {:induction false} SumToPlus(n: nat, f: int -> real, g: int -> real, h: int -> real)
    requires forall i :: 0 <= i < n ==> h(i) == f(i) + g(i)
    ensures SumTo(n, h) == SumTo(n, f) + SumTo(n, g)
  {
    if n > 0 {
      SumToPlus(n - 1, f, g, h);
    }
  }

  /** If every term but the `i`-th is at most `z` in size, so is their sum, up to their number. */
  lemma {:induction false} SumToOthers(n: nat, f: int -> real, i: nat, z: real)
    requires i < n && z >= 0.0
    requires forall j :: 0 <= j < n && j != i ==> Abs(f(j)) <= z
    ensures Abs(SumTo(n, f) - f(i)) <= Mul((n - 1) as real, z)
  {
    if i == n - 1 {
      SumToSize(n - 1, f, z);
    } else {
      SumToOthers(n - 1, f, i, z);
      MulSucc(n - 2, z);
    }
  }

  lemma {:induction false} SumToSize(n: nat, f: int -> real, z: real)
    requires forall j :: 0 <= j < n ==> Abs(f(j)) <= z
    ensures Abs(SumTo(n, f)) <= Mul(n as real, z)
  {
    if n > 0 {
      SumToSize(n - 1, f, z);
      MulSucc(n - 1, z);
    }
  }

  /** Two terms may be exchanged for others; the sum moves by the same amount. */
  lemma {:induction false} SumToPair(n: nat, f: int -> real, g: int -> real, p: nat, q: nat, d: real)
    requires p < q < n
    requires forall i :: 0 <= i < n && i != p && i != q ==> f(i) == g(i)
    requires f(p) + f(q) + d == g(p) + g(q)
    ensures SumTo(n, f) + d == SumTo(n, g)
  {
    if q == n - 1 {
      SumToOne(n - 1, f, g, p);
    } else {
      SumToPair(n - 1, f, g, p, q, d);
    }
  }

  lemma {:induction false} SumToOne(n: nat, f: int -> real, g: int -> real, p: nat)
    requires p < n
    requires forall i :: 0 <= i < n && i != p ==> f(i) == g(i)
    ensures SumTo(n, f) - f(p) == SumTo(n, g) - g(p)
  {
    if p == n - 1 {
      SumToEq(n - 1, f, g);
    } else {
      SumToOne(n - 1, f, g, p);
    }
  }

  lemma {:induction false} SumToTerm(n: nat, f: int -> real, i: nat)
    requires i < n && forall k :: 0 <= k < n ==> f(k) >= 0.0
    ensures 0.0 <= f(i) <= SumTo(n, f)
  {
    SumToNonNegative(n - 1, f);
    if i < n - 1 { SumToTerm(n - 1, f, i); }
  }

  lemma {:induction false} SumToNonNegative(n: nat, f: int -> real)
    requires forall k :: 0 <= k < n ==> f(k) >= 0.0
    ensures SumTo(n, f) >= 0.0
  {
    if n > 0 { SumToNonNegative(n - 1, f); }
  }

  /** The mean-square inequality: the square of a sum is at most `n` times the sum of squares. */
  lemma {:induction false} SquareOfSum(n: nat, f: int -> real, sq: int -> real)
    requires forall i :: 0 <= i < n ==> sq(i) == Mul(f(i), f(i))
    ensures Mul(SumTo(n, f), SumTo(n, f)) <= Mul(n as real, SumTo(n, sq))
    ensures SumTo(n, sq) >= 0.0
  {
    if n > 0 {
      SquareOfSum(n - 1, f, sq);
      SquareOfSumStep(n - 1, SumTo(n - 1, f), SumTo(n - 1, sq), f(n - 1));
    }
  }

  lemma SquareOfSumStep(m: nat, sum: real, squares: real, x: real)
    requires Mul(sum, sum) <= Mul(m as real, squares) && squares >= 0.0
    ensures Mul(sum + x, sum + x) <= Mul((m + 1) as real, squares + Mul(x, x))
    ensures squares + Mul(x, x) >= 0.0
  {
    var k, xx := m as real, Mul(x, x);
    SquarePositive(x);
    MulSucc(m, squares + xx);
    MulAdd(k, squares, xx);
    SquareOfDifference(sum, x);
    // it remains to see that 2 sum x <= squares + k x^2
    if m == 0 {
      SquarePositive(sum);
      assert sum == 0.0;
    } else {
      var kx := Mul(k, x);
      SquareOfDifference(sum, kx);
      SquarePositive(sum - kx);
      MulShuffle(k, x, k, x);
      MulAssoc(k, k, xx);
      assert Mul(sum, kx) == Mul(Mul(sum, x), k) by {
        MulComm(k, x);
        MulAssoc(sum, x, k);
      }
      // (sum - kx)^2 >= 0, divided by k
      var two := 2.0 * Mul(sum, x);
      AddMul(Mul(sum, x), Mul(sum, x), k);
      AddMul(squares, Mul(k, xx), k);
      MulComm(k, squares);
      MulComm(k, Mul(k, xx));
      CancelLe(two, squares + Mul(k, xx), k);
    }
  }

  // ----- the quantities a rotation is judged by -----

  ghost function DiagonalAt(a: Matrix): int -> real {
    (i: int) => At(a, i, i)
  }

  ghost function Trace(a: Matrix): real {
    SumTo(|a|, DiagonalAt(a))
  }

  ghost function SquareAt(a: Matrix, i: int): int -> real {
    (j: int) => Mul(At(a, i, j), At(a, i, j))
  }

  ghost function RowSquares(a: Matrix): int -> real {
    (i: int) => SumTo(|a|, SquareAt(a, i))
  }

  /** The sum of the squares of all entries. */
  ghost function SumOfSquares(a: Matrix): real {
    SumTo(|a|, RowSquares(a))
  }

  ghost function DiagonalSquareAt(a: Matrix): int -> real {
    (i: int) => Mul(At(a, i, i), At(a, i, i))
  }

  ghost function DiagonalSquares(a: Matrix): real {
    SumTo(|a|, DiagonalSquareAt(a))
  }

  ghost function OffSquareAt(a: Matrix, i: int): int -> real {
    (j: int) => if i == j then 0.0 else Mul(At(a, i, j), At(a, i, j))
  }

  ghost function RowOff(a: Matrix): int -> real {
    (i: int) => SumTo(|a|, OffSquareAt(a, i))
  }

  /** The sum of the squares of the off-diagonal entries. */
  ghost function OffMass(a: Matrix): real {
    SumTo(|a|, RowOff(a))
  }

  lemma SplitSquares(a: Matrix)
    ensures SumOfSquares(a) == OffMass(a) + DiagonalSquares(a)
    ensures OffMass(a) >= 0.0
  {
    forall i | 0 <= i < |a|
      ensures RowSquares(a)(i) == RowOff(a)(i) + DiagonalSquareAt(a)(i)
      ensures RowOff(a)(i) >= 0.0
    {
      SumToOne(|a|, SquareAt(a, i), OffSquareAt(a, i), i);
      forall j | 0 <= j < |a|
        ensures OffSquareAt(a, i)(j) >= 0.0
      {
        SquarePositive(At(a, i, j));
      }
      SumToNonNegative(|a|, OffSquareAt(a, i));
    }
    SumToPlus(|a|, RowOff(a), DiagonalSquareAt(a), RowSquares(a));
    SumToNonNegative(|a|, RowOff(a));
  }

  /** No off-diagonal entry exceeds `m` in size. */
  ghost predicate OffBounded(a: Matrix, m: real) {
    forall i, j :: 0 <= i < |a| && 0 <= j < |a| && i != j ==> Abs(At(a, i, j)) <= m
  }

  /** If no off-diagonal entry exceeds `m`, the off-diagonal mass is at most n(n-1) m^2. */
  lemma OffMassBound(a: Matrix, m: real)
    requires |a| > 0 && OffBounded(a, m) && m >= 0.0
    ensures OffMass(a) <= Mul(|a| as real, Mul((|a| - 1) as real, Mul(m, m)))
  {
    var mm := Mul(m, m);
    SquarePositive(m);
    var row := Mul((|a| - 1) as real, mm);
    forall i | 0 <= i < |a|
      ensures Abs(RowOff(a)(i)) <= row
    {
      forall j | 0 <= j < |a| && j != i
        ensures Abs(OffSquareAt(a, i)(j)) <= mm
      {
        MulBounded(At(a, i, j), At(a, i, j), m, m);
      }
      SumToOthers(|a|, OffSquareAt(a, i), i, mm);
    }
    SumToSize(|a|, RowOff(a), row);
  }

  // ----- eigenvalues -----

  ghost function TermAt(a: Matrix, i: int, v: Vector): int -> real {
    (j: int) => Mul(At(a, i, j), Coord(v, j))
  }

  /** The `i`-th coordinate of the product of `a` and `v`. */
  ghost function Dot(a: Matrix, i: int, v: Vector): real {
    SumTo(|a|, TermAt(a, i, v))
  }

  ghost predicate Nonzero(v: Vector) {
    exists i :: 0 <= i < |v| && v[i] != 0.0
  }

  ghost predicate EigenPair(a: Matrix, eigen: real, v: Vector) {
    && |v| == |a| && Nonzero(v)
    && forall i :: 0 <= i < |a| ==> Dot(a, i, v) == Mul(eigen, Coord(v, i))
  }

  ghost predicate Eigenvalue(a: Matrix, eigen: real) {
    exists v :: EigenPair(a, eigen, v)
  }

  lemma {:induction false} LargestCoord(v: Vector, n: nat) returns (i: nat)
    requires 0 < n <= |v|
    ensures i < n && forall j :: 0 <= j < n ==> Abs(v[j]) <= Abs(v[i])
  {
    if n == 1 {
      i := 0;
    } else {
      i := LargestCoord(v, n - 1);
      if Abs(v[i]) < Abs(v[n - 1]) { i := n - 1; }
    }
  }

  /**
   Every eigenvalue lies within (n-1) m of some diagonal entry, when no
   off-diagonal entry exceeds `m`.
   */
  lemma EigenvalueNearDiagonal(a: Matrix, eigen: real, m: real) returns (i: nat)
    requires Eigenvalue(a, eigen) && OffBounded(a, m) && m >= 0.0
    ensures i < |a| && Abs(At(a, i, i) - eigen) <= Mul((|a| - 1) as real, m)
  {
    var v :| EigenPair(a, eigen, v);
    i := LargestCoord(v, |a|);
    var w := Abs(v[i]);
    MulLe(0.0, m, w);
    forall j | 0 <= j < |a| && j != i
      ensures Abs(TermAt(a, i, v)(j)) <= Mul(m, w)
    {
      MulBounded(At(a, i, j), v[j], m, w);
    }
    SumToOthers(|a|, TermAt(a, i, v), i, Mul(m, w));
    var d := At(a, i, i) - eigen;
    AddMul(At(a, i, i), eigen, v[i]);
    AbsMul(d, v[i]);
    MulAssoc((|a| - 1) as real, m, w);
    CancelLe(Abs(d), Mul((|a| - 1) as real, m), w);
  }
}
