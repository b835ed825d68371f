/**
 The solver loop of services/capital_cells/breadth.py on a mutable matrix, and what
 a run of largest-pivot rotations guarantees about the values it returns.
 */
module JacobiSolver {
  import opened Numeric
  import opened Products
  import opened Matrices
  import opened Jacobi

  datatype Turn = Turn(p: nat, q: nat, t: real, c: real, s: real)

  ghost predicate LargestPivot(a: Matrix, p: nat, q: nat) {
    && p < q < |a|
    && OffBounded(a, Abs(At(a, p, q)))
  }

  /** Every matrix of the trail is the previous one, rotated at its largest pivot. */
  ghost predicate Run(trail: seq<Matrix>, turns: seq<Turn>) {
    && |trail| == |turns| + 1
    && Square(trail[0]) && Symmetric(trail[0])
    && forall k :: 0 <= k < |turns| ==> Step(trail[k], trail[k + 1], turns[k])
  }

  ghost predicate Step(a: Matrix, b: Matrix, turn: Turn) {
    Rotation(a, b, turn.p, turn.q, turn.t, turn.c, turn.s) && LargestPivot(a, turn.p, turn.q)
  }

  lemma RunPrefix(trail: seq<Matrix>, turns: seq<Turn>)
    requires Run(trail, turns) && turns != []
    ensures Run(trail[..|turns|], turns[..|turns| - 1])
    ensures Step(trail[|turns| - 1], trail[|turns|], turns[|turns| - 1])
  {
    var k := |turns| - 1;
    assert Step(trail[k], trail[k + 1], turns[k]);
    forall i | 0 <= i < k
      ensures Step(trail[..|turns|][i], trail[..|turns|][i + 1], turns[..k][i])
    {
      assert Step(trail[i], trail[i + 1], turns[i]);
    }
  }

  /** Over a whole run the matrix stays symmetric, and trace, sum of squares and eigenvalues stay. */
  lemma {:induction false} RunKeeps(trail: seq<Matrix>, turns: seq<Turn>, eigen: real)
    requires Run(trail, turns)
    ensures var a, b := trail[0], trail[|turns|];
            && |b| == |a| && Square(b) && Symmetric(b)
            && Trace(b) == Trace(a)
            && SumOfSquares(b) == SumOfSquares(a)
            && (Eigenvalue(b, eigen) <==> Eigenvalue(a, eigen))
    decreases |turns|
  {
    if turns != [] {
      var k := |turns| - 1;
      RunPrefix(trail, turns);
      RunKeeps(trail[..|turns|], turns[..k], eigen);
      var a, b, turn := trail[k], trail[k + 1], turns[k];
      RotationStaysSymmetric(a, b, turn.p, turn.q, turn.t, turn.c, turn.s);
      RotationKeepsTrace(a, b, turn.p, turn.q, turn.t, turn.c, turn.s);
      RotationKeepsSumOfSquares(a, b, turn.p, turn.q, turn.t, turn.c, turn.s);
      RotationKeepsEigenvalues(a, b, turn.p, turn.q, turn.t, turn.c, turn.s, eigen);
    }
  }

  // ----- convergence -----

  ghost function Power(x: real, k: nat): real {
    if k == 0 then 1.0 else Mul(x, Power(x, k - 1))
  }

  /** The number of ordered off-diagonal places. */
  ghost function Places(n: nat): real {
    Mul(n as real, (n - 1) as real)
  }

  /** The factor by which one largest-pivot rotation shrinks the off-diagonal mass, at least. */
  ghost function Shrink(n: nat): real
    requires n >= 2
  {
    assert Places(n) > 0.0 by { MulPositive(n as real, (n - 1) as real); }
    1.0 - 2.0 / Places(n)
  }

  lemma ShrinkInRange(n: nat)
    requires n >= 2
    ensures Places(n) >= 2.0 && 0.0 <= Shrink(n) < 1.0
  {
    MulPositive(n as real, (n - 1) as real);
    var m := (n - 1) as real;
    MulLe(2.0, n as real, m);
    assert Mul(2.0, m) >= 2.0;
    DivideMul(2.0, Places(n));
    CancelLe(2.0 / Places(n), 1.0, Places(n));
  }

  lemma StepShrinks(a: Matrix, b: Matrix, turn: Turn)
    requires Step(a, b, turn)
    ensures OffMass(b) <= Mul(Shrink(|a|), OffMass(a))
  {
    var n, pivot := |a|, At(a, turn.p, turn.q);
    var pp := Mul(pivot, pivot);
    RotationLowersOffMass(a, b, turn.p, turn.q, turn.t, turn.c, turn.s);
    ShrinkInRange(n);
    OffMassBound(a, Abs(pivot));
    AbsMul(pivot, pivot);
    SquarePositive(pivot);
    var share := 2.0 / Places(n);
    MulAssoc(n as real, (n - 1) as real, pp);
    // share * OffMass <= share * Places * pivot^2 = 2 pivot^2
    DivideMul(2.0, Places(n));
    MulAssoc(share, Places(n), pp);
    MulLe(OffMass(a), Mul(Places(n), pp), share);
    AddMul(1.0, share, OffMass(a));
    AddMul(1.0, 1.0, pp);
  }

  /** After k rotations at most Shrink^k of the off-diagonal mass is left. */
  lemma {:induction false} RunConverges(trail: seq<Matrix>, turns: seq<Turn>)
    requires Run(trail, turns) && |trail[0]| >= 2
    ensures OffMass(trail[|turns|]) <= Mul(Power(Shrink(|trail[0]|), |turns|), OffMass(trail[0]))
    decreases |turns|
  {
    var n, first := |trail[0]|, OffMass(trail[0]);
    if turns != [] {
      var k := |turns| - 1;
      RunPrefix(trail, turns);
      RunConverges(trail[..|turns|], turns[..k]);
      RunKeeps(trail[..|turns|], turns[..k], 0.0);
      StepShrinks(trail[k], trail[k + 1], turns[k]);
      ShrinkInRange(n);
      MulLe(OffMass(trail[k]), Mul(Power(Shrink(n), k), first), Shrink(n));
      MulAssoc(Shrink(n), Power(Shrink(n), k), first);
    }
  }

  /** The off-diagonal mass bounds every off-diagonal entry. */
  lemma MassBoundsEntries(a: Matrix, m: real)
    requires Square(a) && m >= 0.0 && OffMass(a) <= Mul(m, m)
    ensures OffBounded(a, m)
  {
    forall i, j | 0 <= i < |a| && 0 <= j < |a| && i != j
      ensures Abs(At(a, i, j)) <= m
    {
      forall k, l | 0 <= k < |a| && 0 <= l < |a|
        ensures OffSquareAt(a, k)(l) >= 0.0
      {
        SquarePositive(At(a, k, l));
      }
      forall k | 0 <= k < |a|
        ensures RowOff(a)(k) >= 0.0
      {
        SumToNonNegative(|a|, OffSquareAt(a, k));
      }
      SumToTerm(|a|, OffSquareAt(a, i), j);
      SumToTerm(|a|, RowOff(a), i);
      var x := Abs(At(a, i, j));
      AbsMul(At(a, i, j), At(a, i, j));
      assert Mul(x, x) <= Mul(m, m);
      if m < x {
        MulLe(m, x, m);
        ScaleStrictly(m, x);
      }
    }
  }

  lemma ScaleStrictly(m: real, x: real)
    requires 0.0 <= m < x
    ensures Mul(m, x) < Mul(x, x)
  {
    AddMul(x, m, x);
    MulPositive(x - m, x);
  }

  /**
   What the returned diagonal is worth: the values sum to the trace, their squares to
   the sum of squares less the remaining mass, and every eigenvalue of the input lies
   within (n-1) m of one of them, for any m bounding the remaining off-diagonal entries.
   */
  lemma ReturnedValues(trail: seq<Matrix>, turns: seq<Turn>, values: seq<real>, eigen: real, m: real)
    requires Run(trail, turns) && m >= 0.0 && OffBounded(trail[|turns|], m)
    requires |values| == |trail[0]| && forall i :: 0 <= i < |values| ==> values[i] == At(trail[|turns|], i, i)
    ensures SumTo(|values|, i => Coord(values, i)) == Trace(trail[0])
    ensures SumTo(|values|, i => Mul(Coord(values, i), Coord(values, i))) == SumOfSquares(trail[0]) - OffMass(trail[|turns|])
    ensures Eigenvalue(trail[0], eigen) ==>
              exists i :: 0 <= i < |values| && Abs(values[i] - eigen) <= Mul((|values| - 1) as real, m)
  {
    hide OffBounded, OffMass, SumOfSquares, Eigenvalue;
    var b := trail[|turns|];
    RunKeeps(trail, turns, eigen);
    DiagonalSums(b, values);
    if Eigenvalue(trail[0], eigen) {
      var i := EigenvalueNearDiagonal(b, eigen, m);
      assert values[i] == At(b, i, i);
    }
  }

  /**
   After k rotations every eigenvalue of the input lies within (n-1) m of a returned value,
   for every m whose square is at least Shrink^k of the input's off-diagonal mass.
   */
  lemma EigenvaluesConverge(trail: seq<Matrix>, turns: seq<Turn>, values: seq<real>, eigen: real, m: real)
    requires Run(trail, turns) && |trail[0]| >= 2 && m >= 0.0
    requires Mul(m, m) >= Mul(Power(Shrink(|trail[0]|), |turns|), OffMass(trail[0]))
    requires |values| == |trail[0]| && |trail[|turns|]| == |trail[0]|
    requires forall i :: 0 <= i < |values| ==> values[i] == At(trail[|turns|], i, i)
    requires Eigenvalue(trail[0], eigen)
    ensures exists i :: 0 <= i < |values| && Abs(values[i] - eigen) <= Mul((|values| - 1) as real, m)
  {
    hide OffBounded, OffMass, SumOfSquares, Eigenvalue, Power, Shrink;
    RunConverges(trail, turns);
    RunKeeps(trail, turns, eigen);
    MassBoundsEntries(trail[|turns|], m);
    ReturnedValues(trail, turns, values, eigen, m);
  }

  lemma DiagonalSums(b: Matrix, values: seq<real>)
    requires |values| == |b| && Square(b) && forall i :: 0 <= i < |values| ==> values[i] == At(b, i, i)
    ensures SumTo(|values|, i => Coord(values, i)) == Trace(b)
    ensures SumTo(|values|, i => Mul(Coord(values, i), Coord(values, i))) == SumOfSquares(b) - OffMass(b)
  {
    hide SumOfSquares, OffMass;
    SplitSquares(b);
    SumToEq(|values|, i => Coord(values, i), DiagonalAt(b));
    SumToEq(|values|, i => Mul(Coord(values, i), Coord(values, i)), DiagonalSquareAt(b));
  }

  // ----- the loop -----

  ghost function View(a: array2<real>): (m: Matrix)
    reads a
    ensures |m| == a.Length0 && forall i :: 0 <= i < |m| ==> |m[i]| == a.Length1
    ensures forall i, j :: 0 <= i < a.Length0 && 0 <= j < a.Length1 ==> At(m, i, j) == a[i, j]
  {
    seq(a.Length0, i requires 0 <= i < a.Length0 reads a =>
      seq(a.Length1, j requires 0 <= j < a.Length1 reads a => a[i, j]))
  }

  /** The first of the largest entries above the diagonal, in row order; (0, 1) when all are 0. */
  method LargestOffDiagonal(a: array2<real>) returns (p: nat, q: nat, largest: real)
    requires a.Length0 == a.Length1
    ensures largest >= 0.0
    ensures forall i, j :: 0 <= i < j < a.Length0 ==> Abs(a[i, j]) <= largest
    ensures a.Length0 >= 2 || largest > 0.0 ==> p < q < a.Length0 && Abs(a[p, q]) == largest
    ensures forall i, j :: 0 <= i < j < a.Length0 && (i < p || (i == p && j < q)) ==> Abs(a[i, j]) < largest
  {
    p, q, largest := 0, 1, 0.0;
    for i := 0 to a.Length0
      invariant largest >= 0.0 && p < q
      invariant largest == 0.0 ==> p == 0 && q == 1
      invariant largest > 0.0 ==> p < i && q < a.Length0 && Abs(a[p, q]) == largest
      invariant forall k, l :: 0 <= k < i && k < l < a.Length0 ==> Abs(a[k, l]) <= largest
      invariant forall k, l :: 0 <= k < l < a.Length0 && (k < p || (k == p && l < q)) ==> Abs(a[k, l]) < largest
    {
      for j := i + 1 to a.Length0
        invariant largest >= 0.0 && p < q
        invariant largest == 0.0 ==> p == 0 && q == 1
        invariant largest > 0.0 ==> p <= i && q < a.Length0 && (p < i || q < j) && Abs(a[p, q]) == largest
        invariant forall k, l :: 0 <= k < i && k < l < a.Length0 ==> Abs(a[k, l]) <= largest
        invariant forall l :: i < l < j ==> Abs(a[i, l]) <= largest
        invariant forall k, l :: 0 <= k < l < a.Length0 && (k < p || (k == p && l < q)) ==> Abs(a[k, l]) < largest
      {
        if Abs(a[i, j]) > largest {
          largest, p, q := Abs(a[i, j]), i, j;
        }
      }
    }
  }

  /** The entries rewritten once the loop has passed the rows before `i`. */
  ghost predicate Written(p: nat, q: nat, i: nat, k: int, l: int) {
    || ((k == p || k == q) && (l == p || l == q || l < i))
    || ((l == p || l == q) && k < i)
  }

  /** `a` holds the rotation of `m`, written as far as row `i`. */
  ghost predicate PartlyRotated(a: array2<real>, m: Matrix, p: nat, q: nat, t: real, s: real, u: real, i: nat)
    reads a
  {
    && a.Length0 == a.Length1 == |m|
    && forall k, l :: 0 <= k < |m| && 0 <= l < |m| ==>
         a[k, l] == if Written(p, q, i, k, l) then RotatedAt(m, p, q, t, s, u, k, l) else At(m, k, l)
  }

  /** The update of row and column `i` in columns and rows p and q. */
  method RotateRow(a: array2<real>, ghost m: Matrix, p: nat, q: nat, ghost t: real, s: real, u: real, i: nat)
    requires PartlyRotated(a, m, p, q, t, s, u, i) && p < q < |m| && i < |m|
    modifies a
    ensures PartlyRotated(a, m, p, q, t, s, u, i + 1)
  {
    if i != p && i != q {
      var aip, aiq := a[i, p], a[i, q];
      assert aip == At(m, i, p) && aiq == At(m, i, q);
      var x := aip - Mul(s, aiq + Mul(u, aip));
      a[i, p] := x;
      a[p, i] := x;
      var y := aiq + Mul(s, aip - Mul(u, aiq));
      a[i, q] := y;
      a[q, i] := y;
    }
  }

  /** One rotation, in place. */
  method RotateInPlace(a: array2<real>, p: nat, q: nat, t: real, c: real, s: real)
    requires a.Length0 == a.Length1 && p < q < a.Length0 && c > 0.0
    modifies a
    ensures View(a) == Rotated(old(View(a)), p, q, t, s, s / (1.0 + c))
  {
    ghost var m := View(a);
    var n := a.Length0;
    var app, aqq, apq := a[p, p], a[q, q], a[p, q];
    a[p, p] := app - Mul(t, apq);
    a[q, q] := aqq + Mul(t, apq);
    a[p, q] := 0.0;
    a[q, p] := 0.0;
    var u := s / (1.0 + c);
    for i := 0 to n
      invariant PartlyRotated(a, m, p, q, t, s, u, i)
    {
      RotateRow(a, m, p, q, t, s, u, i);
    }
    forall k | 0 <= k < n
      ensures View(a)[k] == Rotated(m, p, q, t, s, u)[k]
    {
      assert forall l :: 0 <= l < n ==> At(View(a), k, l) == a[k, l] == RotatedAt(m, p, q, t, s, u, k, l);
    }
  }

  /** Computes the angle for the pivot and rotates. */
  method TurnAt(a: array2<real>, p: nat, q: nat, sqrt: real -> real) returns (ghost turn: Turn)
    requires a.Length0 == a.Length1 && p < q < a.Length0 && a[p, q] != 0.0
    requires Symmetric(View(a)) && SquareRoot(sqrt)
    modifies a
    ensures turn.p == p && turn.q == q
    ensures Rotation(old(View(a)), View(a), p, q, turn.t, turn.c, turn.s)
  {
    var app, aqq, apq := a[p, p], a[q, q], a[p, q];
    ComputedAngle(app, aqq, apq, sqrt);
    var tau := (aqq - app) / (2.0 * apq);
    var t := Tangent(tau, sqrt);
    var c := 1.0 / sqrt(1.0 + Mul(t, t));
    var s := Mul(t, c);
    turn := Turn(p, q, t, c, s);
    assert Annihilates(At(View(a), p, p), At(View(a), q, q), At(View(a), p, q), t, c, s);
    RotateInPlace(a, p, q, t, c, s);
  }

  /**
   At most `maxIter` rotations at the largest pivot, stopping once every
   off-diagonal entry is below `tol`; returns the diagonal.
   */
  method SymmetricEigenvalues(matrix: Matrix, maxIter: nat, tol: real, sqrt: real -> real)
    returns (values: seq<real>, ghost trail: seq<Matrix>, ghost turns: seq<Turn>)
    requires Square(matrix) && Symmetric(matrix) && tol > 0.0 && SquareRoot(sqrt)
    ensures Run(trail, turns) && trail[0] == matrix && |turns| <= maxIter
    ensures |values| == |matrix| && forall i :: 0 <= i < |values| ==> values[i] == At(trail[|turns|], i, i)
    ensures |turns| == maxIter || OffBounded(trail[|turns|], tol)
  {
    var n := |matrix|;
    var a := new real[n, n]((i, j) => At(matrix, i, j));
    assert View(a) == matrix by {
      forall i | 0 <= i < n
        ensures View(a)[i] == matrix[i]
      {
        assert forall j :: 0 <= j < n ==> At(View(a), i, j) == At(matrix, i, j);
      }
    }
    trail, turns := [matrix], [];
    ghost var small := false;
    for k := 0 to maxIter
      invariant fresh(a) && a.Length0 == a.Length1 == n
      invariant Run(trail, turns) && trail[0] == matrix && |turns| == k
      invariant View(a) == trail[k] && Symmetric(View(a)) && Square(View(a))
      invariant !small
    {
      var p, q, largest := LargestOffDiagonal(a);
      UpperBoundsAll(View(a), largest);
      if largest < tol {
        small := true;
        assert OffBounded(trail[k], tol);
        break;
      }
      ghost var before := View(a);
      ghost var turn := TurnAt(a, p, q, sqrt);
      RotationStaysSymmetric(before, View(a), p, q, turn.t, turn.c, turn.s);
      ExtendRun(trail, turns, View(a), turn);
      trail, turns := trail + [View(a)], turns + [turn];
    }
    values := seq(n, i requires 0 <= i < n reads a => a[i, i]);
  }

  lemma UpperBoundsAll(a: Matrix, m: real)
    requires Symmetric(a)
    requires forall i, j :: 0 <= i < j < |a| ==> Abs(At(a, i, j)) <= m
    ensures OffBounded(a, m)
  {
    forall i, j | 0 <= i < |a| && 0 <= j < |a| && i != j
      ensures Abs(At(a, i, j)) <= m
    {
      assert At(a, i, j) == At(a, j, i);
    }
  }

  lemma ExtendRun(trail: seq<Matrix>, turns: seq<Turn>, b: Matrix, turn: Turn)
    requires Run(trail, turns) && Step(trail[|turns|], b, turn)
    ensures Run(trail + [b], turns + [turn])
  {
    var longer, more := trail + [b], turns + [turn];
    forall k | 0 <= k < |more|
      ensures Step(longer[k], longer[k + 1], more[k])
    {
      if k < |turns| {
        assert Step(trail[k], trail[k + 1], turns[k]);
      }
    }
  }
}
