/**
 The Jacobi eigenvalue solver (services/capital_cells/breadth.py): one rotation,
 what it keeps, and what a whole run of largest-pivot rotations returns.
 */
module Jacobi {
  import opened Numeric
  import opened Products
  import opened Matrices

  /** A square-root function on the non-negative reals. */
  ghost predicate SquareRoot(sqrt: real -> real) {
    forall x :: x >= 0.0 ==> sqrt(x) >= 0.0 && Mul(sqrt(x), sqrt(x)) == x
  }

  // ----- the angle -----

  /** Cosine `c` and sine `s` of an angle of tangent `t` that annihilates the pivot `apq`. */
  ghost predicate Annihilates(app: real, aqq: real, apq: real, t: real, c: real, s: real) {
    && c > 0.0 && Mul(c, c) + Mul(s, s) == 1.0 && s == Mul(t, c)
    && Mul(t, aqq - app) + Mul(Mul(t, t), apq) == apq
  }

  /** The root of t^2 + 2 t tau = 1 of smaller magnitude, as the solver computes it. */
  function Tangent(tau: real, sqrt: real -> real): real
    requires Abs(tau) + sqrt(1.0 + Mul(tau, tau)) != 0.0
  {
    (if tau >= 0.0 then 1.0 else -1.0) / (Abs(tau) + sqrt(1.0 + Mul(tau, tau)))
  }

  lemma RootPositive(x: real, sqrt: real -> real)
    requires SquareRoot(sqrt)
    ensures sqrt(1.0 + Mul(x, x)) > 0.0
    ensures Mul(sqrt(1.0 + Mul(x, x)), sqrt(1.0 + Mul(x, x))) == 1.0 + Mul(x, x)
  {
    SquarePositive(x);
    var r := sqrt(1.0 + Mul(x, x));
    assert Mul(r, r) == 1.0 + Mul(x, x);
    SquarePositive(r);
  }

  lemma TangentSolves(tau: real, sqrt: real -> real)
    requires SquareRoot(sqrt)
    ensures Abs(tau) + sqrt(1.0 + Mul(tau, tau)) > 0.0
    ensures var t := Tangent(tau, sqrt); Mul(t, t) + 2.0 * Mul(t, tau) == 1.0
  {
    RootPositive(tau, sqrt);
    var e, r := Abs(tau), sqrt(1.0 + Mul(tau, tau));
    var g := e + r;
    var h := 1.0 / g;
    DivideMul(1.0, g);
    // (g - e)^2 = r^2 = 1 + e^2, hence g^2 - 2 g e = 1, hence g = h + 2 e
    SquarePositive(tau);
    SquareOfDifference(g, e);
    assert Mul(g, g) - 2.0 * Mul(g, e) == 1.0;
    MulAssoc(h, g, g);
    MulAssoc(h, g, e);
    MulAdd(h, Mul(g, g), Mul(g, e));
    MulAdd(h, Mul(g, g) - Mul(g, e), Mul(g, e));
    assert g == h + 2.0 * e;
    // times h: 1 = h^2 + 2 h e
    MulAdd(h, h, e);
    MulAdd(h, h + e, e);
    assert Mul(h, h) + 2.0 * Mul(h, e) == 1.0;
    if tau < 0.0 {
      assert Tangent(tau, sqrt) == -h by { NegatedQuotient(g); }
      SquarePositive(h);
      MulAdd(-h, 0.0, e);
      AddMul(0.0, h, e);
    }
  }

  lemma NegatedQuotient(g: real)
    requires g > 0.0
    ensures -1.0 / g == -(1.0 / g)
  {
    DivideMul(1.0, g);
    DivideMul(-1.0, g);
    AddMul(0.0, 1.0 / g, g);
    CancelEq(-1.0 / g, -(1.0 / g), g);
  }

  /** The computed angle annihilates the pivot. */
  lemma ComputedAngle(app: real, aqq: real, apq: real, sqrt: real -> real)
    requires SquareRoot(sqrt) && apq != 0.0
    ensures var tau := (aqq - app) / (2.0 * apq);
            && Abs(tau) + sqrt(1.0 + Mul(tau, tau)) > 0.0
            && var t := Tangent(tau, sqrt);
            && sqrt(1.0 + Mul(t, t)) > 0.0
            && var c := 1.0 / sqrt(1.0 + Mul(t, t));
            && Annihilates(app, aqq, apq, t, c, Mul(t, c))
  {
    var tau := (aqq - app) / (2.0 * apq);
    TangentSolves(tau, sqrt);
    var t := Tangent(tau, sqrt);
    RootPositive(t, sqrt);
    var h := sqrt(1.0 + Mul(t, t));
    var c := 1.0 / h;
    DivideMul(1.0, h);
    assert c > 0.0;
    // c^2 (1 + t^2) = (c h)^2 = 1
    MulShuffle(c, h, c, h);
    MulShuffle(t, c, t, c);
    MulAdd(Mul(c, c), 1.0, Mul(t, t));
    MulComm(Mul(c, c), Mul(t, t));
    // t (aqq - app) = 2 apq (t tau)
    DivideMul(aqq - app, 2.0 * apq);
    MulComm(tau, 2.0 * apq);
    AddMul(apq, apq, tau);
    MulAdd(t, Mul(apq, tau), Mul(apq, tau));
    MulAssoc(t, apq, tau);
    MulComm(t, apq);
    MulAssoc(apq, t, tau);
    // apq (t^2 + 2 t tau) = apq
    MulComm(Mul(t, t), apq);
    MulAdd(apq, Mul(t, t), Mul(t, tau));
    MulAdd(apq, Mul(t, t) + Mul(t, tau), Mul(t, tau));
  }

  // ----- one rotation -----

  /** Entry (i, j) after the rotation, written with the update the solver performs. */
  function RotatedAt(a: Matrix, p: nat, q: nat, t: real, s: real, u: real, i: int, j: int): real {
    if i == p && j == p then At(a, p, p) - Mul(t, At(a, p, q))
    else if i == q && j == q then At(a, q, q) + Mul(t, At(a, p, q))
    else if (i == p && j == q) || (i == q && j == p) then 0.0
    else if j == p then At(a, i, p) - Mul(s, At(a, i, q) + Mul(u, At(a, i, p)))
    else if j == q then At(a, i, q) + Mul(s, At(a, i, p) - Mul(u, At(a, i, q)))
    else if i == p then At(a, j, p) - Mul(s, At(a, j, q) + Mul(u, At(a, j, p)))
    else if i == q then At(a, j, q) + Mul(s, At(a, j, p) - Mul(u, At(a, j, q)))
    else At(a, i, j)
  }

  function Rotated(a: Matrix, p: nat, q: nat, t: real, s: real, u: real): (b: Matrix)
    ensures |b| == |a| && forall i :: 0 <= i < |b| ==> |b[i]| == |a|
  {
    seq(|a|, i requires 0 <= i < |a| => seq(|a|, j requires 0 <= j < |a| => RotatedAt(a, p, q, t, s, u, i, j)))
  }

  /** `b` is `a` rotated in the plane (p, q) by an angle that annihilates entry (p, q). */
  ghost predicate Rotation(a: Matrix, b: Matrix, p: nat, q: nat, t: real, c: real, s: real) {
    && p < q < |a| && Square(a) && Symmetric(a)
    && Annihilates(At(a, p, p), At(a, q, q), At(a, p, q), t, c, s)
    && b == Rotated(a, p, q, t, s, s / (1.0 + c))
  }

  /** The solver's update is the textbook one: aip' = c aip - s aiq, aiq' = s aip + c aiq. */
  lemma StableUpdate(x: real, y: real, c: real, s: real)
    requires c > 0.0 && Mul(c, c) + Mul(s, s) == 1.0
    ensures var u := s / (1.0 + c);
            && x - Mul(s, y + Mul(u, x)) == Mul(c, x) - Mul(s, y)
            && y + Mul(s, x - Mul(u, y)) == Mul(s, x) + Mul(c, y)
  {
    var u := s / (1.0 + c);
    DivideMul(s, 1.0 + c);
    // s u (1 + c) = s^2 = 1 - c^2 = (1 - c)(1 + c)
    MulAssoc(s, u, 1.0 + c);
    AddMul(1.0, c, 1.0 + c);
    MulAdd(c, 1.0, c);
    CancelEq(Mul(s, u), 1.0 - c, 1.0 + c);
    MulAdd(s, y, Mul(u, x));
    MulAdd(s, x, Mul(u, y));
    MulAssoc(s, u, x);
    MulAssoc(s, u, y);
    AddMul(1.0, c, x);
    AddMul(1.0, c, y);
  }

  /** The entries after a rotation, in textbook form. */
  lemma RotatedEntries(a: Matrix, b: Matrix, p: nat, q: nat, t: real, c: real, s: real, i: int)
    requires Rotation(a, b, p, q, t, c, s)
    requires 0 <= i < |a| && i != p && i != q
    ensures At(b, i, p) == At(b, p, i) == Mul(c, At(a, i, p)) - Mul(s, At(a, i, q))
    ensures At(b, i, q) == At(b, q, i) == Mul(s, At(a, i, p)) + Mul(c, At(a, i, q))
    ensures forall j :: 0 <= j < |a| && j != p && j != q ==> At(b, i, j) == At(a, i, j)
  {
    StableUpdate(At(a, i, p), At(a, i, q), c, s);
  }

  lemma RotationStaysSymmetric(a: Matrix, b: Matrix, p: nat, q: nat, t: real, c: real, s: real)
    requires Rotation(a, b, p, q, t, c, s)
    ensures Square(b) && Symmetric(b)
  {
  }

  lemma RotationKeepsTrace(a: Matrix, b: Matrix, p: nat, q: nat, t: real, c: real, s: real)
    requires Rotation(a, b, p, q, t, c, s)
    ensures Trace(b) == Trace(a)
  {
    SumToPair(|a|, DiagonalAt(a), DiagonalAt(b), p, q, 0.0);
  }

  lemma RotatedDifference(x: real, y: real, z: real, w: real, c: real, s: real)
    ensures Mul(Mul(c, x) - Mul(s, y), Mul(c, z) - Mul(s, w))
         == Mul(Mul(c, c), Mul(x, z)) - Mul(Mul(c, s), Mul(x, w)) - Mul(Mul(c, s), Mul(y, z)) + Mul(Mul(s, s), Mul(y, w))
  {
    ExpandProducts(Mul(c, x), -Mul(s, y), Mul(c, z), -Mul(s, w));
    SignRules(Mul(c, x), Mul(s, w));
    SignRules(Mul(s, y), Mul(c, z));
    SignRules(Mul(s, y), Mul(s, w));
    MulShuffle(c, x, c, z);
    MulShuffle(c, x, s, w);
    MulShuffle(s, y, c, z);
    MulShuffle(s, y, s, w);
    MulComm(c, s);
  }

  lemma RotatedSum(x: real, y: real, z: real, w: real, c: real, s: real)
    ensures Mul(Mul(s, x) + Mul(c, y), Mul(s, z) + Mul(c, w))
         == Mul(Mul(s, s), Mul(x, z)) + Mul(Mul(c, s), Mul(x, w)) + Mul(Mul(c, s), Mul(y, z)) + Mul(Mul(c, c), Mul(y, w))
  {
    ExpandProducts(Mul(s, x), Mul(c, y), Mul(s, z), Mul(c, w));
    MulShuffle(s, x, s, z);
    MulShuffle(s, x, c, w);
    MulShuffle(c, y, s, z);
    MulShuffle(c, y, c, w);
    MulComm(c, s);
  }

  /** A plane rotation keeps x^2 + y^2, and more generally x z + y w. */
  lemma PlaneRotation(x: real, y: real, z: real, w: real, c: real, s: real)
    requires Mul(c, c) + Mul(s, s) == 1.0
    ensures Mul(Mul(c, x) - Mul(s, y), Mul(c, z) - Mul(s, w)) + Mul(Mul(s, x) + Mul(c, y), Mul(s, z) + Mul(c, w))
            == Mul(x, z) + Mul(y, w)
  {
    RotatedDifference(x, y, z, w, c, s);
    RotatedSum(x, y, z, w, c, s);
    AddMul(Mul(c, c), Mul(s, s), Mul(x, z));
    AddMul(Mul(c, c), Mul(s, s), Mul(y, w));
    MulOne(Mul(x, z));
    MulOne(Mul(y, w));
  }

  lemma ExpandProducts(x: real, y: real, z: real, w: real)
    ensures Mul(x + y, z + w) == Mul(x, z) + Mul(x, w) + Mul(y, z) + Mul(y, w)
  {
    AddMul(x, y, z + w);
    MulAdd(x, z, w);
    MulAdd(y, z, w);
  }

  lemma SignRules(x: real, y: real)
    ensures Mul(-x, y) == -Mul(x, y) && Mul(x, -y) == -Mul(x, y) && Mul(-x, -y) == Mul(x, y)
  {
  }

  /** The diagonal gains exactly 2 apq^2. */
  lemma DiagonalGain(app: real, aqq: real, apq: real, t: real, c: real, s: real)
    requires Annihilates(app, aqq, apq, t, c, s)
    ensures Mul(app - Mul(t, apq), app - Mul(t, apq)) + Mul(aqq + Mul(t, apq), aqq + Mul(t, apq))
            == Mul(app, app) + Mul(aqq, aqq) + 2.0 * Mul(apq, apq)
  {
    var w := Mul(t, apq);
    SquareOfDifference(app, w);
    SquareOfDifference(aqq, w);
    // w (aqq - app) + w^2 = apq (t (aqq - app) + t^2 apq) = apq^2
    AddMul(aqq, app, w);
    MulComm(t, apq);
    MulComm(aqq - app, w);
    MulAssoc(apq, t, aqq - app);
    MulShuffle(apq, t, apq, t);
    MulComm(Mul(t, t), apq);
    MulAssoc(apq, apq, Mul(t, t));
    MulAdd(apq, Mul(t, aqq - app), Mul(Mul(t, t), apq));
  }

  lemma RotationMovesDiagonal(a: Matrix, b: Matrix, p: nat, q: nat, t: real, c: real, s: real)
    requires Rotation(a, b, p, q, t, c, s)
    ensures DiagonalSquares(b) == DiagonalSquares(a) + 2.0 * Mul(At(a, p, q), At(a, p, q))
  {
    DiagonalGain(At(a, p, p), At(a, q, q), At(a, p, q), t, c, s);
    SumToPair(|a|, DiagonalSquareAt(a), DiagonalSquareAt(b), p, q, 2.0 * Mul(At(a, p, q), At(a, p, q)));
  }

  lemma RotationKeepsSumOfSquares(a: Matrix, b: Matrix, p: nat, q: nat, t: real, c: real, s: real)
    requires Rotation(a, b, p, q, t, c, s)
    ensures SumOfSquares(b) == SumOfSquares(a)
  {
    var n := |a|;
    forall i | 0 <= i < n && i != p && i != q
      ensures RowSquares(b)(i) == RowSquares(a)(i)
    {
      RotatedEntries(a, b, p, q, t, c, s, i);
      PlaneRotation(At(a, i, p), At(a, i, q), At(a, i, p), At(a, i, q), c, s);
      SumToPair(n, SquareAt(a, i), SquareAt(b, i), p, q, 0.0);
    }
    RotatedRowsKeepSquares(a, b, p, q, t, c, s);
    SumToPair(n, RowSquares(a), RowSquares(b), p, q, 0.0);
  }

  /** Rows p and q together keep their sum of squares. */
  lemma RotatedRowsKeepSquares(a: Matrix, b: Matrix, p: nat, q: nat, t: real, c: real, s: real)
    requires Rotation(a, b, p, q, t, c, s)
    ensures RowSquares(b)(p) + RowSquares(b)(q) == RowSquares(a)(p) + RowSquares(a)(q)
  {
    var n := |a|;
    var before := (j: int) => SquareAt(a, p)(j) + SquareAt(a, q)(j);
    var after := (j: int) => SquareAt(b, p)(j) + SquareAt(b, q)(j);
    forall j | 0 <= j < n && j != p && j != q
      ensures before(j) == after(j)
    {
      RotatedEntries(a, b, p, q, t, c, s, j);
      PlaneRotation(At(a, j, p), At(a, j, q), At(a, j, p), At(a, j, q), c, s);
      assert At(a, p, j) == At(a, j, p) && At(a, q, j) == At(a, j, q);
      assert before(j) == SquareAt(a, p)(j) + SquareAt(a, q)(j);
      assert after(j) == SquareAt(b, p)(j) + SquareAt(b, q)(j);
    }
    assert At(a, q, p) == At(a, p, q);
    assert before(p) + before(q) == SquareAt(a, p)(p) + SquareAt(a, q)(p) + SquareAt(a, p)(q) + SquareAt(a, q)(q);
    assert after(p) + after(q) == SquareAt(b, p)(p) + SquareAt(b, q)(p) + SquareAt(b, p)(q) + SquareAt(b, q)(q);
    DiagonalGain(At(a, p, p), At(a, q, q), At(a, p, q), t, c, s);
    SumToPair(n, before, after, p, q, 0.0);
    SumToPlus(n, SquareAt(a, p), SquareAt(a, q), before);
    SumToPlus(n, SquareAt(b, p), SquareAt(b, q), after);
  }

  /** The off-diagonal mass drops by exactly 2 apq^2. */
  lemma RotationLowersOffMass(a: Matrix, b: Matrix, p: nat, q: nat, t: real, c: real, s: real)
    requires Rotation(a, b, p, q, t, c, s)
    ensures OffMass(b) == OffMass(a) - 2.0 * Mul(At(a, p, q), At(a, p, q))
  {
    RotationKeepsSumOfSquares(a, b, p, q, t, c, s);
    RotationMovesDiagonal(a, b, p, q, t, c, s);
    SplitSquares(a);
    SplitSquares(b);
  }

  // ----- eigenvalues -----

  /** The vector turned by the same rotation. */
  ghost function Turned(v: Vector, p: nat, q: nat, c: real, s: real): Vector
    requires p < q < |v|
  {
    v[p := Mul(c, v[p]) - Mul(s, v[q])][q := Mul(s, v[p]) + Mul(c, v[q])]
  }

  ghost function TurnedBack(v: Vector, p: nat, q: nat, c: real, s: real): Vector
    requires p < q < |v|
  {
    Turned(v, p, q, c, -s)
  }

  /** Rotating the product is the product of the rotated: the untouched coordinates. */
  lemma ProductElsewhere(a: Matrix, b: Matrix, p: nat, q: nat, t: real, c: real, s: real, v: Vector, i: int)
    requires Rotation(a, b, p, q, t, c, s) && |v| == |a|
    requires 0 <= i < |a| && i != p && i != q
    ensures Dot(b, i, Turned(v, p, q, c, s)) == Dot(a, i, v)
  {
    var w := Turned(v, p, q, c, s);
    RotatedEntries(a, b, p, q, t, c, s, i);
    PlaneRotation(At(a, i, p), At(a, i, q), v[p], v[q], c, s);
    SumToPair(|a|, TermAt(a, i, v), TermAt(b, i, w), p, q, 0.0);
  }

  /** The two rotated coordinates of the product. */
  lemma ProductInPlane(a: Matrix, b: Matrix, p: nat, q: nat, t: real, c: real, s: real, v: Vector)
    requires Rotation(a, b, p, q, t, c, s) && |v| == |a|
    ensures Dot(b, p, Turned(v, p, q, c, s)) == Mul(c, Dot(a, p, v)) - Mul(s, Dot(a, q, v))
    ensures Dot(b, q, Turned(v, p, q, c, s)) == Mul(s, Dot(a, p, v)) + Mul(c, Dot(a, q, v))
  {
    var n, w := |a|, Turned(v, p, q, c, s);
    var rowP := (j: int) => Mul(c, TermAt(a, p, v)(j)) + Mul(-s, TermAt(a, q, v)(j));
    var rowQ := (j: int) => Mul(s, TermAt(a, p, v)(j)) + Mul(c, TermAt(a, q, v)(j));
    forall j | 0 <= j < n && j != p && j != q
      ensures rowP(j) == TermAt(b, p, w)(j) && rowQ(j) == TermAt(b, q, w)(j)
    {
      RotatedEntries(a, b, p, q, t, c, s, j);
      CombineTerms(c, -s, At(a, p, j), At(a, q, j), v[j]);
      CombineTerms(s, c, At(a, p, j), At(a, q, j), v[j]);
      SignRules(s, At(a, q, j));
      assert At(a, p, j) == At(a, j, p) && At(a, q, j) == At(a, j, q);
      assert rowP(j) == Mul(c, TermAt(a, p, v)(j)) + Mul(-s, TermAt(a, q, v)(j));
      assert rowQ(j) == Mul(s, TermAt(a, p, v)(j)) + Mul(c, TermAt(a, q, v)(j));
    }
    assert At(a, q, p) == At(a, p, q);
    assert rowP(p) + rowP(q) == Mul(c, TermAt(a, p, v)(p)) + Mul(-s, TermAt(a, q, v)(p))
                              + (Mul(c, TermAt(a, p, v)(q)) + Mul(-s, TermAt(a, q, v)(q)));
    assert rowQ(p) + rowQ(q) == Mul(s, TermAt(a, p, v)(p)) + Mul(c, TermAt(a, q, v)(p))
                              + (Mul(s, TermAt(a, p, v)(q)) + Mul(c, TermAt(a, q, v)(q)));
    PivotTerms(At(a, p, p), At(a, q, q), At(a, p, q), t, c, s, v[p], v[q]);
    SumToPair(n, rowP, TermAt(b, p, w), p, q, 0.0);
    SumToPair(n, rowQ, TermAt(b, q, w), p, q, 0.0);
    SumToLinear(n, c, TermAt(a, p, v), -s, TermAt(a, q, v), rowP);
    SumToLinear(n, s, TermAt(a, p, v), c, TermAt(a, q, v), rowQ);
    SignRules(s, Dot(a, q, v));
  }

  lemma CombineTerms(c: real, s: real, x: real, y: real, z: real)
    ensures Mul(c, Mul(x, z)) + Mul(s, Mul(y, z)) == Mul(Mul(c, x) + Mul(s, y), z)
  {
    MulAssoc(c, x, z);
    MulAssoc(s, y, z);
    AddMul(Mul(c, x), Mul(s, y), z);
  }

  /** The terms of rows p and q at columns p and q. */
  lemma PivotTerms(app: real, aqq: real, apq: real, t: real, c: real, s: real, x: real, y: real)
    requires Annihilates(app, aqq, apq, t, c, s)
    ensures Mul(app - Mul(t, apq), Mul(c, x) - Mul(s, y))
            == Mul(c, Mul(app, x)) + Mul(-s, Mul(apq, x)) + (Mul(c, Mul(apq, y)) + Mul(-s, Mul(aqq, y)))
    ensures Mul(aqq + Mul(t, apq), Mul(s, x) + Mul(c, y))
            == Mul(s, Mul(app, x)) + Mul(c, Mul(apq, x)) + (Mul(s, Mul(apq, y)) + Mul(c, Mul(aqq, y)))
  {
    var w := Mul(t, apq);
    // c w = s apq
    MulComm(c, w);
    MulAssoc(t, apq, c);
    MulComm(apq, c);
    MulAssoc(t, c, apq);
    assert Mul(c, w) == Mul(s, apq);
    // s (aqq - app) + s w = c apq
    MulAssoc(c, t, aqq - app);
    MulComm(c, t);
    MulComm(s, w);
    MulAssoc(w, t, c);
    MulComm(w, t);
    MulAssoc(t, t, apq);
    MulComm(Mul(t, w), c);
    MulAdd(c, Mul(t, aqq - app), Mul(Mul(t, t), apq));
    assert Mul(s, aqq - app) + Mul(s, w) == Mul(c, apq);
    MulAdd(s, aqq, app);
    MulComm(app - w, Mul(c, x) - Mul(s, y));
    Distribute(c, x, s, y, app, w);
    Distribute(s, x, -c, y, aqq, -w);
    CollectTerms(c, s, app, aqq, apq, w, x, y);
  }

  lemma Distribute(c: real, x: real, s: real, y: real, m: real, w: real)
    ensures Mul(m - w, Mul(c, x) - Mul(s, y)) == Mul(Mul(c, m) - Mul(c, w), x) - Mul(Mul(s, m) - Mul(s, w), y)
  {
    var k := m - w;
    MulAdd(k, Mul(c, x), Mul(s, y));
    MulAdd(c, m, w);
    MulAdd(s, m, w);
    MulComm(k, Mul(c, x));
    MulComm(k, Mul(s, y));
    MulAssoc(c, x, k);
    MulAssoc(s, y, k);
    MulComm(x, k);
    MulComm(y, k);
    MulAssoc(c, k, x);
    MulAssoc(s, k, y);
  }

  lemma CollectTerms(c: real, s: real, app: real, aqq: real, apq: real, w: real, x: real, y: real)
    requires Mul(c, w) == Mul(s, apq)
    requires Mul(s, aqq) - Mul(s, app) + Mul(s, w) == Mul(c, apq)
    requires Mul(app - w, Mul(c, x) - Mul(s, y)) == Mul(Mul(c, app) - Mul(c, w), x) - Mul(Mul(s, app) - Mul(s, w), y)
    requires Mul(aqq - -w, Mul(s, x) - Mul(-c, y)) == Mul(Mul(s, aqq) - Mul(s, -w), x) - Mul(Mul(-c, aqq) - Mul(-c, -w), y)
    ensures Mul(app - w, Mul(c, x) - Mul(s, y))
            == Mul(c, Mul(app, x)) + Mul(-s, Mul(apq, x)) + (Mul(c, Mul(apq, y)) + Mul(-s, Mul(aqq, y)))
    ensures Mul(aqq + w, Mul(s, x) + Mul(c, y))
            == Mul(s, Mul(app, x)) + Mul(c, Mul(apq, x)) + (Mul(s, Mul(apq, y)) + Mul(c, Mul(aqq, y)))
  {
    CombineTerms(c, -s, app, apq, x);
    CombineTerms(c, -s, apq, aqq, y);
    CombineTerms(s, c, app, apq, x);
    CombineTerms(s, c, apq, aqq, y);
    SignRules(s, apq);
    SignRules(s, aqq);
    SignRules(s, w);
    SignRules(c, aqq);
    SignRules(c, w);
    SignRules(c, y);
    SignRules(Mul(c, apq) - Mul(s, aqq), y);
    SignRules(Mul(s, apq) + Mul(c, aqq), y);
  }

  /** Turning back undoes turning. */
  lemma TurnBack(v: Vector, p: nat, q: nat, c: real, s: real)
    requires p < q < |v| && Mul(c, c) + Mul(s, s) == 1.0
    ensures Turned(TurnedBack(v, p, q, c, s), p, q, c, s) == v
  {
    var x, y := v[p], v[q];
    SignRules(s, x);
    SignRules(s, y);
    UndoTurn(x, y, c, s);
    assert Turned(TurnedBack(v, p, q, c, s), p, q, c, s) == v;
  }

  lemma UndoTurn(x: real, y: real, c: real, s: real)
    requires Mul(c, c) + Mul(s, s) == 1.0
    ensures Mul(c, Mul(c, x) + Mul(s, y)) - Mul(s, Mul(c, y) - Mul(s, x)) == x
    ensures Mul(s, Mul(c, x) + Mul(s, y)) + Mul(c, Mul(c, y) - Mul(s, x)) == y
  {
    MulAdd(c, Mul(c, x), Mul(s, y));
    MulAdd(s, Mul(c, y), Mul(s, x));
    MulAdd(s, Mul(c, x), Mul(s, y));
    MulAdd(c, Mul(c, y), Mul(s, x));
    MulAssoc(c, c, x); MulAssoc(s, s, x); MulAssoc(c, s, x); MulAssoc(s, c, x);
    MulAssoc(c, c, y); MulAssoc(s, s, y); MulAssoc(c, s, y); MulAssoc(s, c, y);
    MulComm(c, s);
    AddMul(Mul(c, c), Mul(s, s), x);
    AddMul(Mul(c, c), Mul(s, s), y);
  }

  /** Turning keeps a vector away from zero. */
  lemma TurnedNonzero(v: Vector, p: nat, q: nat, c: real, s: real)
    requires p < q < |v| && Mul(c, c) + Mul(s, s) == 1.0 && Nonzero(v)
    ensures Nonzero(Turned(v, p, q, c, s))
  {
    var i :| 0 <= i < |v| && v[i] != 0.0;
    var w := Turned(v, p, q, c, s);
    if i != p && i != q {
      assert w[i] == v[i];
    } else {
      PlaneRotation(v[p], v[q], v[p], v[q], c, s);
      SquarePositive(v[p]);
      SquarePositive(v[q]);
      SquarePositive(w[p]);
      SquarePositive(w[q]);
      assert w[p] != 0.0 || w[q] != 0.0;
    }
  }

  lemma TurnedPair(a: Matrix, b: Matrix, p: nat, q: nat, t: real, c: real, s: real, eigen: real, v: Vector)
    requires Rotation(a, b, p, q, t, c, s) && EigenPair(a, eigen, v)
    ensures EigenPair(b, eigen, Turned(v, p, q, c, s))
  {
    var w := Turned(v, p, q, c, s);
    TurnedNonzero(v, p, q, c, s);
    ProductInPlane(a, b, p, q, t, c, s, v);
    ScaleInPlane(eigen, c, s, v[p], v[q]);
    forall i | 0 <= i < |b|
      ensures Dot(b, i, w) == Mul(eigen, Coord(w, i))
    {
      if i != p && i != q {
        ProductElsewhere(a, b, p, q, t, c, s, v, i);
      }
    }
  }

  lemma ScaleInPlane(eigen: real, c: real, s: real, x: real, y: real)
    ensures Mul(c, Mul(eigen, x)) - Mul(s, Mul(eigen, y)) == Mul(eigen, Mul(c, x) - Mul(s, y))
    ensures Mul(s, Mul(eigen, x)) + Mul(c, Mul(eigen, y)) == Mul(eigen, Mul(s, x) + Mul(c, y))
  {
    MulAdd(eigen, Mul(c, x), Mul(s, y));
    MulAdd(eigen, Mul(s, x), Mul(c, y));
    MulAssoc(eigen, c, x); MulAssoc(c, eigen, x);
    MulAssoc(eigen, s, x); MulAssoc(s, eigen, x);
    MulAssoc(eigen, c, y); MulAssoc(c, eigen, y);
    MulAssoc(eigen, s, y); MulAssoc(s, eigen, y);
    MulComm(eigen, c);
    MulComm(eigen, s);
  }

  lemma UnturnedPair(a: Matrix, b: Matrix, p: nat, q: nat, t: real, c: real, s: real, eigen: real, w: Vector)
    requires Rotation(a, b, p, q, t, c, s) && EigenPair(b, eigen, w)
    ensures EigenPair(a, eigen, TurnedBack(w, p, q, c, s))
  {
    var v := TurnedBack(w, p, q, c, s);
    TurnBack(w, p, q, c, s);
    SignRules(s, s);
    TurnedNonzero(w, p, q, c, -s);
    ProductInPlane(a, b, p, q, t, c, s, v);
    ScaleInPlane(eigen, c, s, v[p], v[q]);
    // the rotated residual of the eigen-equation is 0, hence so is the residual
    PlaneKernel(Dot(a, p, v), Dot(a, q, v), Mul(eigen, v[p]), Mul(eigen, v[q]), c, s);
    forall i | 0 <= i < |a|
      ensures Dot(a, i, v) == Mul(eigen, Coord(v, i))
    {
      if i != p && i != q {
        ProductElsewhere(a, b, p, q, t, c, s, v, i);
      }
    }
  }

  /** A plane rotation is injective. */
  lemma PlaneKernel(x: real, y: real, z: real, w: real, c: real, s: real)
    requires Mul(c, c) + Mul(s, s) == 1.0
    requires Mul(c, x) - Mul(s, y) == Mul(c, z) - Mul(s, w)
    requires Mul(s, x) + Mul(c, y) == Mul(s, z) + Mul(c, w)
    ensures x == z && y == w
  {
    UnrotatePoint(x, y, c, s);
    UnrotatePoint(z, w, c, s);
  }

  lemma UnrotatePoint(x: real, y: real, c: real, s: real)
    requires Mul(c, c) + Mul(s, s) == 1.0
    ensures Mul(c, Mul(c, x) - Mul(s, y)) + Mul(s, Mul(s, x) + Mul(c, y)) == x
    ensures Mul(c, Mul(s, x) + Mul(c, y)) - Mul(s, Mul(c, x) - Mul(s, y)) == y
  {
    SignRules(s, x);
    SignRules(s, y);
    SignRules(s, s);
    UndoTurn(x, y, c, -s);
    SignRules(s, Mul(c, y) + Mul(s, x));
    SignRules(s, Mul(c, x) - Mul(s, y));
  }

  /** A rotation keeps the set of eigenvalues. */
  lemma RotationKeepsEigenvalues(a: Matrix, b: Matrix, p: nat, q: nat, t: real, c: real, s: real, eigen: real)
    requires Rotation(a, b, p, q, t, c, s)
    ensures Eigenvalue(a, eigen) <==> Eigenvalue(b, eigen)
  {
    if Eigenvalue(a, eigen) {
      var v :| EigenPair(a, eigen, v);
      TurnedPair(a, b, p, q, t, c, s, eigen, v);
    }
    if Eigenvalue(b, eigen) {
      var w :| EigenPair(b, eigen, w);
      UnturnedPair(a, b, p, q, t, c, s, eigen, w);
    }
  }
}
