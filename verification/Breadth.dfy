/**
 Effective number of independent items: the eigenvalue participation ratio and the
 correlation cluster count (services/capital_cells/breadth.py).
 */
module Breadth {
  import opened Numeric
  import opened Products
  import opened Matrices
  import opened JacobiSolver
  import Jacobi
  import Partition
  import UnionFind

  /** One regime's measured correlations, keyed by unordered pair. */
  datatype Regime = Regime(pairwise: map<set<string>, real>, sampleCount: nat) {
    function Get(a: string, b: string): real {
      if a == b then 1.0
      else if {a, b} in pairwise then pairwise[{a, b}]
      else 0.0
    }

    predicate Has(a: string, b: string) {
      a == b || {a, b} in pairwise
    }

    /** Every measured correlation lies in [-1, 1]. */
    ghost predicate Proper() {
      forall pair :: pair in pairwise ==> Abs(pairwise[pair]) <= 1.0
    }
  }

  datatype Estimate = Estimate(value: real, confidence: real, sampleSize: nat)
  datatype Measured = Measured(estimate: Estimate) | InsufficientData

  const MAX_ROTATIONS: nat := 200
  const TOLERANCE: real := 0.0000000001
  const FLOOR: real := 0.000000000001

  /** Every pair among the items has been measured. */
  ghost predicate AllMeasured(items: seq<string>, regime: Regime) {
    forall i, j :: 0 <= i < j < |items| ==> regime.Has(items[i], items[j])
  }

  method RequireMeasuredPairs(items: seq<string>, regime: Regime) returns (ok: bool)
    ensures ok <==> AllMeasured(items, regime)
  {
    for i := 0 to |items|
      invariant forall k, l :: 0 <= k < i && k < l < |items| ==> regime.Has(items[k], items[l])
    {
      for j := i + 1 to |items|
        invariant forall l :: i < l < j ==> regime.Has(items[i], items[l])
      {
        if !regime.Has(items[i], items[j]) {
          return false;
        }
      }
    }
    ok := true;
  }

  function Confidence(regime: Regime, minSampleSize: nat): real
    requires minSampleSize > 0
  {
    Min(1.0, regime.sampleCount as real / minSampleSize as real)
  }

  /** Confidence is the measured part of the sample asked for, and full exactly from there on. */
  lemma ConfidenceIs(regime: Regime, minSampleSize: nat)
    requires minSampleSize > 0
    ensures var c, n, least := Confidence(regime, minSampleSize), regime.sampleCount as real, minSampleSize as real;
            0.0 <= c <= 1.0 && (c == 1.0 <==> n >= least) && (n < least ==> Mul(c, least) == n)
  {
    DivideMul(regime.sampleCount as real, minSampleSize as real);
    var ratio := regime.sampleCount as real / minSampleSize as real;
    if ratio < 1.0 {
      MulPositive(1.0 - ratio, minSampleSize as real);
    } else {
      MulLe(1.0, ratio, minSampleSize as real);
    }
  }

  function CorrelationMatrix(items: seq<string>, regime: Regime): (m: Matrix)
    ensures |m| == |items| && Square(m)
  {
    seq(|items|, i requires 0 <= i < |items| =>
      seq(|items|, j requires 0 <= j < |items| => regime.Get(items[i], items[j])))
  }

  lemma CorrelationShape(items: seq<string>, regime: Regime)
    requires regime.Proper()
    ensures var m := CorrelationMatrix(items, regime);
            && Symmetric(m)
            && (forall i :: 0 <= i < |m| ==> At(m, i, i) == 1.0)
            && (forall i, j :: 0 <= i < |m| && 0 <= j < |m| ==> Abs(At(m, i, j)) <= 1.0)
  {
    var m := CorrelationMatrix(items, regime);
    forall i, j | 0 <= i < |m| && 0 <= j < |m|
      ensures At(m, i, j) == At(m, j, i) && Abs(At(m, i, j)) <= 1.0
    {
      assert {items[i], items[j]} == {items[j], items[i]};
    }
  }

  // ----- the participation ratio stays in range on its own -----

  lemma TraceOfUnitDiagonal(m: Matrix)
    requires forall i :: 0 <= i < |m| ==> At(m, i, i) == 1.0
    ensures Trace(m) == |m| as real
  {
    SumToOnes(|m|, DiagonalAt(m));
  }

  lemma {:induction false} SumToOnes(n: nat, f: int -> real)
    requires forall i :: 0 <= i < n ==> f(i) == 1.0
    ensures SumTo(n, f) == n as real
  {
    if n > 0 { SumToOnes(n - 1, f); }
  }

  /** With entries in [-1, 1] the sum of squares is at most n^2. */
  lemma SumOfSquaresAtMost(m: Matrix)
    requires forall i, j :: 0 <= i < |m| && 0 <= j < |m| ==> Abs(At(m, i, j)) <= 1.0
    ensures SumOfSquares(m) <= Mul(|m| as real, |m| as real)
  {
    forall i | 0 <= i < |m|
      ensures Abs(RowSquares(m)(i)) <= |m| as real
    {
      forall j | 0 <= j < |m|
        ensures Abs(SquareAt(m, i)(j)) <= 1.0
      {
        MulBounded(At(m, i, j), At(m, i, j), 1.0, 1.0);
      }
      SumToSize(|m|, SquareAt(m, i), 1.0);
    }
    SumToSize(|m|, RowSquares(m), |m| as real);
  }

  ghost function SquaredValues(values: seq<real>): real {
    SumTo(|values|, i => Mul(Coord(values, i), Coord(values, i)))
  }

  /**
   For a correlation matrix the squares of the returned values sum to between n and
   n^2, and fall short of the sum of squared correlations by the mass left off the
   diagonal, which the run has shrunk geometrically.
   */
  lemma ValuesOfCorrelationMatrix(m: Matrix, values: seq<real>, trail: seq<Matrix>, turns: seq<Turn>)
    requires |m| >= 2
    requires forall i :: 0 <= i < |m| ==> At(m, i, i) == 1.0
    requires forall i, j :: 0 <= i < |m| && 0 <= j < |m| ==> Abs(At(m, i, j)) <= 1.0
    requires Run(trail, turns) && trail[0] == m
    requires |values| == |m| && forall i :: 0 <= i < |values| ==> values[i] == At(trail[|turns|], i, i)
    ensures |m| as real <= SquaredValues(values) <= SumOfSquares(m) <= Mul(|m| as real, |m| as real)
    ensures SumOfSquares(m) - SquaredValues(values) <= Mul(Power(Shrink(|m|), |turns|), OffMass(m))
    ensures OffBounded(trail[|turns|], TOLERANCE) ==>
              SumOfSquares(m) - SquaredValues(values) <= Mul(|m| as real, Mul((|m| - 1) as real, Mul(TOLERANCE, TOLERANCE)))
  {
    var b, n := trail[|turns|], |m| as real;
    RunKeeps(trail, turns, 0.0);
    SplitSquares(b);
    SumToEq(|m|, i => Mul(Coord(values, i), Coord(values, i)), DiagonalSquareAt(b));
    SumOfSquaresAtMost(m);
    RunConverges(trail, turns);
    // n^2 = (sum of values)^2 <= n * (sum of squared values)
    TraceOfUnitDiagonal(m);
    SquareOfSum(|m|, DiagonalAt(b), DiagonalSquareAt(b));
    MulComm(n, DiagonalSquares(b));
    CancelLe(n, DiagonalSquares(b), n);
    if OffBounded(b, TOLERANCE) {
      OffMassBound(b, TOLERANCE);
    }
  }

  lemma RatioInRange(n: real, squares: real)
    requires n >= 1.0 && n <= squares <= Mul(n, n)
    ensures 1.0 <= Mul(n, n) / squares <= n
  {
    var ratio := Mul(n, n) / squares;
    DivideMul(Mul(n, n), squares);
    CancelLe(1.0, ratio, squares);
    MulLe(n, squares, n);
    CancelLe(ratio, n, squares);
  }

  method SumSquares(values: seq<real>) returns (sum: real)
    ensures sum == SquaredValues(values)
  {
    sum := 0.0;
    for i := 0 to |values|
      invariant sum == SumTo(i, k => Mul(Coord(values, k), Coord(values, k)))
    {
      sum := sum + Mul(values[i], values[i]);
      SumToEq(i, k => Mul(Coord(values, k), Coord(values, k)), k => Mul(Coord(values, k), Coord(values, k)));
    }
  }

  /**
   The participation ratio n^2 / sum of squared eigenvalues. For measured
   correlations in [-1, 1] neither the floor nor the clamp to [1, n] ever acts.
   */
  method EigenvalueEffectiveRank(items: seq<string>, regime: Regime, minSampleSize: nat, sqrt: real -> real)
    returns (r: Measured, ghost squares: real)
    requires minSampleSize > 0 && Jacobi.SquareRoot(sqrt) && regime.Proper()
    ensures r.InsufficientData? <==> |items| == 0 || (|items| >= 2 && !AllMeasured(items, regime))
    ensures |items| == 1 ==> r == Measured(Estimate(1.0, 1.0, 0))
    ensures r.Measured? && |items| >= 2 ==>
              && var n, m := |items| as real, CorrelationMatrix(items, regime);
              && n <= squares <= SumOfSquares(m) <= Mul(n, n)
              && r.estimate.value == Mul(n, n) / squares
              && 1.0 <= r.estimate.value <= n
              && (|| SumOfSquares(m) - squares <= Mul(n, Mul(n - 1.0, Mul(TOLERANCE, TOLERANCE)))
                  || SumOfSquares(m) - squares <= Mul(Power(Shrink(|items|), MAX_ROTATIONS), OffMass(m)))
              && r.estimate.confidence == Confidence(regime, minSampleSize) && r.estimate.sampleSize == regime.sampleCount
  {
    squares := 0.0;
    if |items| == 0 {
      return InsufficientData, squares;
    }
    if |items| == 1 {
      return Measured(Estimate(1.0, 1.0, 0)), squares;
    }
    var measured := RequireMeasuredPairs(items, regime);
    if !measured {
      return InsufficientData, squares;
    }
    var matrix := CorrelationMatrix(items, regime);
    CorrelationShape(items, regime);
    var values, trail, turns := SymmetricEigenvalues(matrix, MAX_ROTATIONS, TOLERANCE, sqrt);
    ValuesOfCorrelationMatrix(matrix, values, trail, turns);
    var sumSq := SumSquares(values);
    squares := sumSq;
    var n := |items| as real;
    var effective := if sumSq > FLOOR then Mul(n, n) / sumSq else 1.0;
    RatioInRange(n, sumSq);
    effective := Max(1.0, Min(n, effective));
    r := Measured(Estimate(effective, Confidence(regime, minSampleSize), regime.sampleCount));
  }

  /** |correlation|, the similarity the cluster count works with. */
  function AbsCorrelation(regime: Regime): (string, string) -> real {
    (a, b) => Abs(regime.Get(a, b))
  }

  /** The number of clusters of items joined by |correlation| >= threshold. */
  method CorrelationClusterCount(
    items: seq<string>, regime: Regime, threshold: real, minSampleSize: nat) returns (r: Measured)
    requires minSampleSize > 0
    ensures r.InsufficientData? <==> |items| == 0 || (|items| >= 2 && !AllMeasured(items, regime))
    ensures |items| == 1 ==> r == Measured(Estimate(1.0, 1.0, 0))
    ensures r.Measured? && |items| >= 2 ==>
              r.estimate == Estimate(|Partition.Classes(Partition.Similar(items, AbsCorrelation(regime), threshold), items)| as real,
                                     Confidence(regime, minSampleSize), regime.sampleCount)
  {
    if |items| == 0 {
      return InsufficientData;
    }
    if |items| == 1 {
      return Measured(Estimate(1.0, 1.0, 0));
    }
    var measured := RequireMeasuredPairs(items, regime);
    if !measured {
      return InsufficientData;
    }
    var count := UnionFind.ConnectedComponentCount(items, AbsCorrelation(regime), threshold);
    r := Measured(Estimate(count as real, Confidence(regime, minSampleSize), regime.sampleCount));
  }

  /** The cluster count reported for a set of items does not depend on how they are listed. */
  lemma ClusterCountIgnoresOrder(a: seq<string>, b: seq<string>, regime: Regime, threshold: real)
    requires multiset(a) == multiset(b)
    ensures |Partition.Classes(Partition.Similar(a, AbsCorrelation(regime), threshold), a)|
         == |Partition.Classes(Partition.Similar(b, AbsCorrelation(regime), threshold), b)|
  {
    forall x, y
      ensures AbsCorrelation(regime)(x, y) == AbsCorrelation(regime)(y, x)
    {
      assert {x, y} == {y, x};
    }
    Partition.CountIgnoresOrder(a, b, AbsCorrelation(regime), threshold);
  }
}
