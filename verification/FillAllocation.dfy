/**
 Pro-rata allocation of one broker fill to the cells it is owed to
 (services/capital_cells/fill_allocation.py).
 */
module FillAllocation {
  import opened Numeric
  import opened Products
  import opened Sums
  import opened Intents
  import opened CellLedgers
  import opened Batches
  import opened Posting

  datatype Allocation = Allocation(cell: string, symbol: string, side: Side, qty: real, price: real, fees: real)

  datatype AllocationResult = Allocated(legs: seq<Allocation>) | MixedOrder | ExceedsDemand

  /** A share of `whole` proportional to `part` in `total`. */
  function Proportion(part: real, total: real, whole: real): real
    requires total != 0.0
  {
    Mul(part / total, whole)
  }

  /** The exact pro-rata share of an intent. */
  ghost function ExactShare(total: real, fill: real): Intent -> real
    requires total != 0.0
  {
    (i: Intent) => Proportion(i.qty, total, fill)
  }

  /** The share as allocated to every intent but the last. */
  ghost function RoundedShare(total: real, fill: real): Intent -> real
    requires total != 0.0
  {
    (i: Intent) => Round6(Proportion(i.qty, total, fill))
  }

  /** What the last intent gets: whatever the rounded shares leave of the fill. */
  ghost function Remainder(ordered: seq<Intent>, total: real, fill: real): real
    requires total != 0.0 && ordered != []
  {
    fill - SumBy(ordered[..|ordered| - 1], RoundedShare(total, fill))
  }

  ghost function ShareAt(ordered: seq<Intent>, total: real, fill: real, k: nat): real
    requires total != 0.0 && k < |ordered|
  {
    if k == |ordered| - 1 then Remainder(ordered, total, fill) else RoundedShare(total, fill)(ordered[k])
  }

  /** A share of no more than dust is skipped. */
  function Piece(i: Intent, qty: real, fill: real, price: real, fees: real): seq<Allocation>
    requires fill != 0.0
  {
    if qty <= EPS then [] else [Allocation(i.cell, i.symbol, i.side, qty, price, Proportion(qty, fill, fees))]
  }

  ghost function Pieces(ordered: seq<Intent>, total: real, fill: real, price: real, fees: real, k: nat): seq<Allocation>
    requires total != 0.0 && fill != 0.0 && k <= |ordered|
  {
    if k == 0 then []
    else Pieces(ordered, total, fill, price, fees, k - 1) + Piece(ordered[k - 1], ShareAt(ordered, total, fill, k - 1), fill, price, fees)
  }

  predicate OneOrder(intents: seq<Intent>) {
    forall i :: 0 <= i < |intents| ==> intents[i].symbol == intents[0].symbol && intents[i].side == intents[0].side
  }

  ghost function AllocationOf(residual: seq<Intent>, fill: real, price: real, fees: real): AllocationResult {
    var total := SumBy(residual, QtyOf());
    var ordered := SortById(residual);
    if residual == [] || fill <= 0.0 then Allocated([])
    else if !OneOrder(residual) then MixedOrder
    else if total <= 0.0 then Allocated([])
    else if fill > total + MICRO then ExceedsDemand
    else Allocated(Pieces(ordered, total, fill, price, fees, |ordered|))
  }

  // ----- the loop -----

  method TotalRequested(intents: seq<Intent>) returns (total: real)
    ensures total == SumBy(intents, QtyOf())
  {
    total := 0.0;
    for i := 0 to |intents|
      invariant total == SumBy(intents[..i], QtyOf())
    {
      SumPrefix(intents, i, QtyOf());
      total := total + intents[i].qty;
    }
    assert intents[..|intents|] == intents;
  }

  method Allocate(residual: seq<Intent>, fill: real, price: real, fees: real) returns (r: AllocationResult)
    ensures r == AllocationOf(residual, fill, price, fees)
  {
    hide Round6, Proportion;
    if residual == [] || fill <= 0.0 {
      return Allocated([]);
    }
    if !OneOrder(residual) {
      return MixedOrder;
    }
    var total := TotalRequested(residual);
    if total <= 0.0 {
      return Allocated([]);
    }
    if fill > total + MICRO {
      return ExceedsDemand;
    }
    var ordered := SortById(residual);
    var allocations: seq<Allocation> := [];
    var allocatedQty := 0.0;
    for idx := 0 to |ordered|
      invariant allocations == Pieces(ordered, total, fill, price, fees, idx)
      invariant idx < |ordered| ==> allocatedQty == SumBy(ordered[..idx], RoundedShare(total, fill))
    {
      var qty;
      if idx == |ordered| - 1 {
        qty := fill - allocatedQty;
      } else {
        qty := Round6(Proportion(ordered[idx].qty, total, fill));
        SumPrefix(ordered, idx, RoundedShare(total, fill));
        allocatedQty := allocatedQty + qty;
      }
      if qty > EPS {
        allocations := allocations + [Allocation(ordered[idx].cell, ordered[idx].symbol, ordered[idx].side, qty, price,
                                                 Proportion(qty, fill, fees))];
      } else {
        assert allocations + [] == allocations;
      }
    }
    r := Allocated(allocations);
  }

  // ----- proportions -----

  lemma ProportionLaws(a: real, b: real, total: real, whole: real)
    requires total != 0.0
    ensures Proportion(a + b, total, whole) == Proportion(a, total, whole) + Proportion(b, total, whole)
    ensures Proportion(0.0, total, whole) == 0.0
    ensures Proportion(total, total, whole) == whole
  {
    QuotientAdds(a, b, total);
    AddMul(a / total, b / total, whole);
  }

  lemma QuotientAdds(a: real, b: real, total: real)
    requires total != 0.0
    ensures (a + b) / total == a / total + b / total
  {
  }

  lemma ProportionPositive(a: real, total: real, whole: real)
    requires total > 0.0 && a >= 0.0 && whole >= 0.0
    ensures Proportion(a, total, whole) >= 0.0
  {
    DivideMul(a, total);
    if a / total < 0.0 {
      AddMul(0.0, a / total, total);
      MulPositive(-(a / total), total);
    }
    MulLe(0.0, a / total, whole);
  }

  lemma {:induction false} ExactSharesSum(s: seq<Intent>, total: real, fill: real)
    requires total != 0.0
    ensures SumBy(s, ExactShare(total, fill)) == Proportion(SumBy(s, QtyOf()), total, fill)
  {
    ProportionLaws(0.0, 0.0, total, fill);
    if s != [] {
      ExactSharesSum(s[..|s| - 1], total, fill);
      ProportionLaws(SumBy(s[..|s| - 1], QtyOf()), s[|s| - 1].qty, total, fill);
    }
  }

  /** `n` times half a micro-unit. */
  function HalfMicros(n: int): real {
    0.0000005 * n as real
  }

  /** `qty` is the fill up to (n-1)/2 micro-units, or up to dust. */
  ghost predicate NearlyAll(qty: real, fill: real, n: nat) {
    Abs(qty - fill) <= Max(HalfMicros(n - 1), EPS)
  }

  /** Rounding moves the sum of `n` shares by at most half a micro-unit each. */
  lemma {:induction false} RoundedSharesNear(s: seq<Intent>, total: real, fill: real)
    requires total != 0.0
    ensures Abs(SumBy(s, RoundedShare(total, fill)) - SumBy(s, ExactShare(total, fill))) <= HalfMicros(|s|)
  {
    if s != [] {
      RoundedSharesNear(s[..|s| - 1], total, fill);
      RoundError(Proportion(s[|s| - 1].qty, total, fill));
    }
  }

  /** The last intent's remainder is within (n-1)/2 micro-units of its exact share. */
  lemma RemainderNear(ordered: seq<Intent>, total: real, fill: real)
    requires ordered != [] && total == SumBy(ordered, QtyOf()) && total != 0.0
    ensures Abs(Remainder(ordered, total, fill) - ExactShare(total, fill)(ordered[|ordered| - 1])) <= HalfMicros(|ordered| - 1)
  {
    ExactSharesSum(ordered, total, fill);
    ProportionLaws(0.0, 0.0, total, fill);
    RoundedSharesNear(ordered[..|ordered| - 1], total, fill);
  }

  // ----- what is allocated in all -----

  ghost function AllocatedQty(): Allocation -> real {
    (a: Allocation) => a.qty
  }

  ghost function AllocatedFees(): Allocation -> real {
    (a: Allocation) => a.fees
  }

  ghost predicate Allocatable(ordered: seq<Intent>, total: real, fill: real) {
    ordered != [] && ValidIntents(ordered) && total == SumBy(ordered, QtyOf()) && total > 0.0 && fill > 0.0
  }

  /** A rounded share is allocated in full: it is never within dust of 0. */
  lemma RoundedPiece(before: seq<Allocation>, i: Intent, total: real, fill: real, price: real, fees: real)
    requires total > 0.0 && fill > 0.0 && i.Valid()
    ensures var share := RoundedShare(total, fill)(i);
            SumBy(before + Piece(i, share, fill, price, fees), AllocatedQty()) == SumBy(before, AllocatedQty()) + share
  {
    ProportionPositive(i.qty, total, fill);
    RoundNonNegative(Proportion(i.qty, total, fill));
    RoundError(Proportion(i.qty, total, fill));
    WholeNoDust(RoundedShare(total, fill)(i));
    PieceQty(before, i, RoundedShare(total, fill)(i), fill, price, fees);
  }

  lemma EarlierPiece(ordered: seq<Intent>, total: real, fill: real, price: real, fees: real, k: nat)
    requires total != 0.0 && fill != 0.0 && k + 1 < |ordered|
    ensures Pieces(ordered, total, fill, price, fees, k + 1)
         == Pieces(ordered, total, fill, price, fees, k) + Piece(ordered[k], RoundedShare(total, fill)(ordered[k]), fill, price, fees)
  {
  }

  ghost predicate Allocates(legs: seq<Allocation>, qty: real) {
    SumBy(legs, AllocatedQty()) == qty
  }

  lemma {:induction false} EarlierPieces(ordered: seq<Intent>, total: real, fill: real, price: real, fees: real, k: nat)
    requires Allocatable(ordered, total, fill) && k < |ordered|
    ensures Allocates(Pieces(ordered, total, fill, price, fees, k), SumBy(ordered[..k], RoundedShare(total, fill)))
  {
    hide Round6, Proportion;
    if k > 0 {
      EarlierPieces(ordered, total, fill, price, fees, k - 1);
      assert ordered[k - 1] in ordered;
      EarlierPiece(ordered, total, fill, price, fees, k - 1);
      SumPrefix(ordered, k - 1, RoundedShare(total, fill));
      RoundedPiece(Pieces(ordered, total, fill, price, fees, k - 1), ordered[k - 1], total, fill, price, fees);
    }
  }

  lemma PieceQty(before: seq<Allocation>, i: Intent, qty: real, fill: real, price: real, fees: real)
    requires fill != 0.0
    ensures SumBy(before + Piece(i, qty, fill, price, fees), AllocatedQty())
         == SumBy(before, AllocatedQty()) + (if qty <= EPS then 0.0 else qty)
  {
    if qty <= EPS {
      assert before + [] == before;
    } else {
      SumSnoc(before, Allocation(i.cell, i.symbol, i.side, qty, price, Proportion(qty, fill, fees)), AllocatedQty());
    }
  }

  /** The total allocated: the whole fill, less the remainder when that is skipped. */
  lemma TotalAllocated(ordered: seq<Intent>, total: real, fill: real, price: real, fees: real)
    requires Allocatable(ordered, total, fill)
    ensures var rest := Remainder(ordered, total, fill);
            SumBy(Pieces(ordered, total, fill, price, fees, |ordered|), AllocatedQty()) == if rest > EPS then fill else fill - rest
  {
    var n := |ordered| - 1;
    EarlierPieces(ordered, total, fill, price, fees, n);
    PieceQty(Pieces(ordered, total, fill, price, fees, n), ordered[n], Remainder(ordered, total, fill), fill, price, fees);
  }

  ghost predicate FeesProportional(legs: seq<Allocation>, fill: real, fees: real)
    requires fill != 0.0
  {
    SumBy(legs, AllocatedFees()) == Proportion(SumBy(legs, AllocatedQty()), fill, fees)
  }

  lemma FeeOfPiece(before: seq<Allocation>, i: Intent, qty: real, fill: real, price: real, fees: real)
    requires fill != 0.0 && FeesProportional(before, fill, fees)
    ensures FeesProportional(before + Piece(i, qty, fill, price, fees), fill, fees)
  {
    if qty <= EPS {
      assert before + [] == before;
    } else {
      var a := Allocation(i.cell, i.symbol, i.side, qty, price, Proportion(qty, fill, fees));
      SumSnoc(before, a, AllocatedQty());
      SumSnoc(before, a, AllocatedFees());
      ProportionLaws(SumBy(before, AllocatedQty()), qty, fill, fees);
    }
  }

  /** Fees follow the quantities in proportion. */
  lemma {:induction false} FeesInProportion(
    ordered: seq<Intent>, total: real, fill: real, price: real, fees: real, k: nat)
    requires total != 0.0 && fill != 0.0 && k <= |ordered|
    ensures FeesProportional(Pieces(ordered, total, fill, price, fees, k), fill, fees)
  {
    if k == 0 {
      ProportionLaws(0.0, 0.0, fill, fees);
    } else {
      FeesInProportion(ordered, total, fill, price, fees, k - 1);
      FeeOfPiece(Pieces(ordered, total, fill, price, fees, k - 1), ordered[k - 1], ShareAt(ordered, total, fill, k - 1), fill, price, fees);
    }
  }

  lemma SortedDemand(residual: seq<Intent>, fill: real)
    requires ValidIntents(residual) && residual != [] && fill > 0.0
    ensures Allocatable(SortById(residual), SumBy(residual, QtyOf()), fill) && |SortById(residual)| == |residual|
  {
    var ordered := SortById(residual);
    SortKeeps(residual);
    assert |multiset(ordered)| == |multiset(residual)|;
    SumPermutation(residual, ordered, QtyOf());
    forall x | x in ordered
      ensures x.Valid()
    {
      SortMembers(residual, x);
    }
    TotalPositive(ordered);
  }

  lemma {:induction false} TotalPositive(s: seq<Intent>)
    requires ValidIntents(s)
    ensures SumBy(s, QtyOf()) >= 0.0 && (s != [] ==> SumBy(s, QtyOf()) > 0.0)
  {
    if s != [] {
      TotalPositive(s[..|s| - 1]);
      assert s[|s| - 1] in s;
    }
  }

  /**
   The engine's claim that allocated quantity and fees always sum exactly to the fill
   holds if and only if the last intent's remainder is above dust or exactly 0 (for the
   fees: or there are none). In every case the quantity is off by at most
   (n-1)/2 micro-units, or by dust.
   */
  lemma ExactIff(
    residual: seq<Intent>, ordered: seq<Intent>, total: real, fill: real, price: real, fees: real,
    legs: seq<Allocation>)
    requires ValidIntents(residual) && residual != [] && fill > 0.0
    requires ordered == SortById(residual) && total == SumBy(residual, QtyOf())
    requires AllocationOf(residual, fill, price, fees) == Allocated(legs)
    ensures ordered != [] && total != 0.0
    ensures var rest := Remainder(ordered, total, fill);
            && (SumBy(legs, AllocatedQty()) == fill <==> rest > EPS || rest == 0.0)
            && (SumBy(legs, AllocatedFees()) == fees <==> rest > EPS || rest == 0.0 || fees == 0.0)
            && NearlyAll(SumBy(legs, AllocatedQty()), fill, |ordered|)
  {
    SortedDemand(residual, fill);
    AllocatesPieces(residual, ordered, total, fill, price, fees, legs);
    PiecesExactIff(ordered, total, fill, price, fees);
  }

  lemma AllocatesPieces(
    residual: seq<Intent>, ordered: seq<Intent>, total: real, fill: real, price: real, fees: real,
    legs: seq<Allocation>)
    requires residual != [] && fill > 0.0 && Allocatable(ordered, total, fill)
    requires ordered == SortById(residual) && total == SumBy(residual, QtyOf())
    requires AllocationOf(residual, fill, price, fees) == Allocated(legs)
    ensures legs == Pieces(ordered, total, fill, price, fees, |ordered|)
  {
  }

  lemma PiecesExactIff(ordered: seq<Intent>, total: real, fill: real, price: real, fees: real)
    requires Allocatable(ordered, total, fill)
    ensures var legs, rest := Pieces(ordered, total, fill, price, fees, |ordered|), Remainder(ordered, total, fill);
            && (SumBy(legs, AllocatedQty()) == fill <==> rest > EPS || rest == 0.0)
            && (SumBy(legs, AllocatedFees()) == fees <==> rest > EPS || rest == 0.0 || fees == 0.0)
            && NearlyAll(SumBy(legs, AllocatedQty()), fill, |ordered|)
  {
    TotalAllocated(ordered, total, fill, price, fees);
    FeesInProportion(ordered, total, fill, price, fees, |ordered|);
    RemainderNear(ordered, total, fill);
    var last := ordered[|ordered| - 1];
    assert last in ordered;
    ProportionPositive(last.qty, total, fill);
    ProportionInjective(SumBy(Pieces(ordered, total, fill, price, fees, |ordered|), AllocatedQty()), fill, fees);
  }

  /** Only the whole fill carries the whole fee, unless there is no fee. */
  lemma ProportionInjective(qty: real, fill: real, fees: real)
    requires fill > 0.0
    ensures Proportion(qty, fill, fees) == fees <==> qty == fill || fees == 0.0
  {
    ProportionLaws(0.0, 0.0, fill, fees);
    var ratio := qty / fill;
    DivideMul(qty, fill);
    if Mul(ratio, fees) == fees && fees != 0.0 {
      SquarePositive(fees);
      MulAssoc(ratio, fees, fees);
      assert Mul(ratio, Mul(fees, fees)) == Mul(1.0, Mul(fees, fees));
      CancelEq(ratio, 1.0, Mul(fees, fees));
    }
  }

  /** A sufficient condition a caller can check: the last exact share is large enough. */
  lemma ExactWhenLastShareLarge(
    residual: seq<Intent>, ordered: seq<Intent>, total: real, fill: real, price: real, fees: real, legs: seq<Allocation>)
    requires ValidIntents(residual) && residual != [] && fill > 0.0
    requires ordered == SortById(residual) && total == SumBy(residual, QtyOf()) && total != 0.0 && ordered != []
    requires AllocationOf(residual, fill, price, fees) == Allocated(legs)
    requires Proportion(ordered[|ordered| - 1].qty, total, fill) > HalfMicros(|ordered| - 1) + EPS
    ensures SumBy(legs, AllocatedQty()) == fill && SumBy(legs, AllocatedFees()) == fees
  {
    SortedDemand(residual, fill);
    RemainderNear(ordered, total, fill);
    ExactIff(residual, ordered, total, fill, price, fees, legs);
  }

  // ----- a fill that is handed out more than once over -----

  function Asks(id: string, qty: real): Intent {
    Intent(id, id, "X", BUY, qty)
  }

  /** Three cells owed a share each, and one owed a single micro-share. */
  const CROWD: seq<Intent> := [Asks("a", 1.0), Asks("b", 1.0), Asks("c", 1.0), Asks("d", 0.000001)]

  lemma CrowdSorted()
    ensures SortById(CROWD) == CROWD && SumBy(CROWD, QtyOf()) == 3.000001 && OneOrder(CROWD) && ValidIntents(CROWD)
  {
    assert CROWD[1..] == [CROWD[1], CROWD[2], CROWD[3]] && CROWD[1..][1..] == [CROWD[2], CROWD[3]];
    assert CROWD[1..][1..][1..] == [CROWD[3]] && CROWD[1..][1..][1..][1..] == [];
    assert SortById(CROWD[1..][1..][1..]) == [CROWD[3]];
    assert SortById(CROWD[1..][1..]) == [CROWD[2], CROWD[3]];
    assert SortById(CROWD[1..]) == [CROWD[1], CROWD[2], CROWD[3]];
    CrowdSum(QtyOf());
  }

  lemma CrowdSum(f: Intent -> real)
    ensures SumBy(CROWD[..3], f) == f(CROWD[0]) + f(CROWD[1]) + f(CROWD[2])
    ensures SumBy(CROWD, f) == SumBy(CROWD[..3], f) + f(CROWD[3])
  {
    SumPrefix(CROWD, 0, f);
    SumPrefix(CROWD, 1, f);
    SumPrefix(CROWD, 2, f);
    SumPrefix(CROWD, 3, f);
    assert CROWD[..0] == [] && CROWD[..4] == CROWD;
  }

  lemma ThirdRoundsUp()
    ensures Round6(Proportion(1.0, 3.000001, 1.000001)) == 0.333334
  {
    var ratio := 1.0 / 3.000001;
    var share := Proportion(1.0, 3.000001, 1.000001);
    assert ratio * 3.000001 == 1.0;
    assert share == 1.000001 * ratio;
    assert 333333.5 < Micros(share) < 333334.5;
    assert Nearest(Micros(share)) == 333334;
  }

  /** A fill of 1.000001 shares is allocated as 1.000002: each third rounds up, and the negative rest is skipped. */
  lemma OverAllocation() returns (legs: seq<Allocation>)
    ensures ValidIntents(CROWD) && AllocationOf(CROWD, 1.000001, 1.0, 0.0) == Allocated(legs)
    ensures Remainder(CROWD, 3.000001, 1.000001) == -0.000001
    ensures SumBy(legs, AllocatedQty()) == 1.000002
  {
    hide Round6, Proportion, SortById;
    CrowdSorted();
    ThirdRoundsUp();
    CrowdSum(RoundedShare(3.000001, 1.000001));
    legs := Pieces(CROWD, 3.000001, 1.000001, 1.0, 0.0, 4);
    SortedDemand(CROWD, 1.000001);
    TotalAllocated(CROWD, 3.000001, 1.000001, 1.0, 0.0);
  }

  // ----- a whole-unit fill of the whole order -----

  ghost function AllocatedTo(cell: string): Allocation -> real {
    (a: Allocation) => if a.cell == cell then a.qty else 0.0
  }

  /** The allocation that gives an intent exactly what it asked for. */
  ghost function OwnPiece(i: Intent, total: real, price: real, fees: real): Allocation
    requires total != 0.0
  {
    Allocation(i.cell, i.symbol, i.side, i.qty, price, Proportion(i.qty, total, fees))
  }

  lemma FullFillStep(ordered: seq<Intent>, total: real, price: real, fees: real, k: nat)
    requires Allocatable(ordered, total, total) && WholeIntents(ordered) && 0 < k <= |ordered|
    ensures Pieces(ordered, total, total, price, fees, k)
         == Pieces(ordered, total, total, price, fees, k - 1) + [OwnPiece(ordered[k - 1], total, price, fees)]
  {
    assert ordered[k - 1] in ordered;
    FullShare(ordered, total, k - 1);
    WholeNoDust(ordered[k - 1].qty);
  }

  lemma {:induction false} FullFillPieces(
    ordered: seq<Intent>, total: real, price: real, fees: real, k: nat, cell: string)
    requires Allocatable(ordered, total, total) && WholeIntents(ordered) && k <= |ordered|
    ensures SumBy(Pieces(ordered, total, total, price, fees, k), AllocatedTo(cell)) == SumBy(ordered[..k], QtyFor(cell))
  {
    hide Piece, ShareAt, Proportion;
    if k > 0 {
      FullFillPieces(ordered, total, price, fees, k - 1, cell);
      FullFillStep(ordered, total, price, fees, k);
      SumPrefix(ordered, k - 1, QtyFor(cell));
      SumSnoc(Pieces(ordered, total, total, price, fees, k - 1), OwnPiece(ordered[k - 1], total, price, fees), AllocatedTo(cell));
    }
  }

  lemma {:induction false} FullFillMembers(
    ordered: seq<Intent>, total: real, price: real, fees: real, k: nat, a: Allocation)
    requires Allocatable(ordered, total, total) && WholeIntents(ordered) && k <= |ordered|
    requires a in Pieces(ordered, total, total, price, fees, k)
    ensures exists i :: i in ordered && a == OwnPiece(i, total, price, fees)
  {
    FullFillStep(ordered, total, price, fees, k);
    if a == OwnPiece(ordered[k - 1], total, price, fees) {
      assert ordered[k - 1] in ordered;
    } else {
      FullFillMembers(ordered, total, price, fees, k - 1, a);
    }
  }

  lemma FullShare(ordered: seq<Intent>, total: real, k: nat)
    requires Allocatable(ordered, total, total) && WholeIntents(ordered) && k < |ordered|
    ensures ShareAt(ordered, total, total, k) == ordered[k].qty
  {
    forall i | i in ordered
      ensures RoundedShare(total, total)(i) == i.qty
    {
      DivideMul(i.qty, total);
      RoundWhole(i.qty);
    }
    if k == |ordered| - 1 {
      SumEq(ordered[..k], RoundedShare(total, total), QtyOf());
    }
  }

  lemma FullFill(residual: seq<Intent>, price: real, fees: real, cell: string)
    requires ValidIntents(residual) && WholeIntents(residual) && OneOrder(residual) && residual != []
    ensures var total := SumBy(residual, QtyOf());
            && total > 0.0
            && AllocationOf(residual, total, price, fees).Allocated?
            && var legs := AllocationOf(residual, total, price, fees).legs;
            && SumBy(legs, AllocatedTo(cell)) == SumBy(residual, QtyFor(cell))
            && SumBy(legs, AllocatedQty()) == total
            && SumBy(legs, AllocatedFees()) == fees
            && (forall a :: a in legs ==> exists i :: i in residual && a == OwnPiece(i, total, price, fees))
  {
    var ordered, total := SortById(residual), SumBy(residual, QtyOf());
    TotalPositive(residual);
    SortedDemand(residual, total);
    forall x
      ensures x in ordered <==> x in residual
    {
      SortMembers(residual, x);
    }
    FullFillPieces(ordered, total, price, fees, |ordered|, cell);
    assert ordered[..|ordered|] == ordered;
    SortKeeps(residual);
    SumPermutation(residual, ordered, QtyFor(cell));
    FullShare(ordered, total, |ordered| - 1);
    assert ordered[|ordered| - 1] in ordered;
    WholeNoDust(ordered[|ordered| - 1].qty);
    PiecesExactIff(ordered, total, total, price, fees);
    forall a | a in Pieces(ordered, total, total, price, fees, |ordered|)
      ensures exists i :: i in residual && a == OwnPiece(i, total, price, fees)
    {
      FullFillMembers(ordered, total, price, fees, |ordered|, a);
    }
  }

  // ----- who is owed what -----

  /** Two of the intents name different symbols or sides. */
  ghost predicate Mixes(residual: seq<Intent>) {
    exists i, j :: 0 <= i < |residual| && 0 <= j < |residual|
                   && (residual[i].symbol != residual[j].symbol || residual[i].side != residual[j].side)
  }

  /** A fill is refused exactly when the intents mix symbols or sides, or ask for less than was filled. */
  lemma RefusedIff(residual: seq<Intent>, fill: real, price: real, fees: real)
    requires ValidIntents(residual)
    ensures AllocationOf(residual, fill, price, fees) == MixedOrder <==> fill > 0.0 && Mixes(residual)
    ensures AllocationOf(residual, fill, price, fees) == ExceedsDemand <==>
              residual != [] && fill > 0.0 && !Mixes(residual) && fill - SumBy(residual, QtyOf()) > MICRO
  {
    TotalPositive(residual);
    if OneOrder(residual) {
      assert !Mixes(residual);
    } else {
      var k :| 0 <= k < |residual| && (residual[k].symbol != residual[0].symbol || residual[k].side != residual[0].side);
      assert Mixes(residual);
    }
  }

  /**
   `leg` is what `i` is owed: in its cell, symbol and side, at the fill's price, its share of the
   demand in the fill up to half a micro-unit for each other intent, and that part of the fees.
   */
  ghost predicate Answers(leg: Allocation, i: Intent, total: real, fill: real, price: real, fees: real, n: nat)
    requires total > 0.0 && fill > 0.0
  {
    && leg.cell == i.cell && leg.symbol == i.symbol && leg.side == i.side && leg.price == price && leg.qty > EPS
    && Abs(leg.qty - Mul(i.qty / total, fill)) <= HalfMicros(n) && leg.fees == Mul(leg.qty / fill, fees)
  }

  lemma ShareNear(ordered: seq<Intent>, total: real, fill: real, k: nat)
    requires k < |ordered| && total == SumBy(ordered, QtyOf()) && total > 0.0
    ensures Abs(ShareAt(ordered, total, fill, k) - Proportion(ordered[k].qty, total, fill)) <= HalfMicros(|ordered|)
  {
    if k == |ordered| - 1 {
      RemainderNear(ordered, total, fill);
    } else {
      RoundError(Proportion(ordered[k].qty, total, fill));
    }
  }

  ghost predicate LegsAnswer(
    legs: seq<Allocation>, intents: seq<Intent>, total: real, fill: real, price: real, fees: real, n: nat)
    requires total > 0.0 && fill > 0.0
  {
    && (forall leg :: leg in legs ==> exists i :: i in intents && Answers(leg, i, total, fill, price, fees, n))
    && (forall i :: i in intents && Mul(i.qty / total, fill) > HalfMicros(n) + EPS ==>
          exists leg :: leg in legs && Answers(leg, i, total, fill, price, fees, n))
  }

  lemma PieceAnswers(i: Intent, qty: real, total: real, fill: real, price: real, fees: real, n: nat)
    requires total > 0.0 && fill > 0.0 && Abs(qty - Proportion(i.qty, total, fill)) <= HalfMicros(n)
    ensures LegsAnswer(Piece(i, qty, fill, price, fees), [i], total, fill, price, fees, n)
  {
    if qty > EPS {
      var leg := Allocation(i.cell, i.symbol, i.side, qty, price, Proportion(qty, fill, fees));
      assert Piece(i, qty, fill, price, fees) == [leg];
      assert Answers(leg, i, total, fill, price, fees, n) && i in [i] && leg in [leg];
    }
  }

  lemma AnswersAppend(a: seq<Allocation>, b: seq<Allocation>, s: seq<Intent>, t: seq<Intent>,
                      total: real, fill: real, price: real, fees: real, n: nat)
    requires total > 0.0 && fill > 0.0
    requires LegsAnswer(a, s, total, fill, price, fees, n) && LegsAnswer(b, t, total, fill, price, fees, n)
    ensures LegsAnswer(a + b, s + t, total, fill, price, fees, n)
  {
    hide Answers, HalfMicros, Mul;
  }

  lemma {:induction false} PiecesAnswer(ordered: seq<Intent>, total: real, fill: real, price: real, fees: real, k: nat)
    requires Allocatable(ordered, total, fill) && k <= |ordered|
    ensures LegsAnswer(Pieces(ordered, total, fill, price, fees, k), ordered[..k], total, fill, price, fees, |ordered|)
  {
    hide LegsAnswer, Piece, ShareAt;
    if k == 0 {
      assert LegsAnswer([], [], total, fill, price, fees, |ordered|) by {
        NobodyAnswers(total, fill, price, fees, |ordered|);
      }
    } else {
      PiecesAnswer(ordered, total, fill, price, fees, k - 1);
      ShareNear(ordered, total, fill, k - 1);
      PieceAnswers(ordered[k - 1], ShareAt(ordered, total, fill, k - 1), total, fill, price, fees, |ordered|);
      AnswersAppend(Pieces(ordered, total, fill, price, fees, k - 1),
                    Piece(ordered[k - 1], ShareAt(ordered, total, fill, k - 1), fill, price, fees),
                    ordered[..k - 1], [ordered[k - 1]], total, fill, price, fees, |ordered|);
      assert ordered[..k] == ordered[..k - 1] + [ordered[k - 1]];
    }
  }

  lemma NobodyAnswers(total: real, fill: real, price: real, fees: real, n: nat)
    requires total > 0.0 && fill > 0.0
    ensures LegsAnswer([], [], total, fill, price, fees, n)
  {
  }

  /** Every leg answers one of the intents, and every intent owed more than rounding gets a leg. */
  lemma EachGetsItsShare(residual: seq<Intent>, fill: real, price: real, fees: real, legs: seq<Allocation>)
    requires ValidIntents(residual) && residual != [] && fill > 0.0
    requires AllocationOf(residual, fill, price, fees) == Allocated(legs)
    ensures var total := SumBy(residual, QtyOf());
            total > 0.0 && LegsAnswer(legs, residual, total, fill, price, fees, |residual|)
  {
    hide LegsAnswer;
    var ordered, total := SortById(residual), SumBy(residual, QtyOf());
    SortedDemand(residual, fill);
    AllocatesPieces(residual, ordered, total, fill, price, fees, legs);
    PiecesAnswer(ordered, total, fill, price, fees, |ordered|);
    assert ordered[..|ordered|] == ordered;
    SameIntentsAnswer(legs, ordered, residual, total, fill, price, fees, |residual|);
  }

  lemma SameIntentsAnswer(legs: seq<Allocation>, ordered: seq<Intent>, residual: seq<Intent>,
                          total: real, fill: real, price: real, fees: real, n: nat)
    requires total > 0.0 && fill > 0.0 && ordered == SortById(residual)
    requires LegsAnswer(legs, ordered, total, fill, price, fees, n)
    ensures LegsAnswer(legs, residual, total, fill, price, fees, n)
  {
    hide Answers, HalfMicros, Mul, SortById;
    forall i
      ensures i in ordered <==> i in residual
    {
      SortMembers(residual, i);
    }
  }
}
