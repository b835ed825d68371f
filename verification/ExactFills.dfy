/**
 When an allocation carries a broker fill exactly (services/capital_cells/fill_allocation.py):
 every leg trades the filled order's symbol and side at its price, and the legs' shares
 and fees sum to the fill's.
 */
module ExactFills {
  import opened Numeric
  import opened Products
  import opened Sums
  import opened Intents
  import opened CellLedgers
  import opened Batches
  import opened FillAllocation
  import opened FillPosting

  /** One broker fill of one order. */
  datatype BrokerFill = BrokerFill(symbol: string, side: Side, qty: real, price: real, fees: real) {
    function SignedQty(): real {
      if side == BUY then qty else -qty
    }

    /** A positive whole-unit quantity, no negative price or fee, and no sale that earns less than its fee. */
    ghost predicate Proper() {
      && qty > 0.0 && Whole(qty) && price >= 0.0 && fees >= 0.0
      && (side == SELL ==> fees <= Notional(qty, price))
    }
  }

  ghost predicate ShapedLike(a: Allocation, f: BrokerFill)
    requires f.qty != 0.0
  {
    && a.symbol == f.symbol && a.side == f.side && a.price == f.price
    && a.qty > 0.0 && Whole(a.qty) && a.fees == Proportion(a.qty, f.qty, f.fees)
  }

  ghost predicate CarriesExactly(legs: seq<Allocation>, f: BrokerFill) {
    && f.Proper()
    && (forall a :: a in legs ==> ShapedLike(a, f))
    && SumBy(legs, AllocatedQty()) == f.qty
  }

  /** The leg an intent gets, when it gets one, has the order's shape. */
  lemma PieceShape(i: Intent, qty: real, f: BrokerFill, a: Allocation)
    requires f.Proper() && Whole(qty) && i.symbol == f.symbol && i.side == f.side
    requires a in Piece(i, qty, f.qty, f.price, f.fees)
    ensures ShapedLike(a, f)
  {
  }

  lemma {:induction false} RoundedSharesWhole(s: seq<Intent>, total: real, fill: real)
    requires total != 0.0
    ensures Whole(SumBy(s, RoundedShare(total, fill)))
  {
    if s != [] {
      RoundedSharesWhole(s[..|s| - 1], total, fill);
      RoundError(Proportion(s[|s| - 1].qty, total, fill));
      WholeSum(SumBy(s[..|s| - 1], RoundedShare(total, fill)), RoundedShare(total, fill)(s[|s| - 1]));
    }
  }

  lemma SharesWhole(ordered: seq<Intent>, total: real, fill: real, k: nat)
    requires total != 0.0 && Whole(fill) && k < |ordered|
    ensures Whole(ShareAt(ordered, total, fill, k))
  {
    if k == |ordered| - 1 {
      RoundedSharesWhole(ordered[..k], total, fill);
      WholeSum(fill, SumBy(ordered[..k], RoundedShare(total, fill)));
    } else {
      RoundError(Proportion(ordered[k].qty, total, fill));
    }
  }

  lemma {:induction false} PiecesShape(ordered: seq<Intent>, total: real, f: BrokerFill, k: nat, a: Allocation)
    requires f.Proper() && total != 0.0 && k <= |ordered|
    requires forall i :: i in ordered ==> i.symbol == f.symbol && i.side == f.side
    requires a in Pieces(ordered, total, f.qty, f.price, f.fees, k)
    ensures ShapedLike(a, f)
  {
    var i, qty := ordered[k - 1], ShareAt(ordered, total, f.qty, k - 1);
    assert i in ordered;
    if a in Piece(i, qty, f.qty, f.price, f.fees) {
      SharesWhole(ordered, total, f.qty, k - 1);
      PieceShape(i, qty, f, a);
    } else {
      PiecesShape(ordered, total, f, k - 1, a);
    }
  }

  /**
   What the allocation engine produces for a whole-unit fill of one order carries that
   fill exactly if and only if the last intent's remainder is above dust or exactly 0.
   */
  lemma AllocationCarriesExactlyIff(
    residual: seq<Intent>, ordered: seq<Intent>, total: real, f: BrokerFill, legs: seq<Allocation>)
    requires ValidIntents(residual) && residual != [] && f.Proper()
    requires forall i :: i in residual ==> i.symbol == f.symbol && i.side == f.side
    requires ordered == SortById(residual) && total == SumBy(residual, QtyOf())
    requires AllocationOf(residual, f.qty, f.price, f.fees) == Allocated(legs)
    ensures ordered != [] && total != 0.0
    ensures CarriesExactly(legs, f) <==>
              Remainder(ordered, total, f.qty) > EPS || Remainder(ordered, total, f.qty) == 0.0
  {
    ExactIff(residual, ordered, total, f.qty, f.price, f.fees, legs);
    SortedDemand(residual, f.qty);
    AllocatesPieces(residual, ordered, total, f.qty, f.price, f.fees, legs);
    forall i | i in ordered
      ensures i.symbol == f.symbol && i.side == f.side
    {
      SortMembers(residual, i);
    }
    forall a | a in legs
      ensures ShapedLike(a, f)
    {
      PiecesShape(ordered, total, f, |ordered|, a);
    }
  }

  // ----- what an exact allocation posts -----

  /** A share of the fee never exceeds the share of the proceeds. */
  lemma FeeWithinProceeds(f: BrokerFill, a: Allocation)
    requires f.Proper() && ShapedLike(a, f)
    ensures a.fees >= 0.0 && (a.side == SELL ==> a.fees <= Notional(a.qty, a.price))
  {
    var ratio := a.qty / f.qty;
    ProportionPositive(a.qty, f.qty, 1.0);
    ProportionPositive(a.qty, f.qty, f.fees);
    assert ratio == Proportion(a.qty, f.qty, 1.0);
    if f.side == SELL {
      MulLe(f.fees, Mul(f.qty, f.price), ratio);
      MulAssoc(ratio, f.qty, f.price);
      DivideMul(a.qty, f.qty);
    }
  }

  lemma ExactFeesCovered(legs: seq<Allocation>, f: BrokerFill)
    requires CarriesExactly(legs, f)
    ensures FeesCovered(legs) && WholeAllocations(legs)
  {
    forall a | a in legs
      ensures a.fees >= 0.0 && (a.side == SELL ==> a.fees <= Notional(a.qty, a.price))
    {
      FeeWithinProceeds(f, a);
    }
  }

  ghost predicate AllShaped(legs: seq<Allocation>, f: BrokerFill)
    requires f.qty != 0.0
  {
    forall a :: a in legs ==> ShapedLike(a, f)
  }

  /** Legs of the fill's shape that trade `qty` shares move as much, at the fill's price and fees. */
  ghost predicate Moves(legs: seq<Allocation>, f: BrokerFill, symbol: string, qty: real)
    requires f.qty != 0.0
  {
    var moved := if f.side == BUY then qty else -qty;
    && SumBy(legs, AllocatedQty()) == qty
    && SumBy(legs, SignedQty(symbol)) == (if symbol == f.symbol then moved else 0.0)
    && SumBy(legs, SignedCash()) == -Notional(moved, f.price) - Proportion(qty, f.qty, f.fees)
  }

  lemma OneMoreMoves(before: seq<Allocation>, a: Allocation, f: BrokerFill, symbol: string, qty: real)
    requires f.qty != 0.0 && Moves(before, f, symbol, qty) && ShapedLike(a, f)
    ensures Moves(before + [a], f, symbol, qty + a.qty)
  {
    hide Proportion;
    SumSnoc(before, a, AllocatedQty());
    SumSnoc(before, a, SignedQty(symbol));
    SumSnoc(before, a, SignedCash());
    ProportionLaws(qty, a.qty, f.qty, f.fees);
    if f.side == BUY { NotionalLaws(qty, a.qty, f.price); } else { NotionalLaws(-qty, -a.qty, f.price); }
  }

  lemma {:induction false} ShapedTotals(legs: seq<Allocation>, f: BrokerFill, symbol: string)
    requires f.qty != 0.0 && AllShaped(legs, f)
    ensures Moves(legs, f, symbol, SumBy(legs, AllocatedQty()))
  {
    hide ShapedLike, Moves;
    if legs == [] {
      NoneMoves(f, symbol);
    } else {
      var n := |legs| - 1;
      assert legs[n] in legs && legs == legs[..n] + [legs[n]];
      ShapedTotals(legs[..n], f, symbol);
      OneMoreMoves(legs[..n], legs[n], f, symbol, SumBy(legs[..n], AllocatedQty()));
    }
  }

  lemma NoneMoves(f: BrokerFill, symbol: string)
    requires f.qty != 0.0
    ensures Moves([], f, symbol, 0.0)
  {
    ProportionLaws(0.0, 0.0, f.qty, f.fees);
  }

  /** The posted legs of an exact allocation move the fill's shares and the fill's cash, in total. */
  lemma ExactTotals(legs: seq<Allocation>, f: BrokerFill, symbol: string)
    requires CarriesExactly(legs, f)
    ensures SumBy(PostingOrder(legs), SharesMoved(symbol)) == if symbol == f.symbol then f.SignedQty() else 0.0
    ensures SumBy(PostingOrder(legs), CashMoved()) == -Notional(f.SignedQty(), f.price) - f.fees
    ensures WholeLegs(PostingOrder(legs))
  {
    ShapedTotals(legs, f, symbol);
    PostingTotals(legs, symbol);
    WholeFillLegs(legs);
    ProportionInjective(f.qty, f.qty, f.fees);
  }
}
