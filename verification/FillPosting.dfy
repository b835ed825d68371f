/** Posting an allocated broker fill to the cells (services/capital_cells/fill_allocation.py). */
module FillPosting {
  import opened Numeric
  import opened Sums
  import opened Intents
  import opened CellLedgers
  import opened Batches
  import opened Posting
  import opened FillAllocation

  function FillLeg(a: Allocation): Leg {
    Leg(BROKER_FILL, a.cell, a.symbol, if a.side == BUY then a.qty else -a.qty, a.price, a.fees)
  }

  /** The legs of one side, in order. */
  function FillLegs(allocations: seq<Allocation>, side: Side): seq<Leg> {
    if allocations == [] then []
    else
      var n := |allocations| - 1;
      FillLegs(allocations[..n], side) + (if allocations[n].side == side then [FillLeg(allocations[n])] else [])
  }

  /** Sales first, then purchases. */
  function PostingOrder(allocations: seq<Allocation>): seq<Leg> {
    FillLegs(allocations, SELL) + FillLegs(allocations, BUY)
  }

  lemma {:induction false} FillLegMembers(allocations: seq<Allocation>, side: Side, l: Leg)
    requires l in FillLegs(allocations, side)
    ensures exists a :: a in allocations && a.side == side && l == FillLeg(a)
  {
    var n := |allocations| - 1;
    if l in FillLegs(allocations[..n], side) {
      FillLegMembers(allocations[..n], side, l);
    } else {
      assert allocations[n] in allocations;
    }
  }

  /** Nothing is sold for less than its fee. */
  ghost predicate FeesCovered(allocations: seq<Allocation>) {
    forall a :: a in allocations ==>
      && a.qty > 0.0 && a.price >= 0.0 && a.fees >= 0.0
      && (a.side == SELL ==> a.fees <= Notional(a.qty, a.price))
  }

  lemma AllocationsAreProper(book: Book, allocations: seq<Allocation>)
    requires SoundBook(book) && FeesCovered(allocations) && Addressed(PostingOrder(allocations), book)
    ensures ProperBatch(book, FillLegs(allocations, SELL), FillLegs(allocations, BUY))
  {
    var sales, purchases := FillLegs(allocations, SELL), FillLegs(allocations, BUY);
    forall l | l in sales
      ensures l in sales + purchases && ProperSale(l)
    {
      FillLegMembers(allocations, SELL, l);
      var a :| a in allocations && a.side == SELL && l == FillLeg(a);
      NotionalLaws(a.qty, 0.0, a.price);
    }
    forall l | l in purchases
      ensures l in sales + purchases && ProperPurchase(l)
    {
      FillLegMembers(allocations, BUY, l);
      var a :| a in allocations && a.side == BUY && l == FillLeg(a);
      NotionalLaws(a.qty, 0.0, a.price);
    }
  }

  ghost predicate WholeAllocations(allocations: seq<Allocation>) {
    forall a :: a in allocations ==> Whole(a.qty)
  }

  lemma WholeSideLegs(allocations: seq<Allocation>, side: Side)
    requires WholeAllocations(allocations)
    ensures WholeLegs(FillLegs(allocations, side))
  {
    forall l | l in FillLegs(allocations, side)
      ensures Whole(l.qty)
    {
      FillLegMembers(allocations, side, l);
      var a :| a in allocations && a.side == side && l == FillLeg(a);
      WholeSum(0.0, a.qty);
    }
  }

  lemma WholeFillLegs(allocations: seq<Allocation>)
    requires WholeAllocations(allocations)
    ensures WholeLegs(FillLegs(allocations, SELL)) && WholeLegs(PostingOrder(allocations))
  {
    WholeSideLegs(allocations, SELL);
    WholeSideLegs(allocations, BUY);
  }

  method SideLegs(allocations: seq<Allocation>, side: Side) returns (legs: seq<Leg>)
    ensures legs == FillLegs(allocations, side)
  {
    legs := [];
    for i := 0 to |allocations|
      invariant legs == FillLegs(allocations[..i], side)
    {
      assert allocations[..i + 1][..i] == allocations[..i];
      if allocations[i].side == side {
        legs := legs + [FillLeg(allocations[i])];
      } else {
        assert legs + [] == legs;
      }
    }
    assert allocations[..|allocations|] == allocations;
  }

  /**
   Posts a fill to every cell or, if the check fails, to none. In whole units, with
   every sale worth at least its fee, a batch that passes the check cannot be interrupted.
   */
  method ApplyAllocationsToCells(cells: Cells, allocations: seq<Allocation>) returns (r: BatchResult)
    requires Distinct(cells) && SoundBook(BookOf(cells))
    modifies cells.Values
    ensures r.NotApplied? ==> BookOf(cells) == old(BookOf(cells))
    ensures !r.NotApplied? ==>
              && Addressed(PostingOrder(allocations), old(BookOf(cells)))
              && ApplyLegs(old(BookOf(cells)), PostingOrder(allocations))
                 == Applied(BookOf(cells), if r.Interrupted? then Stopped(r.error) else NoRefusal)
    ensures old(WholeBook(BookOf(cells))) && WholeAllocations(allocations) && FeesCovered(allocations) ==> !r.Interrupted?
  {
    var sales := SideLegs(allocations, SELL);
    var purchases := SideLegs(allocations, BUY);
    ghost var book := BookOf(cells);
    forall l: Leg | l in sales + purchases
      ensures l.kind == BROKER_FILL
    {
      if l in sales { FillLegMembers(allocations, SELL, l); } else { FillLegMembers(allocations, BUY, l); }
    }
    r := ApplyBatch(cells, sales, purchases);
    if !r.NotApplied? && WholeBook(book) && WholeAllocations(allocations) && FeesCovered(allocations) {
      AllocationsAreProper(book, allocations);
      WholeFillLegs(allocations);
      WholeBatchPostsIffValidated(book, sales, purchases);
    }
  }

  // ----- what the posted legs add up to -----

  /** Sums over the posted legs are sums over the allocations: posting only reorders them by side. */
  lemma {:induction false} PostingSum(allocations: seq<Allocation>, f: Leg -> real, g: Allocation -> real)
    requires forall a: Allocation :: f(FillLeg(a)) == g(a)
    ensures SumBy(PostingOrder(allocations), f) == SumBy(allocations, g)
  {
    hide FillLeg;
    SumAppend(FillLegs(allocations, SELL), FillLegs(allocations, BUY), f);
    if allocations != [] {
      var n := |allocations| - 1;
      var init, a := allocations[..n], allocations[n];
      PostingSum(init, f, g);
      SumAppend(FillLegs(init, SELL), FillLegs(init, BUY), f);
      SumSnoc(FillLegs(init, a.side), FillLeg(a), f);
      assert FillLegs(init, BUY) + [] == FillLegs(init, BUY) && FillLegs(init, SELL) + [] == FillLegs(init, SELL);
    }
  }

  ghost function SignedQtyTo(cell: string, symbol: string): Allocation -> real {
    (a: Allocation) => if a.cell != cell || a.symbol != symbol then 0.0 else if a.side == BUY then a.qty else -a.qty
  }

  lemma PostingShares(allocations: seq<Allocation>, cell: string, symbol: string)
    ensures SumBy(PostingOrder(allocations), SharesTo(cell, symbol)) == SumBy(allocations, SignedQtyTo(cell, symbol))
  {
    PostingSum(allocations, SharesTo(cell, symbol), SignedQtyTo(cell, symbol));
  }

  ghost function SignedQty(symbol: string): Allocation -> real {
    (a: Allocation) => if a.symbol != symbol then 0.0 else if a.side == BUY then a.qty else -a.qty
  }

  ghost function SignedCash(): Allocation -> real {
    (a: Allocation) => -Notional(if a.side == BUY then a.qty else -a.qty, a.price) - a.fees
  }

  lemma PostingTotals(allocations: seq<Allocation>, symbol: string)
    ensures SumBy(PostingOrder(allocations), SharesMoved(symbol)) == SumBy(allocations, SignedQty(symbol))
    ensures SumBy(PostingOrder(allocations), CashMoved()) == SumBy(allocations, SignedCash())
  {
    hide Notional;
    PostingSum(allocations, SharesMoved(symbol), SignedQty(symbol));
    PostingSum(allocations, CashMoved(), SignedCash());
  }
}
