/**
 The whole clearing of a batch at any real quantities (services/capital_cells/netting.py and
 services/capital_cells/fill_allocation.py): how far rounding and the two cutoffs can move a
 cell's position from what the cell asked for.
 */
module ClearingDrift {
  import opened Numeric
  import opened Products
  import opened Sums
  import opened Intents
  import opened Matching
  import opened Netting
  import opened NettingDrift
  import opened NettingEngine
  import opened CellLedgers
  import opened Batches
  import opened Posting
  import opened FillAllocation
  import opened FillPosting
  import opened Clearing

  // ----- one fill -----

  /** An intent's exact share, if it is the cell's. */
  ghost function ExactTo(total: real, fill: real, cell: string): Intent -> real
    requires total != 0.0
  {
    (i: Intent) => if i.cell == cell then Proportion(i.qty, total, fill) else 0.0
  }

  lemma PieceTo(before: seq<Allocation>, i: Intent, qty: real, fill: real, price: real, fees: real, cell: string)
    requires fill != 0.0
    ensures SumBy(before + Piece(i, qty, fill, price, fees), AllocatedTo(cell))
         == SumBy(before, AllocatedTo(cell)) + (if qty <= EPS || i.cell != cell then 0.0 else qty)
  {
    if qty <= EPS {
      assert before + [] == before;
    } else {
      SumSnoc(before, Allocation(i.cell, i.symbol, i.side, qty, price, Proportion(qty, fill, fees)), AllocatedTo(cell));
    }
  }

  /** A rounded share is within half a micro-unit of the exact one, also when it is skipped. */
  lemma RoundedShareNear(i: Intent, total: real, fill: real)
    requires total > 0.0 && fill > 0.0 && i.Valid()
    ensures var share, exact := RoundedShare(total, fill)(i), ExactShare(total, fill)(i);
            exact >= 0.0 && Abs((if share <= EPS then 0.0 else share) - exact) <= HalfMicros(1)
  {
    ProportionPositive(i.qty, total, fill);
    RoundNonNegative(Proportion(i.qty, total, fill));
    RoundError(Proportion(i.qty, total, fill));
    WholeNoDust(RoundedShare(total, fill)(i));
  }

  /** What a piece adds to a cell is within so many half micro-units of the intent's exact share. */
  ghost predicate AddsAbout(
    before: seq<Allocation>, after: seq<Allocation>, i: Intent, total: real, fill: real, cell: string, halves: int)
    requires total != 0.0
  {
    Abs(SumBy(after, AllocatedTo(cell)) - SumBy(before, AllocatedTo(cell)) - ExactTo(total, fill, cell)(i)) <= HalfMicros(halves)
  }

  lemma RoundedPieceAdds(
    before: seq<Allocation>, i: Intent, total: real, fill: real, price: real, fees: real, cell: string)
    requires total > 0.0 && fill > 0.0 && i.Valid()
    ensures AddsAbout(before, before + Piece(i, RoundedShare(total, fill)(i), fill, price, fees), i, total, fill, cell, 1)
  {
    hide Round6, Proportion, Piece;
    RoundedShareNear(i, total, fill);
    PieceTo(before, i, RoundedShare(total, fill)(i), fill, price, fees, cell);
  }

  lemma LastPieceAdds(
    before: seq<Allocation>, ordered: seq<Intent>, total: real, fill: real, price: real, fees: real, cell: string)
    requires Allocatable(ordered, total, fill)
    ensures var i := ordered[|ordered| - 1];
            AddsAbout(before, before + Piece(i, Remainder(ordered, total, fill), fill, price, fees), i, total, fill, cell, |ordered|)
  {
    hide Round6, Proportion, Piece, RoundedShare, Remainder;
    var i := ordered[|ordered| - 1];
    assert i in ordered;
    RemainderNear(ordered, total, fill);
    RoundedShareNear(i, total, fill);
    PieceTo(before, i, Remainder(ordered, total, fill), fill, price, fees, cell);
  }

  lemma NoPieces(ordered: seq<Intent>, total: real, fill: real, price: real, fees: real, cell: string)
    requires total != 0.0 && fill != 0.0
    ensures SumBy(Pieces(ordered, total, fill, price, fees, 0), AllocatedTo(cell)) == 0.0
    ensures SumBy(ordered[..0], ExactTo(total, fill, cell)) == 0.0
  {
  }

  lemma {:induction false} EarlierPiecesNear(
    ordered: seq<Intent>, total: real, fill: real, price: real, fees: real, k: nat, cell: string)
    requires Allocatable(ordered, total, fill) && k < |ordered|
    ensures Abs(SumBy(Pieces(ordered, total, fill, price, fees, k), AllocatedTo(cell)) - SumBy(ordered[..k], ExactTo(total, fill, cell)))
         <= HalfMicros(k)
  {
    hide Proportion, Piece, Pieces, RoundedShare, ExactTo, AllocatedTo, SumBy;
    NoPieces(ordered, total, fill, price, fees, cell);
    if k > 0 {
      EarlierPiecesNear(ordered, total, fill, price, fees, k - 1, cell);
      assert ordered[k - 1] in ordered;
      EarlierPiece(ordered, total, fill, price, fees, k - 1);
      SumPrefix(ordered, k - 1, ExactTo(total, fill, cell));
      RoundedPieceAdds(Pieces(ordered, total, fill, price, fees, k - 1), ordered[k - 1], total, fill, price, fees, cell);
    }
  }

  lemma LastPiece(ordered: seq<Intent>, total: real, fill: real, price: real, fees: real)
    requires total != 0.0 && fill != 0.0 && ordered != []
    ensures var n := |ordered| - 1;
            Pieces(ordered, total, fill, price, fees, |ordered|)
            == Pieces(ordered, total, fill, price, fees, n) + Piece(ordered[n], Remainder(ordered, total, fill), fill, price, fees)
  {
  }

  lemma PiecesNear(ordered: seq<Intent>, total: real, fill: real, price: real, fees: real, cell: string)
    requires Allocatable(ordered, total, fill)
    ensures Abs(SumBy(Pieces(ordered, total, fill, price, fees, |ordered|), AllocatedTo(cell)) - SumBy(ordered, ExactTo(total, fill, cell)))
         <= HalfMicros(2 * |ordered|)
  {
    hide Proportion, Piece, Pieces, Remainder, ExactTo, AllocatedTo, SumBy;
    var n := |ordered| - 1;
    EarlierPiecesNear(ordered, total, fill, price, fees, n, cell);
    LastPiece(ordered, total, fill, price, fees);
    LastPieceAdds(Pieces(ordered, total, fill, price, fees, n), ordered, total, fill, price, fees, cell);
    SumPrefix(ordered, n, ExactTo(total, fill, cell));
    assert ordered[..n + 1] == ordered;
  }

  lemma {:induction false} ExactToSum(s: seq<Intent>, total: real, fill: real, cell: string)
    requires total != 0.0
    ensures SumBy(s, ExactTo(total, fill, cell)) == Proportion(SumBy(s, QtyFor(cell)), total, fill)
  {
    ProportionLaws(0.0, 0.0, total, fill);
    if s != [] {
      ExactToSum(s[..|s| - 1], total, fill, cell);
      ProportionLaws(SumBy(s[..|s| - 1], QtyFor(cell)), s[|s| - 1].qty, total, fill);
    }
  }

  /** A part of the whole scales by no more than the whole does. */
  lemma ProportionNear(own: real, total: real, fill: real)
    requires 0.0 <= own <= total && total > 0.0
    ensures Abs(Proportion(own, total, fill) - own) <= Abs(fill - total)
  {
    var ratio := own / total;
    DivideMul(own, total);
    MulAdd(ratio, fill, total);
    MulOne(total);
    MulZero(total);
    CancelLe(ratio, 1.0, total);
    CancelLe(0.0, ratio, total);
    AbsMul(ratio, fill - total);
    MulLe(ratio, 1.0, Abs(fill - total));
    MulOne(Abs(fill - total));
  }

  lemma CellWithinAll(s: seq<Intent>, cell: string)
    requires ValidIntents(s)
    ensures 0.0 <= SumBy(s, QtyFor(cell)) <= SumBy(s, QtyOf())
  {
    SumNonNegative(s, QtyFor(cell));
    SumLe(s, QtyFor(cell), QtyOf());
  }

  /** Every allocation is some intent's. */
  lemma {:induction false} PieceOfIntent(
    ordered: seq<Intent>, total: real, fill: real, price: real, fees: real, k: nat, a: Allocation)
    requires total != 0.0 && fill != 0.0 && k <= |ordered| && a in Pieces(ordered, total, fill, price, fees, k)
    ensures exists i :: i in ordered && a.cell == i.cell && a.symbol == i.symbol && a.side == i.side
  {
    hide ShareAt, Proportion;
    if a in Pieces(ordered, total, fill, price, fees, k - 1) {
      PieceOfIntent(ordered, total, fill, price, fees, k - 1, a);
    } else {
      assert ordered[k - 1] in ordered;
    }
  }

  lemma FillAllocated(residual: seq<Intent>, fill: real, price: real, fees: real)
    requires ValidIntents(residual) && OneOrder(residual) && residual != [] && fill > 0.0
    requires Abs(SumBy(residual, QtyOf()) - fill) <= MICRO
    ensures var ordered, total := SortById(residual), SumBy(residual, QtyOf());
      && Allocatable(ordered, total, fill) && |ordered| == |residual|
      && AllocationOf(residual, fill, price, fees) == Allocated(Pieces(ordered, total, fill, price, fees, |ordered|))
  {
    hide Pieces, SortById;
    TotalPositive(residual);
    SortedDemand(residual, fill);
  }

  /** An allocation goes to an intent of the residual, as its symbol and side say. */
  ghost predicate FromResidual(legs: seq<Allocation>, residual: seq<Intent>) {
    forall a :: a in legs ==> exists i :: i in residual && a.cell == i.cell && a.symbol == i.symbol && a.side == i.side
  }

  lemma PiecesFromResidual(residual: seq<Intent>, total: real, fill: real, price: real, fees: real)
    requires total != 0.0 && fill != 0.0
    ensures FromResidual(Pieces(SortById(residual), total, fill, price, fees, |SortById(residual)|), residual)
  {
    hide Pieces, SortById;
    var ordered := SortById(residual);
    forall a | a in Pieces(ordered, total, fill, price, fees, |ordered|)
      ensures exists i :: i in residual && a.cell == i.cell && a.symbol == i.symbol && a.side == i.side
    {
      PieceOfIntent(ordered, total, fill, price, fees, |ordered|, a);
      var i :| i in ordered && a.cell == i.cell && a.symbol == i.symbol && a.side == i.side;
      SortMembers(residual, i);
    }
  }

  lemma ExactNear(residual: seq<Intent>, ordered: seq<Intent>, total: real, fill: real, cell: string)
    requires ValidIntents(residual) && ordered == SortById(residual)
    requires total == SumBy(residual, QtyOf()) && total > 0.0
    ensures Abs(SumBy(ordered, ExactTo(total, fill, cell)) - SumBy(residual, QtyFor(cell))) <= Abs(total - fill)
  {
    hide SortById, Proportion, ExactTo, QtyFor, QtyOf, ValidIntents;
    ExactToSum(ordered, total, fill, cell);
    SortKeeps(residual);
    SumPermutation(residual, ordered, QtyFor(cell));
    CellWithinAll(residual, cell);
    ProportionNear(SumBy(residual, QtyFor(cell)), total, fill);
  }

  lemma PiecesNearDemand(
    residual: seq<Intent>, ordered: seq<Intent>, total: real, fill: real, price: real, fees: real, cell: string)
    requires ValidIntents(residual) && ordered == SortById(residual) && total == SumBy(residual, QtyOf())
    requires Allocatable(ordered, total, fill)
    ensures Abs(SumBy(Pieces(ordered, total, fill, price, fees, |ordered|), AllocatedTo(cell)) - SumBy(residual, QtyFor(cell)))
         <= HalfMicros(2 * |ordered|) + Abs(total - fill)
  {
    hide SortById, Pieces, ExactTo, QtyFor, QtyOf, ValidIntents, AllocatedTo, SumBy;
    PiecesNear(ordered, total, fill, price, fees, cell);
    ExactNear(residual, ordered, total, fill, cell);
  }

  /** A fill of about the whole demand gives every cell about what it is owed. */
  lemma FillNear(residual: seq<Intent>, fill: real, price: real, fees: real, cell: string)
    requires ValidIntents(residual) && OneOrder(residual) && residual != [] && fill > 0.0
    requires Abs(SumBy(residual, QtyOf()) - fill) <= MICRO
    ensures AllocationOf(residual, fill, price, fees).Allocated?
    ensures var legs := AllocationOf(residual, fill, price, fees).legs;
      && Abs(SumBy(legs, AllocatedTo(cell)) - SumBy(residual, QtyFor(cell)))
         <= HalfMicros(2 * |residual|) + Abs(SumBy(residual, QtyOf()) - fill)
      && FromResidual(legs, residual)
  {
    hide *;
    FillAllocated(residual, fill, price, fees);
    var total := SumBy(residual, QtyOf());
    PiecesNearDemand(residual, SortById(residual), total, fill, price, fees, cell);
    DemandIsPositive(residual);
    PiecesFromResidual(residual, total, fill, price, fees);
  }

  lemma DemandIsPositive(residual: seq<Intent>)
    requires ValidIntents(residual) && residual != []
    ensures SumBy(residual, QtyOf()) > 0.0
  {
    TotalPositive(residual);
  }

  // ----- one symbol -----

  lemma ResidualGrows(intents: seq<Intent>, k: nat, left: real)
    ensures |Residual(intents, k, left)| <= if k < |intents| then 1 + |Residual(intents, k + 1, QtyAt(intents, k + 1))| else 0
  {
  }

  lemma {:induction false} ResidualLength(intents: seq<Intent>, k: nat, left: real)
    requires k <= |intents|
    ensures |Residual(intents, k, left)| <= |intents| - k
    decreases |intents| - k
  {
    hide Residual, QtyAt;
    ResidualGrows(intents, k, left);
    if k < |intents| {
      ResidualLength(intents, k + 1, QtyAt(intents, k + 1));
    }
  }

  lemma ResidualFits(symbol: string, intents: seq<Intent>, price: real)
    requires ValidIntents(intents)
    ensures |NetOf(symbol, intents, price).residual| <= |intents|
  {
    hide Sorted, Greedy, Residual;
    var buys, sells, end := Sorted(intents, BUY), Sorted(intents, SELL), MatchOf(intents, price).end;
    SortedValid(intents, BUY);
    SortedValid(intents, SELL);
    SortedSizes(intents);
    StartIsSane(buys, sells);
    GreedyDrift(price, buys, sells, Start(buys, sells));
    ResidualLength(buys, end.bi, end.buyLeft);
    ResidualLength(sells, end.si, end.sellLeft);
  }

  /** The residual of an order: valid, one symbol, one side, of known intents. */
  lemma ResidualIsTheOrder(symbol: string, intents: seq<Intent>, price: real)
    requires ValidIntents(intents) && forall i :: i in intents ==> i.symbol == symbol
    requires NetOf(symbol, intents, price).side != NoOrder
    ensures var r := NetOf(symbol, intents, price);
      && ValidIntents(r.residual) && OneOrder(r.residual) && r.qty > 0.0
      && (forall x :: x in r.residual ==>
            r.side == Order(x.side) && x.symbol == symbol && exists i :: i in intents && i.cell == x.cell)
  {
    var r := NetOf(symbol, intents, price);
    forall x | x in r.residual
      ensures x.Valid() && r.side == Order(x.side) && x.symbol == symbol && exists i :: i in intents && i.cell == x.cell
    {
      ResidualOfSide(symbol, intents, price, x);
      var i :| i in intents && x == i.(qty := x.qty);
    }
  }

  /** Half micro-units for rounding, and tolerances for what the two sides disagree about. */
  function Slack(dusts: int, halves: int): real {
    Dust(dusts) + HalfMicros(halves)
  }

  /** What `legs` bring, when all of them are for one side of one symbol. */
  ghost predicate BringsOnly(legs: seq<Allocation>, side: Side, symbol: string, book: set<string>) {
    forall a :: a in legs ==> a.side == side && a.symbol == symbol && a.cell in book
  }

  lemma LegsOfOrder(r: SymbolNet, legs: seq<Allocation>, symbol: string, cells: set<string>)
    requires FromResidual(legs, r.residual) && r.side != NoOrder
    requires forall x :: x in r.residual ==> r.side == Order(x.side) && x.symbol == symbol && x.cell in cells
    ensures BringsOnly(legs, r.side.side, symbol, cells)
  {
  }

  lemma OrderLegShares(legs: seq<Allocation>, side: Side, symbol: string, cells: set<string>, cell: string, s: string)
    requires BringsOnly(legs, side, symbol, cells)
    ensures SumBy(PostingOrder(legs), SharesTo(cell, s))
         == if s != symbol then 0.0 else if side == BUY then SumBy(legs, AllocatedTo(cell)) else -SumBy(legs, AllocatedTo(cell))
    ensures forall l :: l in PostingOrder(legs) ==> l.cell in cells
  {
    PostingShares(legs, cell, s);
    OneSideShares(legs, Order(side), symbol, cell, s);
    forall l | l in PostingOrder(legs)
      ensures l.cell in cells
    {
      if l in FillLegs(legs, SELL) { FillLegMembers(legs, SELL, l); } else { FillLegMembers(legs, BUY, l); }
    }
  }

  function CellsOf(intents: seq<Intent>): set<string> {
    set i | i in intents :: i.cell
  }

  /** Netting did not report this symbol as inconsistent. */
  ghost predicate Consistent(r: SymbolNet) {
    !GuardFires(r, SumBy(r.residual, QtyOf()))
  }

  /** A full fill brings every cell about what the order owes it, and nothing in other symbols. */
  lemma FillSharesNear(symbol: string, intents: seq<Intent>, price: real, e: Execution, cell: string, s: string)
    requires ValidIntents(intents) && (forall i :: i in intents ==> i.symbol == symbol) && Consistent(NetOf(symbol, intents, price))
    ensures var r, n := NetOf(symbol, intents, price), |intents|;
      && (s == symbol ==> Abs(SumBy(FullFillLegs(r, e), SharesTo(cell, s)) - Owed(r, cell)) <= Slack(n, 2 * n))
      && (s != symbol ==> SumBy(FullFillLegs(r, e), SharesTo(cell, s)) == 0.0)
      && (forall l :: l in FullFillLegs(r, e) ==> l.cell in CellsOf(intents))
  {
    hide NetOf, AllocationOf, PostingOrder, FromResidual;
    var r := NetOf(symbol, intents, price);
    if r.side != NoOrder {
      ResidualIsTheOrder(symbol, intents, price);
      if r.residual == [] {
        NothingAllocated(r, e);
      } else {
        OrderFillNear(symbol, intents, price, e, cell, s);
      }
    }
  }

  lemma NothingAllocated(r: SymbolNet, e: Execution)
    requires r.side != NoOrder && r.residual == []
    ensures FullFillLegs(r, e) == []
  {
  }

  lemma OrderFillNear(symbol: string, intents: seq<Intent>, price: real, e: Execution, cell: string, s: string)
    requires ValidIntents(intents) && (forall i :: i in intents ==> i.symbol == symbol) && Consistent(NetOf(symbol, intents, price))
    requires NetOf(symbol, intents, price).side != NoOrder && NetOf(symbol, intents, price).residual != []
    ensures var r, n := NetOf(symbol, intents, price), |intents|;
      && (s == symbol ==> Abs(SumBy(FullFillLegs(r, e), SharesTo(cell, s)) - Owed(r, cell)) <= Slack(n, 2 * n))
      && (s != symbol ==> SumBy(FullFillLegs(r, e), SharesTo(cell, s)) == 0.0)
      && (forall l :: l in FullFillLegs(r, e) ==> l.cell in CellsOf(intents))
  {
    hide NetOf, AllocationOf, PostingOrder, FromResidual, SumBy;
    var r := NetOf(symbol, intents, price);
    ResidualIsTheOrder(symbol, intents, price);
    ResidualFits(symbol, intents, price);
    SomeIntents(symbol, intents, price);
    ResidualGap(symbol, intents, price);
    FillNear(r.residual, r.qty, e.price, e.fees, cell);
    var legs := AllocationOf(r.residual, r.qty, e.price, e.fees).legs;
    LegsOfOrder(r, legs, symbol, CellsOf(intents));
    OrderLegShares(legs, r.side.side, symbol, CellsOf(intents), cell, s);
    SignedResidual(r.residual, r.side, cell);
  }

  lemma SomeIntents(symbol: string, intents: seq<Intent>, price: real)
    requires ValidIntents(intents) && NetOf(symbol, intents, price).residual != []
    ensures intents != []
  {
    ResidualFits(symbol, intents, price);
  }

  // ----- all symbols -----

  ghost predicate AllConsistent(results: seq<SymbolNet>) {
    forall r :: r in results ==> Consistent(r)
  }

  /** One symbol's crosses and full fill bring about `asked` to the cell in that symbol, and nothing in others. */
  ghost predicate NearlyBrings(r: SymbolNet, own: string, e: Execution, cell: string, s: string, asked: real, slack: real) {
    && r.symbol == own
    && Abs(SumBy(r.crosses, CrossShares(cell, s)) + SumBy(FullFillLegs(r, e), SharesTo(cell, s)) - (if s == own then asked else 0.0))
       <= if s == own then slack else 0.0
  }

  lemma OwnSymbol(symbol: string, intents: seq<Intent>, price: real)
    ensures NetOf(symbol, intents, price).symbol == symbol
  {
  }

  lemma SymbolNearlyBrings(own: string, intents: seq<Intent>, price: real, e: Execution, cell: string, s: string)
    requires ValidIntents(intents) && Consistent(NetOf(own, OfSymbol(intents, own), price))
    ensures var n := |OfSymbol(intents, s)|;
            NearlyBrings(NetOf(own, OfSymbol(intents, own), price), own, e, cell, s,
                         SumBy(OfSymbol(intents, s), SignedFor(cell)), Slack(5 * n, 2 * n))
  {
    hide FullFillLegs, CrossShares, SharesTo, Consistent, Owed, CrossedFor, OfSymbol, NetOf, SumBy, SignedFor;
    var g := OfSymbol(intents, own);
    RealGroupOfSymbol(intents, own);
    OwnSymbol(own, g, price);
    NetNearlyPreservesMeaning(own, g, price, cell);
    FillSharesNear(own, g, price, e, cell, s);
    var r := NetOf(own, g, price);
    forall c | c in r.crosses
      ensures c.symbol == own
    {
      CrossesOfSymbol(own, g, price, c);
    }
    OneSymbolShares(r.crosses, cell, own, s);
  }

  lemma RealGroupOfSymbol(intents: seq<Intent>, s: string)
    requires ValidIntents(intents)
    ensures ValidIntents(OfSymbol(intents, s)) && forall i :: i in OfSymbol(intents, s) ==> i in intents && i.symbol == s
  {
    forall i | i in OfSymbol(intents, s)
      ensures i in intents && i.symbol == s
    {
      OfSymbolMembers(intents, s, i);
    }
  }

  ghost predicate NearlyBringTogether(
    crosses: seq<Cross>, legs: seq<Leg>, cell: string, s: string, total: real, slack: real)
  {
    Abs(SumBy(crosses, CrossShares(cell, s)) + SumBy(legs, SharesTo(cell, s)) - total) <= slack
  }

  lemma OneMoreNearlyBrings(
    crosses: seq<Cross>, legs: seq<Leg>, r: SymbolNet, own: string, e: Execution, cell: string, s: string,
    total: real, before: real, asked: real, slack: real)
    requires NearlyBringTogether(crosses, legs, cell, s, total, before) && NearlyBrings(r, own, e, cell, s, asked, slack)
    ensures NearlyBringTogether(crosses + r.crosses, legs + FullFillLegs(r, e), cell, s,
                                total + (if s == own then asked else 0.0), before + if s == own then slack else 0.0)
  {
    hide FullFillLegs, CrossShares, SharesTo;
    SumAppend(crosses, r.crosses, CrossShares(cell, s));
    SumAppend(legs, FullFillLegs(r, e), SharesTo(cell, s));
  }

  lemma {:induction false} ResultsNearlyBring(
    symbols: seq<string>, results: seq<SymbolNet>, fills: string -> Execution, cell: string, s: string, asked: real, slack: real)
    requires |results| == |symbols|
    requires forall k :: 0 <= k < |symbols| ==> NearlyBrings(results[k], symbols[k], fills(symbols[k]), cell, s, asked, slack)
    requires forall i, j :: 0 <= i < j < |symbols| ==> symbols[i] != symbols[j]
    ensures NearlyBringTogether(AllCrosses(results), AllFillLegs(results, fills), cell, s,
                                if s in symbols then asked else 0.0, if s in symbols then slack else 0.0)
  {
    hide FullFillLegs, CrossShares, SharesTo;
    if results != [] {
      var n := |results| - 1;
      var r, before := results[n], results[..n];
      assert NearlyBrings(r, symbols[n], fills(symbols[n]), cell, s, asked, slack);
      ResultsNearlyBring(symbols[..n], before, fills, cell, s, asked, slack);
      OneMoreNearlyBrings(AllCrosses(before), AllFillLegs(before, fills), r, symbols[n], fills(symbols[n]), cell, s,
                          if s in symbols[..n] then asked else 0.0, if s in symbols[..n] then slack else 0.0, asked, slack);
      assert symbols == symbols[..n] + [symbols[n]];
    }
  }

  lemma ConsistentAt(intents: seq<Intent>, prices: string -> real, k: nat)
    requires AllConsistent(NetAll(intents, prices)) && k < |SymbolsOf(intents)|
    ensures var symbol := SymbolsOf(intents)[k]; Consistent(NetOf(symbol, OfSymbol(intents, symbol), prices(symbol)))
  {
    hide NetOf, OfSymbol, Consistent;
    var symbols := SymbolsOf(intents);
    NetFirstAt(symbols, intents, prices, |symbols|, k);
    assert NetAll(intents, prices)[k] in NetAll(intents, prices);
  }

  /** Crosses and full fills of the whole batch bring a cell about the signed sum of its intents in a symbol. */
  lemma BatchNearlyBrings(
    intents: seq<Intent>, prices: string -> real, fills: string -> Execution, cell: string, symbol: string)
    requires ValidIntents(intents) && AllConsistent(NetAll(intents, prices))
    ensures var results, n := NetAll(intents, prices), |OfSymbol(intents, symbol)|;
            NearlyBringTogether(AllCrosses(results), AllFillLegs(results, fills), cell, symbol,
                                SumBy(intents, SignedIn(cell, symbol)), Slack(5 * n, 2 * n))
  {
    hide NearlyBringTogether, NearlyBrings, Consistent, NetOf, OfSymbol, AllCrosses, AllFillLegs;
    var symbols, asked, n := SymbolsOf(intents), SumBy(OfSymbol(intents, symbol), SignedFor(cell)), |OfSymbol(intents, symbol)|;
    var results := NetFirst(symbols, intents, prices, |symbols|);
    forall k | 0 <= k < |symbols|
      ensures NearlyBrings(results[k], symbols[k], fills(symbols[k]), cell, symbol, asked, Slack(5 * n, 2 * n))
    {
      NetFirstAt(symbols, intents, prices, |symbols|, k);
      ConsistentAt(intents, prices, k);
      SymbolNearlyBrings(symbols[k], intents, prices(symbols[k]), fills(symbols[k]), cell, symbol);
    }
    SymbolsListed(intents, symbol);
    ResultsNearlyBring(symbols, results, fills, cell, symbol, asked, Slack(5 * n, 2 * n));
    SignedOfSymbol(intents, cell, symbol);
  }

  // ----- posting -----

  predicate SaleTo(l: Leg, cell: string, symbol: string) {
    l.cell == cell && l.symbol == symbol && l.qty <= 0.0
  }

  /** How many sales of the symbol are posted to the cell: each may close the position and drop dust. */
  ghost function SalesTo(legs: seq<Leg>, cell: string, symbol: string): nat {
    if legs == [] then 0
    else SalesTo(legs[..|legs| - 1], cell, symbol) + if SaleTo(legs[|legs| - 1], cell, symbol) then 1 else 0
  }

  lemma LegMovesNear(book: Book, leg: Leg, cell: string, symbol: string)
    requires SoundBook(book) && leg.cell in book && ApplyLeg(book, leg).refusal == NoRefusal
    ensures Abs(Holding(ApplyLeg(book, leg).book, cell, symbol) - (Holding(book, cell, symbol) + SharesTo(cell, symbol)(leg)))
         <= if SaleTo(leg, cell, symbol) then EPS else 0.0
  {
    FillEffect(book[leg.cell], leg.kind, leg.symbol, leg.qty, leg.price, leg.fees);
  }

  lemma LastLeg(book: Book, legs: seq<Leg>)
    requires SoundBook(book) && Addressed(legs, book) && legs != [] && ApplyLegs(book, legs).refusal == NoRefusal
    ensures var n := |legs| - 1;
      && Addressed(legs[..n], book) && ApplyLegs(book, legs[..n]).refusal == NoRefusal
      && var before := ApplyLegs(book, legs[..n]).book;
      && SoundBook(before) && legs[n].cell in before
      && ApplyLeg(before, legs[n]).refusal == NoRefusal && ApplyLeg(before, legs[n]).book == ApplyLegs(book, legs).book
  {
    hide ApplyLeg;
    assert legs[|legs| - 1] in legs;
  }

  lemma NoLegs(book: Book, cell: string, symbol: string)
    requires SoundBook(book)
    ensures ApplyLegs(book, []).book == book && SumBy([], SharesTo(cell, symbol)) == 0.0
  {
  }

  /** At any quantities, posted legs move a position by their sum, less at most one tolerance per sale. */
  lemma {:induction false} LegsMoveSharesNear(book: Book, legs: seq<Leg>, cell: string, symbol: string)
    requires SoundBook(book) && Addressed(legs, book) && ApplyLegs(book, legs).refusal == NoRefusal
    ensures Abs(Holding(ApplyLegs(book, legs).book, cell, symbol) - (Holding(book, cell, symbol) + SumBy(legs, SharesTo(cell, symbol))))
         <= Dust(SalesTo(legs, cell, symbol))
    decreases |legs|
  {
    hide ApplyLegs, ApplyLeg, Holding, SharesTo, SaleTo, SumBy, SoundBook;
    if legs == [] {
      NoLegs(book, cell, symbol);
    } else {
      var n := |legs| - 1;
      LastLeg(book, legs);
      LegsMoveSharesNear(book, legs[..n], cell, symbol);
      LegMovesNear(ApplyLegs(book, legs[..n]).book, legs[n], cell, symbol);
      SumPrefix(legs, n, SharesTo(cell, symbol));
      assert legs[..n + 1] == legs;
    }
  }

  // ----- only known cells are named -----

  lemma RealSymbolNamesOnly(own: string, intents: seq<Intent>, price: real, e: Execution, book: Book)
    requires ValidIntents(intents) && KnownCells(intents, book) && Consistent(NetOf(own, OfSymbol(intents, own), price))
    ensures NamesOnly(NetOf(own, OfSymbol(intents, own), price), e, book)
  {
    hide FullFillLegs, Consistent, NetOf, OfSymbol, SharesTo, Owed, SumBy;
    var g := OfSymbol(intents, own);
    RealGroupOfSymbol(intents, own);
    FillSharesNear(own, g, price, e, "", "");
    CrossesNameOnly(own, g, price, book);
  }

  lemma CrossesNameOnly(own: string, intents: seq<Intent>, price: real, book: Book)
    requires KnownCells(intents, book) && forall i :: i in intents ==> i.symbol == own
    ensures CrossesWithin(NetOf(own, intents, price).crosses, book)
  {
    hide NetOf;
    forall c | c in NetOf(own, intents, price).crosses
      ensures c.buyCell in book && c.sellCell in book
    {
      CrossesOfSymbol(own, intents, price, c);
    }
  }

  lemma RealClearingNamesKnownCells(book: Book, intents: seq<Intent>, prices: string -> real, fills: string -> Execution)
    requires ValidIntents(intents) && KnownCells(intents, book) && AllConsistent(NetAll(intents, prices))
    ensures Addressed(ClearingLegs(intents, prices, fills), book)
  {
    hide NetOf, OfSymbol, Consistent, NamesOnly;
    var symbols := SymbolsOf(intents);
    var results := NetFirst(symbols, intents, prices, |symbols|);
    forall k | 0 <= k < |results|
      ensures NamesOnly(results[k], fills(results[k].symbol), book)
    {
      NetFirstAt(symbols, intents, prices, |symbols|, k);
      ConsistentAt(intents, prices, k);
      RealSymbolNamesOnly(symbols[k], intents, prices(symbols[k]), fills(symbols[k]), book);
      OwnSymbol(symbols[k], OfSymbol(intents, symbols[k]), prices(symbols[k]));
    }
    ResultsNameOnly(results, fills, book);
    CrossLegsAddressed(AllCrosses(results), book);
  }

  /**
   Netting preserves meaning at any real quantities. For any batch that netting accepts: if
   the crosses and a full fill of every residual order are all posted, every cell's position
   in every symbol has changed by the signed sum of that cell's own gross intents, within one
   micro-unit and five tolerances per intent of the symbol and one tolerance per sale posted.
   */
  lemma ClearingNearlyPreservesMeaning(
    book: Book, intents: seq<Intent>, prices: string -> real, fills: string -> Execution, cell: string, symbol: string)
    requires SoundBook(book) && ValidIntents(intents) && KnownCells(intents, book) && AllConsistent(NetAll(intents, prices))
    requires Addressed(ClearingLegs(intents, prices, fills), book) ==>
               ApplyLegs(book, ClearingLegs(intents, prices, fills)).refusal == NoRefusal
    ensures Addressed(ClearingLegs(intents, prices, fills), book)
    ensures var legs, n := ClearingLegs(intents, prices, fills), |OfSymbol(intents, symbol)|;
            Abs(Holding(ApplyLegs(book, legs).book, cell, symbol)
                - (Holding(book, cell, symbol) + SumBy(intents, SignedIn(cell, symbol))))
            <= Slack(5 * n + SalesTo(legs, cell, symbol), 2 * n)
  {
    hide Holding, SharesTo, SignedIn, OfSymbol, NetAll, ApplyLegs, AllConsistent, ClearingLegs, SumBy, SalesTo;
    hide Slack, Dust, Abs;
    RealClearingNamesKnownCells(book, intents, prices, fills);
    LegsMoveSharesNear(book, ClearingLegs(intents, prices, fills), cell, symbol);
    ClearingLegsBring(intents, prices, fills, cell, symbol);
    var legs, n := ClearingLegs(intents, prices, fills), |OfSymbol(intents, symbol)|;
    SlackAdds(5 * n, 2 * n, SalesTo(legs, cell, symbol));
    Between(Holding(ApplyLegs(book, legs).book, cell, symbol), Holding(book, cell, symbol),
            SumBy(legs, SharesTo(cell, symbol)), SumBy(intents, SignedIn(cell, symbol)));
  }

  lemma SlackAdds(dusts: nat, halves: nat, more: nat)
    ensures Slack(dusts, halves) + Dust(more) == Slack(dusts + more, halves)
  {
  }

  lemma Between(after: real, before: real, brought: real, asked: real)
    ensures Abs(after - (before + asked)) <= Abs(after - (before + brought)) + Abs(brought - asked)
  {
  }

  lemma ClearingLegsBring(
    intents: seq<Intent>, prices: string -> real, fills: string -> Execution, cell: string, symbol: string)
    requires ValidIntents(intents) && AllConsistent(NetAll(intents, prices))
    ensures var n := |OfSymbol(intents, symbol)|;
            Abs(SumBy(ClearingLegs(intents, prices, fills), SharesTo(cell, symbol)) - SumBy(intents, SignedIn(cell, symbol)))
            <= Slack(5 * n, 2 * n)
  {
    hide SharesTo, SignedIn, OfSymbol, NetAll, CrossLegs, AllCrosses, AllFillLegs, SumBy, CrossShares;
    BatchNearlyBrings(intents, prices, fills, cell, symbol);
    ClearingShares(NetAll(intents, prices), fills, cell, symbol);
  }

  lemma ClearingShares(results: seq<SymbolNet>, fills: string -> Execution, cell: string, symbol: string)
    ensures SumBy(CrossLegs(results) + AllFillLegs(results, fills), SharesTo(cell, symbol))
         == SumBy(AllCrosses(results), CrossShares(cell, symbol)) + SumBy(AllFillLegs(results, fills), SharesTo(cell, symbol))
  {
    var crosses := AllCrosses(results);
    SumAppend(CrossLegs(results), AllFillLegs(results, fills), SharesTo(cell, symbol));
    SumAppend(SaleLegs(crosses), PurchaseLegs(crosses), SharesTo(cell, symbol));
    CrossLegShares(crosses, cell, symbol);
  }
}
