/**
 The no-short check of netting (services/capital_cells/netting.py) is enough for the share
 checks made later, when crosses and fills are posted: nothing is sold that is not held.
 */
module ClearingCover {
  import opened Numeric
  import opened Sums
  import opened Intents
  import opened Matching
  import opened Netting
  import opened NettingEngine
  import opened CellLedgers
  import opened Batches
  import opened Posting
  import opened FillAllocation
  import opened FillPosting
  import opened Clearing

  // ----- what one symbol's result takes -----

  ghost function SoldIn(cell: string, symbol: string): Cross -> real {
    (c: Cross) => if c.symbol == symbol && c.sellCell == cell then c.qty else 0.0
  }

  lemma {:induction false} CrossesTake(crosses: seq<Cross>, cell: string, symbol: string)
    requires forall c :: c in crosses ==> c.qty > 0.0
    ensures Taken(SaleLegs(crosses), cell, symbol) == SumBy(crosses, SoldIn(cell, symbol))
    ensures Taken(PurchaseLegs(crosses), cell, symbol) == 0.0
  {
    if crosses != [] {
      var n := |crosses| - 1;
      assert crosses[n] in crosses;
      CrossesTake(crosses[..n], cell, symbol);
      assert SaleLegs(crosses)[..n] == SaleLegs(crosses[..n]);
      assert PurchaseLegs(crosses)[..n] == PurchaseLegs(crosses[..n]);
    }
  }

  lemma {:induction false} OwnCrosses(crosses: seq<Cross>, own: string, cell: string, symbol: string)
    requires forall c :: c in crosses ==> c.symbol == own
    ensures SumBy(crosses, SoldIn(cell, symbol)) == if own == symbol then SumBy(crosses, SoldBy(cell)) else 0.0
  {
    if crosses != [] {
      OwnCrosses(crosses[..|crosses| - 1], own, cell, symbol);
    }
  }

  lemma {:induction false} SalesTake(legs: seq<Leg>, cell: string, symbol: string)
    requires forall l :: l in legs ==> l.qty < 0.0
    ensures Taken(legs, cell, symbol) == -SumBy(legs, SharesTo(cell, symbol))
  {
    if legs != [] {
      assert legs[|legs| - 1] in legs;
      SalesTake(legs[..|legs| - 1], cell, symbol);
    }
  }

  lemma {:induction false} PurchasesTakeNothing(legs: seq<Leg>, cell: string, symbol: string)
    requires forall l :: l in legs ==> l.qty > 0.0
    ensures Taken(legs, cell, symbol) == 0.0
  {
    if legs != [] {
      assert legs[|legs| - 1] in legs;
      PurchasesTakeNothing(legs[..|legs| - 1], cell, symbol);
    }
  }

  /** The fill legs of a result all go the way of its net order. */
  lemma FillLegsOneSign(r: SymbolNet, own: string, e: Execution, l: Leg)
    requires WholeIntents(r.residual) && ValidIntents(r.residual) && r.qty > 0.0
    requires SumBy(r.residual, QtyOf()) == r.qty && OneOrder(r.residual)
    requires forall x :: x in r.residual ==> r.side == Order(x.side) && x.symbol == own
    requires l in FullFillLegs(r, e)
    ensures if r.side == Order(SELL) then l.qty < 0.0 else l.qty > 0.0
  {
    FullFill(r.residual, e.price, e.fees, "");
    var legs := AllocationOf(r.residual, r.qty, e.price, e.fees).legs;
    if l in FillLegs(legs, SELL) { FillLegMembers(legs, SELL, l); } else { FillLegMembers(legs, BUY, l); }
    var a :| a in legs && l == FillLeg(a);
    var i :| i in r.residual && a == OwnPiece(i, r.qty, e.price, e.fees);
  }

  /** What a symbol's crosses and fill take from (cell, s): nothing of another symbol, and no more than the cell's own sales. */
  ghost predicate TakesWithin(r: SymbolNet, own: string, fill: seq<Leg>, cell: string, s: string, demand: real) {
    && (forall c :: c in r.crosses ==> c.qty > 0.0)
    && SumBy(r.crosses, SoldIn(cell, s)) <= (if s == own then demand else 0.0)
    && SumBy(r.crosses, SoldIn(cell, s)) + Taken(fill, cell, s) <= (if s == own then demand else 0.0)
  }

  lemma SymbolCrossesWithin(own: string, intents: seq<Intent>, price: real, cell: string, s: string)
    requires ValidIntents(intents)
    ensures TakesWithin(NetOf(own, OfSymbol(intents, own), price), own, [], cell, s, SellDemand(intents, cell, s))
  {
    hide NetOf, OfSide;
    var g, r := OfSymbol(intents, own), NetOf(own, OfSymbol(intents, own), price);
    ValidGroup(intents, own);
    SalesWithinDemand(own, g, price, cell);
    forall c | c in r.crosses
      ensures c.symbol == own && c.qty > 0.0
    {
      CrossesOfSymbol(own, g, price, c);
    }
    OwnCrosses(r.crosses, own, cell, s);
    DemandOfGroup(intents, cell, own);
  }

  lemma ValidGroup(intents: seq<Intent>, own: string)
    requires ValidIntents(intents)
    ensures ValidIntents(OfSymbol(intents, own)) && forall i :: i in OfSymbol(intents, own) ==> i.symbol == own
  {
    forall i | i in OfSymbol(intents, own)
      ensures i in intents && i.symbol == own
    {
      OfSymbolMembers(intents, own, i);
    }
  }

  lemma OneMoreSale(g: seq<Intent>, x: Intent, cell: string)
    ensures SumBy(OfSide(g + [x], SELL), QtyFor(cell)) == SumBy(OfSide(g, SELL), QtyFor(cell)) + SellsFrom(cell, x.symbol)(x)
  {
    assert (g + [x])[..|g|] == g;
    if x.side == SELL {
      SumSnoc(OfSide(g, SELL), x, QtyFor(cell));
    } else {
      assert OfSide(g, SELL) + [] == OfSide(g, SELL);
    }
  }

  /** What a cell's sales of a symbol ask for, counted in the symbol's own group. */
  lemma {:induction false} DemandOfGroup(intents: seq<Intent>, cell: string, own: string)
    ensures SumBy(OfSide(OfSymbol(intents, own), SELL), QtyFor(cell)) == SellDemand(intents, cell, own)
  {
    hide OfSide, QtyFor;
    if intents == [] {
      NoSales(cell);
    } else {
      var n := |intents| - 1;
      var g := OfSymbol(intents[..n], own);
      DemandOfGroup(intents[..n], cell, own);
      if intents[n].symbol == own {
        OneMoreSale(g, intents[n], cell);
      } else {
        assert g + [] == g;
      }
    }
  }

  lemma NoSales(cell: string)
    ensures SumBy(OfSide([], SELL), QtyFor(cell)) == 0.0
  {
  }

  /** In whole units the fill takes exactly what the residual asks to sell. */
  lemma FillTakes(own: string, g: seq<Intent>, price: real, e: Execution, cell: string, s: string)
    requires ValidIntents(g) && WholeIntents(g) && forall i :: i in g ==> i.symbol == own
    ensures var r := NetOf(own, g, price);
      Taken(FullFillLegs(r, e), cell, s) == if s == own then StillToSell(r, cell) else 0.0
  {
    hide NetOf;
    var r := NetOf(own, g, price);
    FillShares(own, g, price, e, cell, s);
    ResidualIsOneOrder(own, g, price);
    NetPreservesMeaning(own, g, price, cell);
    if r.side != NoOrder {
      forall l | l in FullFillLegs(r, e)
        ensures if r.side == Order(SELL) then l.qty < 0.0 else l.qty > 0.0
      {
        FillLegsOneSign(r, own, e, l);
      }
      if r.side == Order(SELL) {
        SalesTake(FullFillLegs(r, e), cell, s);
        SignedResidual(r.residual, r.side, cell);
      } else {
        PurchasesTakeNothing(FullFillLegs(r, e), cell, s);
      }
    }
  }

  lemma SymbolTakesWithin(own: string, intents: seq<Intent>, price: real, e: Execution, cell: string, s: string)
    requires ValidIntents(intents) && WholeIntents(intents)
    ensures var r := NetOf(own, OfSymbol(intents, own), price);
      TakesWithin(r, own, FullFillLegs(r, e), cell, s, SellDemand(intents, cell, s))
  {
    hide NetOf, OfSide, FullFillLegs;
    GroupOfSymbol(intents, own);
    SymbolCrossesWithin(own, intents, price, cell, s);
    FillTakes(own, OfSymbol(intents, own), price, e, cell, s);
    SalesWithinDemand(own, OfSymbol(intents, own), price, cell);
    DemandOfGroup(intents, cell, own);
    forall c | c in NetOf(own, OfSymbol(intents, own), price).crosses
      ensures c.symbol == own
    {
      CrossesOfSymbol(own, OfSymbol(intents, own), price, c);
    }
    OwnCrosses(NetOf(own, OfSymbol(intents, own), price).crosses, own, cell, s);
  }

  // ----- the whole batch -----

  /** The fills made: none yet, or all of them. */
  ghost function LegsOf(results: seq<SymbolNet>, fills: string -> Execution, filled: bool): seq<Leg> {
    if filled then AllFillLegs(results, fills) else []
  }

  ghost function FillOf(r: SymbolNet, fills: string -> Execution, filled: bool): seq<Leg> {
    if filled then FullFillLegs(r, fills(r.symbol)) else []
  }

  ghost predicate AllPositive(crosses: seq<Cross>) {
    forall c :: c in crosses ==> c.qty > 0.0
  }

  lemma OneMoreTakes(
    before: seq<SymbolNet>, r: SymbolNet, fills: string -> Execution, filled: bool, cell: string, s: string)
    ensures var after := before + [r];
      && AllCrosses(after) == AllCrosses(before) + r.crosses
      && SumBy(AllCrosses(after), SoldIn(cell, s)) == SumBy(AllCrosses(before), SoldIn(cell, s)) + SumBy(r.crosses, SoldIn(cell, s))
      && Taken(LegsOf(after, fills, filled), cell, s) == Taken(LegsOf(before, fills, filled), cell, s) + Taken(FillOf(r, fills, filled), cell, s)
  {
    hide FullFillLegs;
    assert (before + [r])[..|before|] == before;
    SumAppend(AllCrosses(before), r.crosses, SoldIn(cell, s));
    SumAppend(LegsOf(before, fills, filled), FillOf(r, fills, filled), TakenFrom(cell, s));
  }

  lemma {:induction false} ResultsTakeWithin(
    symbols: seq<string>, results: seq<SymbolNet>, fills: string -> Execution, filled: bool, cell: string, s: string, demand: real)
    requires |results| == |symbols| && demand >= 0.0
    requires forall k :: 0 <= k < |symbols| ==>
      TakesWithin(results[k], symbols[k], FillOf(results[k], fills, filled), cell, s, demand)
    requires forall i, j :: 0 <= i < j < |symbols| ==> symbols[i] != symbols[j]
    ensures AllPositive(AllCrosses(results))
    ensures SumBy(AllCrosses(results), SoldIn(cell, s)) + Taken(LegsOf(results, fills, filled), cell, s)
         <= (if s in symbols then demand else 0.0)
  {
    hide FullFillLegs, SoldIn, TakenFrom;
    if results != [] {
      var n := |results| - 1;
      assert results == results[..n] + [results[n]] && symbols == symbols[..n] + [symbols[n]];
      assert TakesWithin(results[n], symbols[n], FillOf(results[n], fills, filled), cell, s, demand);
      ResultsTakeWithin(symbols[..n], results[..n], fills, filled, cell, s, demand);
      OneMoreTakes(results[..n], results[n], fills, filled, cell, s);
    }
  }

  lemma DemandNotNegative(intents: seq<Intent>, cell: string, s: string)
    requires ValidIntents(intents)
    ensures SellDemand(intents, cell, s) >= 0.0
  {
    SumNonNegative(intents, SellsFrom(cell, s));
  }

  /** All crosses and, if made, all fills of a batch take no more from a cell than its own sales ask for. */
  lemma BatchTakesWithin(
    intents: seq<Intent>, prices: string -> real, fills: string -> Execution, filled: bool, cell: string, s: string)
    requires ValidIntents(intents) && (filled ==> WholeIntents(intents))
    ensures var results := NetAll(intents, prices);
      Taken(CrossLegs(results) + LegsOf(results, fills, filled), cell, s) <= SellDemand(intents, cell, s)
  {
    hide NetOf, OfSymbol, FullFillLegs, AllCrosses, LegsOf, SoldIn, TakenFrom, SellDemand;
    var symbols, demand := SymbolsOf(intents), SellDemand(intents, cell, s);
    var results := NetFirst(symbols, intents, prices, |symbols|);
    forall k | 0 <= k < |symbols|
      ensures TakesWithin(results[k], symbols[k], FillOf(results[k], fills, filled), cell, s, demand)
    {
      NetFirstAt(symbols, intents, prices, |symbols|, k);
      NamedAfter(symbols[k], OfSymbol(intents, symbols[k]), prices(symbols[k]));
      if filled {
        SymbolTakesWithin(symbols[k], intents, prices(symbols[k]), fills(symbols[k]), cell, s);
      } else {
        SymbolCrossesWithin(symbols[k], intents, prices(symbols[k]), cell, s);
      }
    }
    SymbolsListed(intents, s);
    DemandNotNegative(intents, cell, s);
    ResultsTakeWithin(symbols, results, fills, filled, cell, s, demand);
    CrossesTake(AllCrosses(results), cell, s);
    SumAppend(CrossLegs(results), LegsOf(results, fills, filled), TakenFrom(cell, s));
    SumAppend(SaleLegs(AllCrosses(results)), PurchaseLegs(AllCrosses(results)), TakenFrom(cell, s));
  }

  lemma NamedAfter(own: string, g: seq<Intent>, price: real)
    ensures NetOf(own, g, price).symbol == own
  {
  }

  /**
   A batch that passes netting's no-short check passes the share check of posting on the
   same cells: its crosses always, and in whole units its crosses together with full fills
   of every residual order. Every cross is backed by shares its seller holds.
   */
  lemma AcceptedBatchIsCovered(book: Book, intents: seq<Intent>, prices: string -> real, fills: string -> Execution)
    requires ValidIntents(intents) && NoCellShort(intents, book)
    ensures SalesCovered(book, CrossLegs(NetAll(intents, prices)))
    ensures WholeIntents(intents) ==> SalesCovered(book, ClearingLegs(intents, prices, fills))
  {
    hide NetAll, CrossLegs, AllFillLegs, Taken, SellDemand;
    var results := NetAll(intents, prices);
    assert CrossLegs(results) + LegsOf(results, fills, false) == CrossLegs(results);
    forall c, s | c in book
      ensures Taken(CrossLegs(results), c, s) <= Holding(book, c, s) + EPS
      ensures WholeIntents(intents) ==> Taken(ClearingLegs(intents, prices, fills), c, s) <= Holding(book, c, s) + EPS
    {
      BatchTakesWithin(intents, prices, fills, false, c, s);
      if WholeIntents(intents) {
        BatchTakesWithin(intents, prices, fills, true, c, s);
      }
    }
  }

  // ----- an accepted batch whose crosses are interrupted -----

  const TENS: string -> real := (s: string) => 10.0

  function DustBuy(held: real): Intent {
    Intent("b1", "B", "X", BUY, held + 0.7 * EPS)
  }

  function DustSells(held: real): seq<Intent> {
    [Intent("s1", "A", "X", SELL, held - 0.5 * EPS), Intent("s2", "A", "X", SELL, 1.2 * EPS)]
  }

  /** A sells its holding in two parts, and less than a tolerance too much; B buys both. */
  function DustIntents(held: real): seq<Intent> {
    [DustBuy(held)] + DustSells(held)
  }

  lemma DustSorted(held: real)
    ensures Sorted(DustIntents(held), BUY) == [DustBuy(held)]
    ensures Sorted(DustIntents(held), SELL) == DustSells(held)
  {
    var all := DustIntents(held);
    assert all[..2] == [all[0], all[1]] && all[..2][..1] == [all[0]] && all[..1][..0] == [];
    assert OfSide(all[..2][..1], BUY) == [all[0]] && OfSide(all[..2][..1], SELL) == [];
    assert OfSide(all[..2], BUY) == [all[0]] && OfSide(all[..2], SELL) == [all[1]];
    assert OfSide(all, BUY) == [all[0]] && OfSide(all, SELL) == DustSells(held);
    assert [all[0]][1..] == [] && DustSells(held)[1..] == [all[2]] && [all[2]][1..] == [];
    assert SortById([all[2]]) == [all[2]];
  }

  lemma DustMatched(held: real)
    requires held > 2.0 * EPS
    ensures NetOf("X", DustIntents(held), 10.0).crosses == DustCrosses(held)
  {
    hide SortById, OfSide;
    DustSorted(held);
    var buys, sells := [DustBuy(held)], DustSells(held);
    var first := Start(buys, sells);
    var second := Advance(buys, sells, first);
    assert second == Heads(0, 1, 1.2 * EPS, 1.2 * EPS);
    var last := Advance(buys, sells, second);
    assert Greedy(10.0, buys, sells, last).crosses == [];
    assert Greedy(10.0, buys, sells, second).crosses == [DustCrosses(held)[1]] + [];
  }

  lemma DustSymbols(held: real)
    ensures SymbolsOf(DustIntents(held)) == ["X"] && OfSymbol(DustIntents(held), "X") == DustIntents(held)
  {
    var all := DustIntents(held);
    assert all[..2] == [all[0], all[1]] && all[..2][..1] == [all[0]] && all[..1][..0] == [];
    assert SymbolsOf(all[..2][..1]) == ["X"] && SymbolsOf(all[..2]) == ["X"];
    assert OfSymbol(all[..2][..1], "X") == [all[0]] && OfSymbol(all[..2], "X") == [all[0], all[1]];
  }

  lemma OneSymbol(all: seq<Intent>)
    requires SymbolsOf(all) == ["X"] && OfSymbol(all, "X") == all
    ensures AllCrosses(NetAll(all, TENS)) == NetOf("X", all, 10.0).crosses
  {
    hide NetOf, SymbolsOf, OfSymbol;
    var r := NetOf("X", all, 10.0);
    assert NetFirst(["X"], all, TENS, 0) == [];
    assert NetAll(all, TENS) == [r];
    assert [r][..0] == [] && AllCrosses([r]) == [] + r.crosses;
  }

  lemma DustNetted(held: real)
    requires held > 2.0 * EPS
    ensures AllCrosses(NetAll(DustIntents(held), TENS)) == DustCrosses(held)
  {
    hide *;
    DustSymbols(held);
    DustMatched(held);
    OneSymbol(DustIntents(held));
  }

  lemma DustAccepted(held: real)
    requires held > 2.0 * EPS
    ensures var all, book := DustIntents(held), DustBook(held);
      ValidIntents(all) && UniqueIds(all) && KnownCells(all, book) && NoCellShort(all, book)
  {
    var all, book := DustIntents(held), DustBook(held);
    assert all[..2] == [all[0], all[1]] && all[..2][..1] == [all[0]] && all[..1][..0] == [];
    forall c, s | c in book
      ensures SellDemand(all, c, s) <= Holding(book, c, s) + EPS
    {
      SumPrefix(all, 0, SellsFrom(c, s));
      SumPrefix(all, 1, SellsFrom(c, s));
      SumPrefix(all, 2, SellsFrom(c, s));
      assert all[..0] == [] && all[..3] == all;
    }
  }

  /**
   Netting accepts this batch for every holding, its crosses pass the check made before
   posting, and posting them still stops half way: the first sale leaves less than the
   tolerance, so its position is closed when the second arrives.
   */
  lemma AcceptedBatchIsInterrupted(held: real)
    requires held > 2.0 * EPS
    ensures var all, book := DustIntents(held), DustBook(held);
      && SoundBook(book) && ValidIntents(all) && UniqueIds(all) && KnownCells(all, book) && NoCellShort(all, book)
      && var legs := CrossLegs(NetAll(all, TENS));
        Addressed(legs, book) && Validated(book, legs) && ApplyLegs(book, legs).refusal.Stopped?
  {
    hide *;
    DustAccepted(held);
    DustNetted(held);
    DustInterruptsValidatedCrosses(held);
    DustLegsAre(held);
  }

  lemma DustLegsAre(held: real)
    requires AllCrosses(NetAll(DustIntents(held), TENS)) == DustCrosses(held)
    ensures CrossLegs(NetAll(DustIntents(held), TENS)) == DustBatch(held)
  {
  }
}
