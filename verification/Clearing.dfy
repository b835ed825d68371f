/**
 The whole clearing of a batch: netting, internal crosses, and a full fill of every
 residual order, taken together (services/capital_cells/netting.py and
 services/capital_cells/fill_allocation.py).
 */
module Clearing {
  import opened Numeric
  import opened Sums
  import opened Intents
  import opened Matching
  import opened Netting
  import opened NettingEngine
  import opened CellLedgers
  import opened Batches
  import opened Posting
  import opened FillAllocation
  import opened FillPosting

  /** The price and fees at which the broker fills a symbol's net order. */
  datatype Execution = Execution(price: real, fees: real)

  function AllCrosses(results: seq<SymbolNet>): seq<Cross> {
    if results == [] then [] else AllCrosses(results[..|results| - 1]) + results[|results| - 1].crosses
  }

  ghost function CrossLegs(results: seq<SymbolNet>): seq<Leg> {
    SaleLegs(AllCrosses(results)) + PurchaseLegs(AllCrosses(results))
  }

  /** The legs of the full fill of one symbol's net order, if it has one. */
  ghost function FullFillLegs(r: SymbolNet, e: Execution): seq<Leg> {
    if r.side == NoOrder then []
    else
      match AllocationOf(r.residual, r.qty, e.price, e.fees)
      case Allocated(legs) => PostingOrder(legs)
      case _ => []
  }

  ghost function AllFillLegs(results: seq<SymbolNet>, fills: string -> Execution): seq<Leg> {
    if results == [] then []
    else
      var n := |results| - 1;
      AllFillLegs(results[..n], fills) + FullFillLegs(results[n], fills(results[n].symbol))
  }

  /** Everything the clearing posts: the crosses, then symbol by symbol the fills. */
  ghost function ClearingLegs(intents: seq<Intent>, prices: string -> real, fills: string -> Execution): seq<Leg> {
    CrossLegs(NetAll(intents, prices)) + AllFillLegs(NetAll(intents, prices), fills)
  }

  // ----- the shares each part brings -----

  ghost function CrossShares(cell: string, symbol: string): Cross -> real {
    (c: Cross) => if c.symbol != symbol then 0.0
                  else (if c.buyCell == cell then c.qty else 0.0) - (if c.sellCell == cell then c.qty else 0.0)
  }

  lemma {:induction false} CrossLegShares(crosses: seq<Cross>, cell: string, symbol: string)
    ensures SumBy(SaleLegs(crosses), SharesTo(cell, symbol)) + SumBy(PurchaseLegs(crosses), SharesTo(cell, symbol))
         == SumBy(crosses, CrossShares(cell, symbol))
  {
    if crosses != [] {
      var n := |crosses| - 1;
      CrossLegShares(crosses[..n], cell, symbol);
      assert SaleLegs(crosses)[..n] == SaleLegs(crosses[..n]);
      assert PurchaseLegs(crosses)[..n] == PurchaseLegs(crosses[..n]);
    }
  }

  lemma {:induction false} OneSymbolShares(crosses: seq<Cross>, cell: string, own: string, symbol: string)
    requires forall c :: c in crosses ==> c.symbol == own
    ensures SumBy(crosses, CrossShares(cell, symbol)) == if own == symbol then CrossedFor(crosses, cell) else 0.0
  {
    if crosses != [] {
      OneSymbolShares(crosses[..|crosses| - 1], cell, own, symbol);
    }
  }

  lemma CrossesOfSymbol(symbol: string, intents: seq<Intent>, price: real, c: Cross)
    requires forall i :: i in intents ==> i.symbol == symbol
    requires c in NetOf(symbol, intents, price).crosses
    ensures c.symbol == symbol && c.qty > EPS && c.price == price
    ensures exists i :: i in intents && i.cell == c.buyCell
    ensures exists i :: i in intents && i.cell == c.sellCell
  {
    var buys, sells := Sorted(intents, BUY), Sorted(intents, SELL);
    GreedyCrossShape(price, buys, sells, Start(buys, sells), c);
    var x :| x in buys && x.symbol == c.symbol && x.cell == c.buyCell;
    var y :| y in sells && y.cell == c.sellCell;
    SortedShape(intents, BUY, x);
    SortedShape(intents, SELL, y);
  }

  /** The residual of one symbol is one order. */
  lemma ResidualIsOneOrder(symbol: string, intents: seq<Intent>, price: real)
    requires ValidIntents(intents) && WholeIntents(intents) && forall i :: i in intents ==> i.symbol == symbol
    ensures var r := NetOf(symbol, intents, price);
            && ValidIntents(r.residual) && OneOrder(r.residual)
            && (forall x :: x in r.residual ==> r.side == Order(x.side) && x.symbol == symbol && exists i :: i in intents && i.cell == x.cell)
  {
    var r := NetOf(symbol, intents, price);
    forall x | x in r.residual
      ensures x.Valid() && r.side == Order(x.side) && x.symbol == symbol && exists i :: i in intents && i.cell == x.cell
    {
      ResidualSide(symbol, intents, price, x);
    }
  }

  /** A full fill brings every cell exactly what the residual still owed it. */
  lemma FillShares(symbol: string, intents: seq<Intent>, price: real, e: Execution, cell: string, s: string)
    requires ValidIntents(intents) && WholeIntents(intents) && forall i :: i in intents ==> i.symbol == symbol
    ensures var r := NetOf(symbol, intents, price);
            && SumBy(FullFillLegs(r, e), SharesTo(cell, s)) == (if s == symbol then SumBy(r.residual, SignedFor(cell)) else 0.0)
            && WholeLegs(FullFillLegs(r, e))
            && (forall l :: l in FullFillLegs(r, e) ==> exists i :: i in intents && i.cell == l.cell)
  {
    var r := NetOf(symbol, intents, price);
    NetPreservesMeaning(symbol, intents, price, cell);
    ResidualIsOneOrder(symbol, intents, price);
    if r.side != NoOrder {
      FullFill(r.residual, e.price, e.fees, cell);
      var legs := AllocationOf(r.residual, r.qty, e.price, e.fees).legs;
      AllocationsFollowResidual(r, legs, symbol, r.qty, e);
      PostingShares(legs, cell, s);
      SignedResidual(r.residual, r.side, cell);
      OneSideShares(legs, r.side, symbol, cell, s);
      WholeFillLegs(legs);
      forall l | l in PostingOrder(legs)
        ensures exists i :: i in intents && i.cell == l.cell
      {
        LegFollowsIntent(r, legs, l, intents);
      }
    }
  }

  lemma AllocationsFollowResidual(r: SymbolNet, legs: seq<Allocation>, symbol: string, total: real, e: Execution)
    requires total != 0.0 && WholeIntents(r.residual)
    requires forall x :: x in r.residual ==> r.side == Order(x.side) && x.symbol == symbol
    requires forall a :: a in legs ==> exists i :: i in r.residual && a == OwnPiece(i, total, e.price, e.fees)
    ensures forall a :: a in legs ==> r.side == Order(a.side) && a.symbol == symbol
    ensures WholeAllocations(legs)
  {
  }

  lemma LegFollowsIntent(r: SymbolNet, legs: seq<Allocation>, l: Leg, intents: seq<Intent>)
    requires l in PostingOrder(legs)
    requires forall a :: a in legs ==> exists x :: x in r.residual && a.cell == x.cell
    requires forall x :: x in r.residual ==> exists i :: i in intents && i.cell == x.cell
    ensures exists i :: i in intents && i.cell == l.cell
  {
    if l in FillLegs(legs, SELL) { FillLegMembers(legs, SELL, l); } else { FillLegMembers(legs, BUY, l); }
    var a :| a in legs && l == FillLeg(a);
    var x :| x in r.residual && a.cell == x.cell;
  }

  lemma {:induction false} OneSideShares(
    legs: seq<Allocation>, side: BrokerSide, symbol: string, cell: string, s: string)
    requires forall a :: a in legs ==> side == Order(a.side) && a.symbol == symbol
    ensures SumBy(legs, SignedQtyTo(cell, s))
         == if s != symbol then 0.0 else if side == Order(BUY) then SumBy(legs, AllocatedTo(cell)) else -SumBy(legs, AllocatedTo(cell))
  {
    if legs != [] {
      OneSideShares(legs[..|legs| - 1], side, symbol, cell, s);
    }
  }

  // ----- all symbols -----

  lemma GroupOfSymbol(intents: seq<Intent>, s: string)
    requires ValidIntents(intents) && WholeIntents(intents)
    ensures var g := OfSymbol(intents, s);
            ValidIntents(g) && WholeIntents(g) && forall i :: i in g ==> i in intents && i.symbol == s
  {
    forall i | i in OfSymbol(intents, s)
      ensures i in intents && i.symbol == s
    {
      OfSymbolMembers(intents, s, i);
    }
  }

  /** The crosses and the full fill of one symbol's result together bring `asked` to (cell, s), in whole units. */
  ghost predicate Brings(r: SymbolNet, own: string, e: Execution, cell: string, s: string, asked: real) {
    && r.symbol == own && WholeCrosses(r.crosses) && WholeLegs(FullFillLegs(r, e))
    && SumBy(r.crosses, CrossShares(cell, s)) + SumBy(FullFillLegs(r, e), SharesTo(cell, s)) == if s == own then asked else 0.0
  }

  /** One symbol's result brings a cell what the symbol's intents ask for on its behalf. */
  lemma SymbolBrings(own: string, intents: seq<Intent>, price: real, e: Execution, cell: string, s: string)
    requires ValidIntents(intents) && WholeIntents(intents)
    ensures Brings(NetOf(own, OfSymbol(intents, own), price), own, e, cell, s, SumBy(OfSymbol(intents, s), SignedFor(cell)))
  {
    var g := OfSymbol(intents, own);
    GroupOfSymbol(intents, own);
    NetPreservesMeaning(own, g, price, cell);
    FillShares(own, g, price, e, cell, s);
    forall c | c in NetOf(own, g, price).crosses
      ensures c.symbol == own
    {
      CrossesOfSymbol(own, g, price, c);
    }
    OneSymbolShares(NetOf(own, g, price).crosses, cell, own, s);
  }

  /** These crosses and legs together bring `total` to (cell, s), in whole units. */
  ghost predicate BringTogether(crosses: seq<Cross>, legs: seq<Leg>, cell: string, s: string, total: real) {
    && WholeCrosses(crosses) && WholeLegs(legs)
    && SumBy(crosses, CrossShares(cell, s)) + SumBy(legs, SharesTo(cell, s)) == total
  }

  lemma OneMoreBrings(
    crosses: seq<Cross>, legs: seq<Leg>, r: SymbolNet, own: string, e: Execution, cell: string, s: string, total: real, asked: real)
    requires BringTogether(crosses, legs, cell, s, total) && Brings(r, own, e, cell, s, asked)
    ensures BringTogether(crosses + r.crosses, legs + FullFillLegs(r, e), cell, s, total + if s == own then asked else 0.0)
  {
    hide FullFillLegs, CrossShares, SharesTo, Whole;
    SumAppend(crosses, r.crosses, CrossShares(cell, s));
    SumAppend(legs, FullFillLegs(r, e), SharesTo(cell, s));
  }

  /** If every result brings its share, all of them together bring the share of the one symbol asked about. */
  lemma {:induction false} ResultsBring(
    symbols: seq<string>, results: seq<SymbolNet>, fills: string -> Execution, cell: string, s: string, asked: real)
    requires |results| == |symbols|
    requires forall k :: 0 <= k < |symbols| ==> Brings(results[k], symbols[k], fills(symbols[k]), cell, s, asked)
    requires forall i, j :: 0 <= i < j < |symbols| ==> symbols[i] != symbols[j]
    ensures BringTogether(AllCrosses(results), AllFillLegs(results, fills), cell, s, if s in symbols then asked else 0.0)
  {
    hide FullFillLegs, CrossShares, SharesTo, WholeCrosses, WholeLegs;
    if results != [] {
      var n := |results| - 1;
      var r, before := results[n], results[..n];
      assert Brings(r, symbols[n], fills(symbols[n]), cell, s, asked);
      ResultsBring(symbols[..n], before, fills, cell, s, asked);
      OneMoreBrings(AllCrosses(before), AllFillLegs(before, fills), r, symbols[n], fills(symbols[n]), cell, s,
                    if s in symbols[..n] then asked else 0.0, asked);
      assert symbols == symbols[..n] + [symbols[n]];
    } else {
      NothingBrings(cell, s);
    }
  }

  lemma NothingBrings(cell: string, s: string)
    ensures BringTogether([], [], cell, s, 0.0)
  {
  }

  lemma {:induction false} NetFirstAt(
    symbols: seq<string>, intents: seq<Intent>, prices: string -> real, n: nat, k: nat)
    requires k < n <= |symbols|
    ensures NetFirst(symbols, intents, prices, n)[k] == NetOf(symbols[k], OfSymbol(intents, symbols[k]), prices(symbols[k]))
  {
    hide NetOf, OfSymbol;
    if k < n - 1 {
      NetFirstAt(symbols, intents, prices, n - 1, k);
    }
  }

  /** The whole batch brings (cell, symbol) the signed sum of the cell's own intents. */
  lemma BatchBrings(
    intents: seq<Intent>, prices: string -> real, fills: string -> Execution, cell: string, symbol: string)
    requires ValidIntents(intents) && WholeIntents(intents)
    ensures var results := NetAll(intents, prices);
            && SumBy(AllCrosses(results), CrossShares(cell, symbol)) + SumBy(AllFillLegs(results, fills), SharesTo(cell, symbol))
               == SumBy(intents, SignedIn(cell, symbol))
            && WholeCrosses(AllCrosses(results)) && WholeLegs(AllFillLegs(results, fills))
  {
    var symbols, asked := SymbolsOf(intents), SumBy(OfSymbol(intents, symbol), SignedFor(cell));
    var results := NetFirst(symbols, intents, prices, |symbols|);
    forall k | 0 <= k < |symbols|
      ensures Brings(results[k], symbols[k], fills(symbols[k]), cell, symbol, asked)
    {
      NetFirstAt(symbols, intents, prices, |symbols|, k);
      SymbolBrings(symbols[k], intents, prices(symbols[k]), fills(symbols[k]), cell, symbol);
    }
    SymbolsListed(intents, symbol);
    ResultsBring(symbols, results, fills, cell, symbol, asked);
    SignedOfSymbol(intents, cell, symbol);
  }

  // ----- only known cells are named -----

  ghost predicate NamesOnly(r: SymbolNet, e: Execution, book: Book) {
    CrossesWithin(r.crosses, book) && Addressed(FullFillLegs(r, e), book)
  }

  ghost predicate CrossesWithin(crosses: seq<Cross>, book: Book) {
    forall c :: c in crosses ==> c.buyCell in book && c.sellCell in book
  }

  lemma SymbolNamesOnly(own: string, intents: seq<Intent>, price: real, e: Execution, book: Book)
    requires ValidIntents(intents) && WholeIntents(intents) && KnownCells(intents, book)
    ensures NamesOnly(NetOf(own, OfSymbol(intents, own), price), e, book)
  {
    var g := OfSymbol(intents, own);
    var r := NetOf(own, g, price);
    GroupOfSymbol(intents, own);
    FillShares(own, g, price, e, "", "");
    forall c | c in r.crosses
      ensures c.buyCell in book && c.sellCell in book
    {
      CrossesOfSymbol(own, g, price, c);
    }
  }

  lemma {:induction false} ResultsNameOnly(results: seq<SymbolNet>, fills: string -> Execution, book: Book)
    requires forall k :: 0 <= k < |results| ==> NamesOnly(results[k], fills(results[k].symbol), book)
    ensures CrossesWithin(AllCrosses(results), book) && Addressed(AllFillLegs(results, fills), book)
  {
    if results != [] {
      ResultsNameOnly(results[..|results| - 1], fills, book);
    }
  }

  lemma ClearingNamesKnownCells(book: Book, intents: seq<Intent>, prices: string -> real, fills: string -> Execution)
    requires ValidIntents(intents) && WholeIntents(intents) && KnownCells(intents, book)
    ensures Addressed(ClearingLegs(intents, prices, fills), book)
  {
    var symbols := SymbolsOf(intents);
    var results := NetFirst(symbols, intents, prices, |symbols|);
    forall k | 0 <= k < |results|
      ensures NamesOnly(results[k], fills(results[k].symbol), book)
    {
      NetFirstAt(symbols, intents, prices, |symbols|, k);
      SymbolNamesOnly(symbols[k], intents, prices(symbols[k]), fills(symbols[k]), book);
    }
    ResultsNameOnly(results, fills, book);
    CrossLegsAddressed(AllCrosses(results), book);
  }

  lemma CrossLegsAddressed(crosses: seq<Cross>, book: Book)
    requires CrossesWithin(crosses, book)
    ensures Addressed(SaleLegs(crosses) + PurchaseLegs(crosses), book)
  {
    forall i | 0 <= i < |crosses|
      ensures crosses[i].buyCell in book && crosses[i].sellCell in book
    {
      assert crosses[i] in crosses;
    }
  }

  /**
   Netting preserves meaning. For any batch in whole micro-units: if the crosses and a
   full fill of every residual order are all posted, every cell's position in every
   symbol has changed by exactly the signed sum of that cell's own gross intents.
   */
  lemma ClearingPreservesMeaning(
    book: Book, intents: seq<Intent>, prices: string -> real, fills: string -> Execution, cell: string, symbol: string)
    requires SoundBook(book) && WholeBook(book) && ValidIntents(intents) && WholeIntents(intents)
    requires KnownCells(intents, book)
    requires Addressed(ClearingLegs(intents, prices, fills), book) ==> ApplyLegs(book, ClearingLegs(intents, prices, fills)).refusal == NoRefusal
    ensures Addressed(ClearingLegs(intents, prices, fills), book)
    ensures var after := ApplyLegs(book, ClearingLegs(intents, prices, fills)).book;
            Holding(after, cell, symbol) == Holding(book, cell, symbol) + SumBy(intents, SignedIn(cell, symbol))
  {
    BatchBrings(intents, prices, fills, cell, symbol);
    ClearingNamesKnownCells(book, intents, prices, fills);
    PostedSharesAddUp(book, NetAll(intents, prices), fills, cell, symbol);
  }

  lemma PostedSharesAddUp(book: Book, results: seq<SymbolNet>, fills: string -> Execution, cell: string, symbol: string)
    requires SoundBook(book) && WholeBook(book)
    requires WholeCrosses(AllCrosses(results)) && WholeLegs(AllFillLegs(results, fills))
    requires Addressed(CrossLegs(results) + AllFillLegs(results, fills), book)
    requires ApplyLegs(book, CrossLegs(results) + AllFillLegs(results, fills)).refusal == NoRefusal
    ensures Holding(ApplyLegs(book, CrossLegs(results) + AllFillLegs(results, fills)).book, cell, symbol)
         == Holding(book, cell, symbol)
          + (SumBy(AllCrosses(results), CrossShares(cell, symbol)) + SumBy(AllFillLegs(results, fills), SharesTo(cell, symbol)))
  {
    var crosses, fillLegs := AllCrosses(results), AllFillLegs(results, fills);
    WholeCrossLegs(crosses);
    SumAppend(CrossLegs(results), fillLegs, SharesTo(cell, symbol));
    SumAppend(SaleLegs(crosses), PurchaseLegs(crosses), SharesTo(cell, symbol));
    CrossLegShares(crosses, cell, symbol);
    LegsMoveShares(book, CrossLegs(results) + fillLegs, cell, symbol);
  }
}
