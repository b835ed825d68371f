/**
 All-or-nothing posting: a batch of sale legs followed by purchase legs is checked
 as a whole and then posted leg by leg (services/capital_cells/netting.py and
 services/capital_cells/fill_allocation.py). When does the check guarantee that no
 leg is refused half way?
 */
module Batches {
  import opened Numeric
  import opened Sums
  import opened CellLedgers

  /** The shares a leg takes from (cell, symbol); 0 for a purchase. */
  ghost function TakenFrom(cell: string, symbol: string): Leg -> real {
    (l: Leg) => if l.cell == cell && l.symbol == symbol && l.qty < 0.0 then -l.qty else 0.0
  }

  ghost function Taken(legs: seq<Leg>, cell: string, symbol: string): real {
    SumBy(legs, TakenFrom(cell, symbol))
  }

  /** Sales bring cash and purchases cost cash; none is empty. */
  ghost predicate ProperSale(l: Leg) {
    l.qty < 0.0 && -Notional(l.qty, l.price) - l.fees >= 0.0
  }

  ghost predicate ProperPurchase(l: Leg) {
    l.qty > 0.0 && -Notional(l.qty, l.price) - l.fees <= 0.0
  }

  ghost predicate ProperBatch(book: Book, sales: seq<Leg>, purchases: seq<Leg>) {
    && SoundBook(book) && Addressed(sales, book) && Addressed(purchases, book)
    && (forall l :: l in sales ==> ProperSale(l))
    && (forall l :: l in purchases ==> ProperPurchase(l))
  }

  /** The check made before posting: total sales per (cell, symbol) and net cash per cell. */
  ghost predicate Validated(book: Book, legs: seq<Leg>) {
    && (forall c, s :: c in book ==> Taken(legs, c, s) <= Holding(book, c, s) + EPS)
    && (forall c :: c in book ==> book[c].cash + SumBy(legs, CashTo(c)) >= -EPS)
  }

  /** When sale `j` is reached its position is still open. */
  ghost predicate StillOpen(book: Book, sales: seq<Leg>, j: nat)
    requires j < |sales|
  {
    var leg := sales[j];
    var before := Taken(sales[..j], leg.cell, leg.symbol);
    && leg.cell in book && leg.symbol in book[leg.cell].positions
    && (before == 0.0 || book[leg.cell].PositionQty(leg.symbol) - before > EPS)
  }

  /** The position of (cell, symbol) after `sold` shares of it have gone. */
  ghost predicate LotAfter(start: CellState, now: CellState, symbol: string, sold: real) {
    if sold == 0.0 then
      (symbol in now.positions <==> symbol in start.positions) && now.PositionQty(symbol) == start.PositionQty(symbol)
    else if start.PositionQty(symbol) - sold > EPS then
      symbol in now.positions && now.positions[symbol].qty == start.PositionQty(symbol) - sold
    else symbol !in now.positions
  }

  lemma TakenOneMore(legs: seq<Leg>, i: nat, cell: string, symbol: string)
    requires i < |legs|
    ensures Taken(legs[..i + 1], cell, symbol) == Taken(legs[..i], cell, symbol) + TakenFrom(cell, symbol)(legs[i])
    ensures Taken(legs[..i], cell, symbol) >= 0.0
  {
    SumPrefix(legs, i, TakenFrom(cell, symbol));
    SumNonNegative(legs[..i], TakenFrom(cell, symbol));
  }

  /** An accepted sale of `q` shares. */
  lemma SaleStep(
    start: CellState, now: CellState, kind: CellEntryKind, s: string, sold: real, q: real, price: real, fees: real)
    requires start.Sound() && now.Sound() && sold >= 0.0 && q > 0.0
    requires LotAfter(start, now, s, sold) && sold <= start.PositionQty(s) + EPS
    ensures var r := ApplyFill(now, kind, s, -q, price, fees);
            r.Posted? ==> LotAfter(start, r.value, s, sold + q) && sold + q <= start.PositionQty(s) + EPS
    ensures ApplyFill(now, kind, s, -q, price, fees).Posted? ==>
              s in start.positions && (sold == 0.0 || start.PositionQty(s) - sold > EPS)
  {
  }

  lemma SoldOneMore(start: CellState, book: Book, leg: Leg, c: string, s: string, sold: real)
    requires SoundBook(book) && leg.cell in book && c in book && start.Sound() && ProperSale(leg)
    requires sold >= 0.0 && LotAfter(start, book[c], s, sold) && sold <= start.PositionQty(s) + EPS
    requires ApplyLeg(book, leg).refusal == NoRefusal
    ensures c in ApplyLeg(book, leg).book
    ensures LotAfter(start, ApplyLeg(book, leg).book[c], s, sold + TakenFrom(c, s)(leg))
    ensures sold + TakenFrom(c, s)(leg) <= start.PositionQty(s) + EPS
  {
    hide ApplyFill;
    FillEffect(book[leg.cell], leg.kind, leg.symbol, leg.qty, leg.price, leg.fees);
    if leg.cell == c && leg.symbol == s {
      SaleStep(start, book[c], leg.kind, s, sold, -leg.qty, leg.price, leg.fees);
    }
  }

  lemma NothingSold(book: Book, c: string, s: string)
    requires SoundBook(book) && c in book
    ensures ApplyLegs(book, []) == Applied(book, NoRefusal) && Taken([], c, s) == 0.0
    ensures LotAfter(book[c], book[c], s, 0.0) && 0.0 <= Holding(book, c, s)
  {
  }

  /** While no sale is refused, positions are exactly the holdings less what was sold. */
  lemma {:induction false} SalesRun(book: Book, sales: seq<Leg>, i: nat, c: string, s: string)
    requires ProperBatch(book, sales, []) && i <= |sales| && c in book
    requires ApplyLegs(book, sales[..i]).refusal == NoRefusal
    ensures LotAfter(book[c], ApplyLegs(book, sales[..i]).book[c], s, Taken(sales[..i], c, s))
    ensures Taken(sales[..i], c, s) <= Holding(book, c, s) + EPS
    decreases i
  {
    hide ApplyLeg, ApplyLegs, LotAfter, TakenFrom, ProperSale;
    if i > 0 {
      var k := i - 1;
      OneMoreLegBack(book, sales, k);
      SalesRun(book, sales, k, c, s);
      TakenOneMore(sales, k, c, s);
      assert sales[k] in sales;
      SoldOneMore(book[c], ApplyLegs(book, sales[..k]).book, sales[k], c, s, Taken(sales[..k], c, s));
    } else {
      assert sales[..0] == [];
      NothingSold(book, c, s);
    }
  }

  lemma OneMoreLegBack(book: Book, legs: seq<Leg>, i: nat)
    requires SoundBook(book) && Addressed(legs, book) && i < |legs|
    requires ApplyLegs(book, legs[..i + 1]).refusal == NoRefusal
    ensures ApplyLegs(book, legs[..i]).refusal == NoRefusal
    ensures SoundBook(ApplyLegs(book, legs[..i]).book)
    ensures ApplyLegs(book, legs[..i + 1]) == ApplyLeg(ApplyLegs(book, legs[..i]).book, legs[i])
  {
    assert legs[..i + 1][..i] == legs[..i];
  }

  /** A prefix of an unrefused run is unrefused. */
  lemma {:induction false} UnrefusedPrefix(book: Book, legs: seq<Leg>, i: nat)
    requires SoundBook(book) && Addressed(legs, book) && i <= |legs|
    requires ApplyLegs(book, legs).refusal == NoRefusal
    ensures ApplyLegs(book, legs[..i]).refusal == NoRefusal
  {
    if ApplyLegs(book, legs[..i]).refusal.Stopped? {
      StopEarly(book, legs, i);
    }
  }

  /** Cash never falls below the tolerance while the validated batch is posted. */
  lemma CashStaysCovered(book: Book, sales: seq<Leg>, purchases: seq<Leg>, i: nat, c: string)
    requires ProperBatch(book, sales, purchases) && c in book && i <= |sales + purchases|
    requires book[c].cash + SumBy(sales + purchases, CashTo(c)) >= -EPS
    ensures book[c].cash + SumBy((sales + purchases)[..i], CashTo(c)) >= -EPS
  {
    var legs := sales + purchases;
    if i <= |sales| {
      assert legs[..i] == sales[..i];
      forall l | l in sales[..i]
        ensures CashTo(c)(l) >= 0.0
      {
        assert l in sales && ProperSale(l);
      }
      SumNonNegative(sales[..i], CashTo(c));
    } else {
      assert legs == legs[..i] + legs[i..];
      SumAppend(legs[..i], legs[i..], CashTo(c));
      assert legs[i..] == purchases[i - |sales|..];
      forall l | l in legs[i..]
        ensures CashTo(c)(l) <= 0.0
      {
        assert l in purchases && ProperPurchase(l);
      }
      SumNonPositive(legs[i..], CashTo(c));
    }
  }

  lemma {:induction false} SumNonPositive(legs: seq<Leg>, f: Leg -> real)
    requires forall l :: l in legs ==> f(l) <= 0.0
    ensures SumBy(legs, f) <= 0.0
  {
    if legs != [] {
      SumNonPositive(legs[..|legs| - 1], f);
    }
  }

  /** A sale of an open position that covers it, or any purchase, is posted as long as the cash suffices. */
  lemma FillPosts(s: CellState, leg: Leg)
    requires s.Sound() && s.cash - Notional(leg.qty, leg.price) - leg.fees >= -EPS
    requires leg.qty > 0.0 || (leg.symbol in s.positions && -leg.qty <= s.PositionQty(leg.symbol) + EPS)
    ensures ApplyFill(s, leg.kind, leg.symbol, leg.qty, leg.price, leg.fees).Posted?
  {
  }

  /** A sale reached with its position open finds enough of it. */
  lemma SaleFindsShares(book: Book, sales: seq<Leg>, purchases: seq<Leg>, i: nat)
    requires ProperBatch(book, sales, purchases) && Validated(book, sales + purchases) && i < |sales|
    requires StillOpen(book, sales, i) && ApplyLegs(book, sales[..i]).refusal == NoRefusal
    ensures sales[i].cell in ApplyLegs(book, sales[..i]).book
    ensures var leg, now := sales[i], ApplyLegs(book, sales[..i]).book[sales[i].cell];
            leg.symbol in now.positions && -leg.qty <= now.PositionQty(leg.symbol) + EPS
  {
    hide ApplyFill, ApplyLegs;
    var leg := sales[i];
    assert leg in sales && ProperSale(leg);
    SalesRun(book, sales, i, leg.cell, leg.symbol);
    TakenOneMore(sales, i, leg.cell, leg.symbol);
    TakenWithin(sales, purchases, i + 1, leg.cell, leg.symbol);
    assert Taken(sales + purchases, leg.cell, leg.symbol) <= Holding(book, leg.cell, leg.symbol) + EPS;
  }

  lemma CashSuffices(book: Book, sales: seq<Leg>, purchases: seq<Leg>, i: nat)
    requires ProperBatch(book, sales, purchases) && Validated(book, sales + purchases) && i < |sales + purchases|
    requires Addressed((sales + purchases)[..i], book) && ApplyLegs(book, (sales + purchases)[..i]).refusal == NoRefusal
    ensures (sales + purchases)[i].cell in book
    ensures var leg := (sales + purchases)[i];
            ApplyLegs(book, (sales + purchases)[..i]).book[leg.cell].cash - Notional(leg.qty, leg.price) - leg.fees >= -EPS
  {
    hide ApplyLegs, Notional;
    var legs := sales + purchases;
    var leg := legs[i];
    assert leg in legs;
    LegsMoveCash(book, legs[..i], leg.cell);
    SumPrefix(legs, i, CashTo(leg.cell));
    CashStaysCovered(book, sales, purchases, i + 1, leg.cell);
  }

  /** One leg of a validated batch, reached with its position open, is accepted. */
  lemma LegAccepted(book: Book, sales: seq<Leg>, purchases: seq<Leg>, i: nat)
    requires ProperBatch(book, sales, purchases) && Validated(book, sales + purchases)
    requires forall j :: 0 <= j < |sales| ==> StillOpen(book, sales, j)
    requires i < |sales + purchases| && ApplyLegs(book, (sales + purchases)[..i]).refusal == NoRefusal
    ensures ApplyLegs(book, (sales + purchases)[..i + 1]).refusal == NoRefusal
  {
    hide ApplyFill, StillOpen, Validated, Notional;
    var legs := sales + purchases;
    var leg := legs[i];
    assert Addressed(legs, book) && Addressed(legs[..i], book);
    OneMoreLeg(book, legs, i);
    CashSuffices(book, sales, purchases, i);
    if i < |sales| {
      assert legs[..i] == sales[..i] && leg == sales[i];
      assert StillOpen(book, sales, i);
      SaleFindsShares(book, sales, purchases, i);
    } else {
      assert leg in purchases && ProperPurchase(leg);
    }
    FillPosts(ApplyLegs(book, legs[..i]).book[leg.cell], leg);
  }

  lemma TakenWithin(sales: seq<Leg>, purchases: seq<Leg>, i: nat, c: string, s: string)
    requires i <= |sales|
    ensures Taken(sales[..i], c, s) <= Taken(sales + purchases, c, s)
  {
    assert (sales + purchases)[..i] == sales[..i];
    SumPrefixLe(sales + purchases, i, TakenFrom(c, s));
  }

  lemma {:induction false} AcceptedFrom(book: Book, sales: seq<Leg>, purchases: seq<Leg>, i: nat)
    requires ProperBatch(book, sales, purchases) && Validated(book, sales + purchases)
    requires forall j :: 0 <= j < |sales| ==> StillOpen(book, sales, j)
    requires i <= |sales + purchases|
    ensures Addressed((sales + purchases)[..i], book)
    ensures ApplyLegs(book, (sales + purchases)[..i]).refusal == NoRefusal
  {
    if i > 0 {
      AcceptedFrom(book, sales, purchases, i - 1);
      LegAccepted(book, sales, purchases, i - 1);
    }
  }

  /**
   Exactly when a batch posts without a refusal: the check passes, and no sale finds
   its position already closed by an earlier sale of the batch.
   */
  lemma PostsIff(book: Book, sales: seq<Leg>, purchases: seq<Leg>)
    requires ProperBatch(book, sales, purchases)
    ensures Addressed(sales + purchases, book)
    ensures ApplyLegs(book, sales + purchases).refusal == NoRefusal
       <==> Validated(book, sales + purchases) && forall j :: 0 <= j < |sales| ==> StillOpen(book, sales, j)
  {
    var legs := sales + purchases;
    if Validated(book, legs) && forall j :: 0 <= j < |sales| ==> StillOpen(book, sales, j) {
      AcceptedFrom(book, sales, purchases, |legs|);
      assert legs[..|legs|] == legs;
    }
    if ApplyLegs(book, legs).refusal == NoRefusal {
      PostedWasValid(book, sales, purchases);
    }
  }

  lemma PostedWasValid(book: Book, sales: seq<Leg>, purchases: seq<Leg>)
    requires ProperBatch(book, sales, purchases) && Addressed(sales + purchases, book)
    requires ApplyLegs(book, sales + purchases).refusal == NoRefusal
    ensures Validated(book, sales + purchases)
    ensures forall j :: 0 <= j < |sales| ==> StillOpen(book, sales, j)
  {
    var legs := sales + purchases;
    UnrefusedPrefix(book, legs, |sales|);
    assert legs[..|sales|] == sales == sales[..|sales|];
    forall c, s | c in book
      ensures Taken(legs, c, s) <= Holding(book, c, s) + EPS
    {
      SalesRun(book, sales, |sales|, c, s);
      PurchasesTakeNothing(book, sales, purchases, c, s);
    }
    forall c | c in book
      ensures book[c].cash + SumBy(legs, CashTo(c)) >= -EPS
    {
      LegsMoveCash(book, legs, c);
      assert ApplyLegs(book, legs).book[c].Sound();
    }
    forall j | 0 <= j < |sales|
      ensures StillOpen(book, sales, j)
    {
      SaleFoundOpen(book, sales, j);
    }
  }

  lemma PurchasesTakeNothing(book: Book, sales: seq<Leg>, purchases: seq<Leg>, c: string, s: string)
    requires ProperBatch(book, sales, purchases)
    ensures Taken(sales + purchases, c, s) == Taken(sales, c, s)
  {
    SumAppend(sales, purchases, TakenFrom(c, s));
    SumScale(purchases, TakenFrom(c, s), 0.0, TakenFrom(c, s));
  }

  lemma SaleFoundOpen(book: Book, sales: seq<Leg>, j: nat)
    requires ProperBatch(book, sales, []) && j < |sales|
    requires ApplyLegs(book, sales).refusal == NoRefusal
    ensures StillOpen(book, sales, j)
  {
    var leg := sales[j];
    assert leg in sales && ProperSale(leg);
    UnrefusedPrefix(book, sales, j + 1);
    OneMoreLegBack(book, sales, j);
    SalesRun(book, sales, j, leg.cell, leg.symbol);
    TakenOneMore(sales, j, leg.cell, leg.symbol);
    SaleStep(book[leg.cell], ApplyLegs(book, sales[..j]).book[leg.cell], leg.kind, leg.symbol,
             Taken(sales[..j], leg.cell, leg.symbol), -leg.qty, leg.price, leg.fees);
  }

  // ----- whole units: the check alone is enough -----

  lemma {:induction false} SumWhole(legs: seq<Leg>, f: Leg -> real)
    requires forall l :: l in legs ==> Whole(f(l))
    ensures Whole(SumBy(legs, f))
  {
    if legs != [] {
      SumWhole(legs[..|legs| - 1], f);
      WholeSum(SumBy(legs[..|legs| - 1], f), f(legs[|legs| - 1]));
    }
  }

  lemma HoldingWhole(book: Book, c: string, s: string)
    requires WholeBook(book)
    ensures Whole(Holding(book, c, s))
  {
  }

  lemma TakenWhole(legs: seq<Leg>, c: string, s: string)
    requires WholeLegs(legs)
    ensures Whole(Taken(legs, c, s))
  {
    forall l | l in legs
      ensures Whole(TakenFrom(c, s)(l))
    {
      WholeSum(0.0, l.qty);
    }
    SumWhole(legs, TakenFrom(c, s));
  }

  /** In whole units the check passes if and only if every leg will be accepted. */
  lemma WholeBatchPostsIffValidated(book: Book, sales: seq<Leg>, purchases: seq<Leg>)
    requires ProperBatch(book, sales, purchases) && WholeBook(book) && WholeLegs(sales)
    ensures Addressed(sales + purchases, book)
    ensures ApplyLegs(book, sales + purchases).refusal == NoRefusal <==> Validated(book, sales + purchases)
  {
    PostsIff(book, sales, purchases);
    if Validated(book, sales + purchases) {
      forall j | 0 <= j < |sales|
        ensures StillOpen(book, sales, j)
      {
        WholeSaleStaysOpen(book, sales, purchases, j);
      }
    }
  }

  lemma WholeSaleStaysOpen(book: Book, sales: seq<Leg>, purchases: seq<Leg>, j: nat)
    requires ProperBatch(book, sales, purchases) && WholeBook(book) && WholeLegs(sales)
    requires Validated(book, sales + purchases) && j < |sales|
    ensures StillOpen(book, sales, j)
  {
    var leg := sales[j];
    assert leg in sales && ProperSale(leg);
    var held := Holding(book, leg.cell, leg.symbol);
    var before, after := Taken(sales[..j], leg.cell, leg.symbol), Taken(sales[..j + 1], leg.cell, leg.symbol);
    TakenOneMore(sales, j, leg.cell, leg.symbol);
    TakenWithin(sales, purchases, j + 1, leg.cell, leg.symbol);
    HoldingWhole(book, leg.cell, leg.symbol);
    TakenWhole(sales[..j + 1], leg.cell, leg.symbol);
    WholeSum(after, held);
    WholeNoDust(after - held);
    WholeSum(0.0, leg.qty);
    WholeNoDust(-leg.qty);
  }

  // ----- totals over all cells -----

  ghost function TotalCash(book: Book): real {
    Total(map c | c in book :: book[c].cash)
  }

  ghost function TotalShares(book: Book, symbol: string): real {
    Total(map c | c in book :: book[c].PositionQty(symbol))
  }

  ghost function CashMoved(): Leg -> real {
    (l: Leg) => -Notional(l.qty, l.price) - l.fees
  }

  ghost function SharesMoved(symbol: string): Leg -> real {
    (l: Leg) => if l.symbol == symbol then l.qty else 0.0
  }

  lemma LegMovesTotalCash(book: Book, leg: Leg)
    requires SoundBook(book) && leg.cell in book
    ensures var r := ApplyLeg(book, leg);
            r.refusal == NoRefusal ==> TotalCash(r.book) == TotalCash(book) + CashMoved()(leg)
  {
    var after := ApplyLeg(book, leg).book;
    FillEffect(book[leg.cell], leg.kind, leg.symbol, leg.qty, leg.price, leg.fees);
    var cash := map c | c in book :: book[c].cash;
    TotalUpdate(cash, leg.cell, after[leg.cell].cash);
    assert (map c | c in after :: after[c].cash) == cash[leg.cell := after[leg.cell].cash];
  }

  lemma LegMovesTotalShares(book: Book, leg: Leg, symbol: string)
    requires SoundBook(book) && leg.cell in book && WholeBook(book) && Whole(leg.qty)
    ensures var r := ApplyLeg(book, leg);
            r.refusal == NoRefusal ==>
              WholeBook(r.book) && TotalShares(r.book, symbol) == TotalShares(book, symbol) + SharesMoved(symbol)(leg)
  {
    var after := ApplyLeg(book, leg).book;
    FillEffect(book[leg.cell], leg.kind, leg.symbol, leg.qty, leg.price, leg.fees);
    var shares := map c | c in book :: book[c].PositionQty(symbol);
    TotalUpdate(shares, leg.cell, after[leg.cell].PositionQty(symbol));
    assert (map c | c in after :: after[c].PositionQty(symbol)) == shares[leg.cell := after[leg.cell].PositionQty(symbol)];
  }

  /** Posted legs move total cash by exactly their cash. */
  lemma {:induction false} LegsMoveTotalCash(book: Book, legs: seq<Leg>)
    requires SoundBook(book) && Addressed(legs, book)
    requires ApplyLegs(book, legs).refusal == NoRefusal
    ensures TotalCash(ApplyLegs(book, legs).book) == TotalCash(book) + SumBy(legs, CashMoved())
    decreases |legs|
  {
    if legs != [] {
      var n := |legs| - 1;
      LegsMoveTotalCash(book, legs[..n]);
      LegMovesTotalCash(ApplyLegs(book, legs[..n]).book, legs[n]);
    }
  }

  /** In whole units they move the total of a symbol by exactly their shares. */
  lemma {:induction false} LegsMoveTotalShares(book: Book, legs: seq<Leg>, symbol: string)
    requires SoundBook(book) && Addressed(legs, book) && WholeBook(book) && WholeLegs(legs)
    requires ApplyLegs(book, legs).refusal == NoRefusal
    ensures WholeBook(ApplyLegs(book, legs).book)
    ensures TotalShares(ApplyLegs(book, legs).book, symbol) == TotalShares(book, symbol) + SumBy(legs, SharesMoved(symbol))
    decreases |legs|
  {
    if legs != [] {
      var n := |legs| - 1;
      LegsMoveTotalShares(book, legs[..n], symbol);
      assert legs[n] in legs;
      LegMovesTotalShares(ApplyLegs(book, legs[..n]).book, legs[n], symbol);
    }
  }
}
