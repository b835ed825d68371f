/**
 One cell's virtual cash and positions (services/capital_cells/ledger.py), and what a
 sequence of postings to many cells does.
 */
module CellLedgers {
  import opened Numeric
  import opened Sums
  import opened Lots

  datatype CellEntryKind = ALLOCATION | BROKER_FILL | BROKER_FEE | INTERNAL_CROSS

  datatype CellEntry = CellEntry(kind: CellEntryKind, amount: real, symbol: string, qty: real, price: real, realized: real)

  datatype CellError = ShortSell | Overdraw

  datatype Posting<+T> = Posted(value: T) | Refused(error: CellError)

  datatype CellState = CellState(
    cash: real, positions: map<string, Lot>, realized: real, entries: seq<CellEntry>)
  {
    function PositionQty(symbol: string): real {
      if symbol in positions then positions[symbol].qty else 0.0
    }

    /** No short position, no overdraft beyond the tolerance. */
    ghost predicate Sound() {
      && cash >= -EPS
      && forall symbol :: symbol in positions ==> positions[symbol].qty > 0.0
    }

    /** Every position is a whole number of micro-units. */
    ghost predicate WholeUnits() {
      forall symbol :: symbol in positions ==> Whole(positions[symbol].qty)
    }
  }

  const EMPTY_CELL := CellState(0.0, map[], 0.0, [])

  /** Hands virtual budget to a cell, or claws some back when `amount` is negative. */
  function AllocateCash(s: CellState, amount: real): Posting<CellState> {
    if s.cash + amount < -EPS then Refused(Overdraw)
    else Posted(s.(cash := s.cash + amount,
                   entries := s.entries + [CellEntry(ALLOCATION, amount, "", 0.0, 0.0, 0.0)]))
  }

  /** A fill of `qty` shares: a purchase when positive, a sale otherwise. */
  function ApplyFill(
    s: CellState, kind: CellEntryKind, symbol: string, qty: real, price: real, fees: real): Posting<CellState>
    requires symbol in s.positions ==> s.positions[symbol].qty > 0.0
  {
    var held := s.PositionQty(symbol);
    if qty <= 0.0 && (symbol !in s.positions || held + EPS < -qty) then Refused(ShortSell)
    else if s.cash - Notional(qty, price) - fees < -EPS then Refused(Overdraw)
    else
      var cost := if symbol in s.positions then s.positions[symbol].avgCost else 0.0;
      var realized := if qty > 0.0 then 0.0 else Notional(-qty, price - cost);
      var positions :=
        if qty > 0.0 then s.positions[symbol := Lot(held + qty, BlendedCost(held, cost, qty, price))]
        else if held + qty <= EPS then s.positions - {symbol}
        else s.positions[symbol := Lot(held + qty, cost)];
      var trade := CellEntry(kind, -Notional(qty, price), symbol, qty, price, realized);
      var fee := CellEntry(BROKER_FEE, -fees, symbol, 0.0, 0.0, 0.0);
      Posted(CellState(s.cash - Notional(qty, price) - fees, positions, s.realized + realized,
                       s.entries + [trade] + (if fees != 0.0 then [fee] else [])))
  }

  /** A posted fill keeps the cell sound and moves cash and one position by exactly the fill. */
  lemma FillEffect(s: CellState, kind: CellEntryKind, symbol: string, qty: real, price: real, fees: real)
    requires s.Sound()
    ensures var r := ApplyFill(s, kind, symbol, qty, price, fees);
            r.Posted? ==>
              && r.value.Sound()
              && r.value.cash == s.cash - Notional(qty, price) - fees
              && (forall other :: other != symbol ==>
                    && (other in r.value.positions <==> other in s.positions)
                    && r.value.PositionQty(other) == s.PositionQty(other))
              && Abs(r.value.PositionQty(symbol) - (s.PositionQty(symbol) + qty)) <= EPS
              && (s.WholeUnits() && Whole(qty) ==>
                    r.value.WholeUnits() && r.value.PositionQty(symbol) == s.PositionQty(symbol) + qty)
  {
    if s.WholeUnits() && Whole(qty) {
      if symbol in s.positions {
        WholeSum(s.positions[symbol].qty, qty);
        WholeNoDust(s.positions[symbol].qty + qty);
      }
    }
  }

  // ----- many cells -----

  type Book = map<string, CellState>

  ghost predicate SoundBook(book: Book) {
    forall c :: c in book ==> book[c].Sound()
  }

  ghost predicate WholeBook(book: Book) {
    forall c :: c in book ==> book[c].WholeUnits()
  }

  function Holding(book: Book, cell: string, symbol: string): real {
    if cell in book then book[cell].PositionQty(symbol) else 0.0
  }

  /** One posting to one cell: `qty` signed as in ApplyFill. */
  datatype Leg = Leg(kind: CellEntryKind, cell: string, symbol: string, qty: real, price: real, fees: real)

  /** What a run of postings leaves, and the refusal that stopped it, if any. */
  datatype Applied = Applied(book: Book, refusal: Refusal)
  datatype Refusal = NoRefusal | Stopped(error: CellError)

  function ApplyLeg(book: Book, leg: Leg): Applied
    requires leg.cell in book
    requires leg.symbol in book[leg.cell].positions ==> book[leg.cell].positions[leg.symbol].qty > 0.0
  {
    match ApplyFill(book[leg.cell], leg.kind, leg.symbol, leg.qty, leg.price, leg.fees)
    case Posted(s) => Applied(book[leg.cell := s], NoRefusal)
    case Refused(e) => Applied(book, Stopped(e))
  }

  /** Posts the legs in order and stops at the first refusal; earlier legs stay posted. */
  ghost function ApplyLegs(book: Book, legs: seq<Leg>): (r: Applied)
    requires SoundBook(book)
    requires forall l :: l in legs ==> l.cell in book
    ensures SoundBook(r.book) && r.book.Keys == book.Keys
    decreases |legs|
  {
    if legs == [] then Applied(book, NoRefusal)
    else
      var r := ApplyLegs(book, legs[..|legs| - 1]);
      if r.refusal.Stopped? then r
      else
        var leg := legs[|legs| - 1];
        FillEffect(r.book[leg.cell], leg.kind, leg.symbol, leg.qty, leg.price, leg.fees);
        ApplyLeg(r.book, leg)
  }

  ghost predicate Addressed(legs: seq<Leg>, book: Book) {
    forall l :: l in legs ==> l.cell in book
  }

  ghost predicate WholeLegs(legs: seq<Leg>) {
    forall l :: l in legs ==> Whole(l.qty)
  }

  /** The shares a leg brings to (cell, symbol). */
  ghost function SharesTo(cell: string, symbol: string): Leg -> real {
    (l: Leg) => if l.cell == cell && l.symbol == symbol then l.qty else 0.0
  }

  /** The cash a leg brings to a cell. */
  ghost function CashTo(cell: string): Leg -> real {
    (l: Leg) => if l.cell == cell then -Notional(l.qty, l.price) - l.fees else 0.0
  }

  lemma LegMoves(book: Book, leg: Leg, cell: string, symbol: string)
    requires SoundBook(book) && leg.cell in book && ApplyLeg(book, leg).refusal == NoRefusal
    ensures var r := ApplyLeg(book, leg).book;
            && r.Keys == book.Keys
            && (cell in book ==> r[cell].cash == book[cell].cash + CashTo(cell)(leg))
            && (WholeBook(book) && Whole(leg.qty) ==>
                  WholeBook(r) && Holding(r, cell, symbol) == Holding(book, cell, symbol) + SharesTo(cell, symbol)(leg))
  {
    FillEffect(book[leg.cell], leg.kind, leg.symbol, leg.qty, leg.price, leg.fees);
  }

  /** Legs posted without a refusal move every cash balance by the sum of the legs' cash. */
  lemma {:induction false} LegsMoveCash(book: Book, legs: seq<Leg>, cell: string)
    requires SoundBook(book) && Addressed(legs, book) && cell in book
    requires ApplyLegs(book, legs).refusal == NoRefusal
    ensures ApplyLegs(book, legs).book[cell].cash == book[cell].cash + SumBy(legs, CashTo(cell))
    decreases |legs|
  {
    hide ApplyLeg, CashTo, Notional;
    if legs != [] {
      var n := |legs| - 1;
      LegsMoveCash(book, legs[..n], cell);
      assert legs[n] in legs;
      LegMoves(ApplyLegs(book, legs[..n]).book, legs[n], cell, "");
    }
  }

  /** In whole units they move every position by the sum of the legs' shares. */
  lemma {:induction false} LegsMoveShares(book: Book, legs: seq<Leg>, cell: string, symbol: string)
    requires SoundBook(book) && Addressed(legs, book) && WholeBook(book) && WholeLegs(legs)
    requires ApplyLegs(book, legs).refusal == NoRefusal
    ensures WholeBook(ApplyLegs(book, legs).book)
    ensures Holding(ApplyLegs(book, legs).book, cell, symbol) == Holding(book, cell, symbol) + SumBy(legs, SharesTo(cell, symbol))
    decreases |legs|
  {
    hide ApplyLeg, Holding, WholeBook, SharesTo, Whole;
    if legs != [] {
      var n := |legs| - 1;
      LegsMoveShares(book, legs[..n], cell, symbol);
      assert legs[n] in legs;
      LegMoves(ApplyLegs(book, legs[..n]).book, legs[n], cell, symbol);
    }
  }

  // ----- the mutable ledger -----

  class CellLedger {
    const cellId: string
    var cash: real
    var positions: map<string, Lot>
    var realizedPnl: real
    var entries: seq<CellEntry>

    function State(): CellState
      reads this
    {
      CellState(cash, positions, realizedPnl, entries)
    }

    constructor (cellId: string)
      ensures this.cellId == cellId && State() == EMPTY_CELL
    {
      this.cellId := cellId;
      cash, positions, realizedPnl, entries := 0.0, map[], 0.0, [];
    }

    method Allocate(amount: real) returns (r: Refusal)
      modifies this
      ensures match AllocateCash(old(State()), amount)
              case Posted(s) => r == NoRefusal && State() == s
              case Refused(e) => r == Stopped(e) && State() == old(State())
    {
      var candidate := cash + amount;
      if candidate < -EPS {
        return Stopped(Overdraw);
      }
      entries := entries + [CellEntry(ALLOCATION, amount, "", 0.0, 0.0, 0.0)];
      cash := candidate;
      r := NoRefusal;
    }

    /** Validates the whole fill before it writes; a refused fill leaves no trace. */
    method Fill(kind: CellEntryKind, symbol: string, sideQty: real, price: real, fees: real) returns (r: Refusal)
      requires State().Sound()
      modifies this
      ensures match ApplyFill(old(State()), kind, symbol, sideQty, price, fees)
              case Posted(s) => r == NoRefusal && State() == s
              case Refused(e) => r == Stopped(e) && State() == old(State())
      ensures State().Sound()
    {
      hide Notional, BlendedCost, Abs, Whole;
      FillEffect(State(), kind, symbol, sideQty, price, fees);
      ghost var posted := ApplyFill(State(), kind, symbol, sideQty, price, fees);
      var realized := 0.0;
      var removePosition := false;
      var newLot := Lot(0.0, 0.0);
      if sideQty > 0.0 {
        var lot := if symbol in positions then positions[symbol] else Lot(0.0, 0.0);
        newLot := Lot(lot.qty + sideQty, BlendedCost(lot.qty, lot.avgCost, sideQty, price));
      } else {
        var sellQty := -sideQty;
        if symbol !in positions || positions[symbol].qty + EPS < sellQty {
          return Stopped(ShortSell);
        }
        var lot := positions[symbol];
        realized := Notional(sellQty, price - lot.avgCost);
        var remaining := lot.qty - sellQty;
        removePosition := remaining <= EPS;
        newLot := Lot(remaining, lot.avgCost);
      }
      var tradeAmount := -Notional(sideQty, price);
      if cash + tradeAmount - fees < -EPS {
        return Stopped(Overdraw);
      }
      if removePosition {
        positions := positions - {symbol};
      } else {
        positions := positions[symbol := newLot];
      }
      cash := cash + tradeAmount;
      realizedPnl := realizedPnl + realized;
      entries := entries + [CellEntry(kind, tradeAmount, symbol, sideQty, price, realized)];
      if fees != 0.0 {
        cash := cash - fees;
        entries := entries + [CellEntry(BROKER_FEE, -fees, symbol, 0.0, 0.0, 0.0)];
      }
      assert cash == posted.value.cash && realizedPnl == posted.value.realized && entries == posted.value.entries;
      assert positions == posted.value.positions;
      r := NoRefusal;
    }

    /** This cell's share of a real broker fill. */
    method RecordBrokerFill(symbol: string, sideQty: real, price: real, fees: real) returns (r: Refusal)
      requires State().Sound()
      modifies this
      ensures match ApplyFill(old(State()), BROKER_FILL, symbol, sideQty, price, fees)
              case Posted(s) => r == NoRefusal && State() == s
              case Refused(e) => r == Stopped(e) && State() == old(State())
      ensures State().Sound()
    {
      r := Fill(BROKER_FILL, symbol, sideQty, price, fees);
    }

    /** A virtual transfer against another cell; never a fee. */
    method RecordInternalCross(symbol: string, sideQty: real, price: real) returns (r: Refusal)
      requires State().Sound()
      modifies this
      ensures match ApplyFill(old(State()), INTERNAL_CROSS, symbol, sideQty, price, 0.0)
              case Posted(s) => r == NoRefusal && State() == s
              case Refused(e) => r == Stopped(e) && State() == old(State())
      ensures State().Sound()
    {
      r := Fill(INTERNAL_CROSS, symbol, sideQty, price, 0.0);
    }
  }

  type Cells = map<string, CellLedger>

  /** Each cell id has a ledger of its own. */
  ghost predicate Distinct(cells: Cells) {
    forall a, b :: a in cells && b in cells && a != b ==> cells[a] != cells[b]
  }

  ghost function BookOf(cells: Cells): (book: Book)
    reads cells.Values
    ensures book.Keys == cells.Keys
  {
    map c | c in cells :: cells[c].State()
  }

  /** Posts one leg to the ledger it names. */
  method PostLeg(cells: Cells, leg: Leg) returns (r: Refusal)
    requires Distinct(cells) && SoundBook(BookOf(cells)) && leg.cell in cells
    requires leg.kind == BROKER_FILL || (leg.kind == INTERNAL_CROSS && leg.fees == 0.0)
    modifies cells.Values
    ensures ApplyLeg(old(BookOf(cells)), leg) == Applied(BookOf(cells), r)
  {
    ghost var before := BookOf(cells);
    var cell := cells[leg.cell];
    assert before[leg.cell] == cell.State();
    if leg.kind == INTERNAL_CROSS {
      r := cell.RecordInternalCross(leg.symbol, leg.qty, leg.price);
    } else {
      r := cell.RecordBrokerFill(leg.symbol, leg.qty, leg.price, leg.fees);
    }
    assert BookOf(cells) == before[leg.cell := cell.State()];
  }

  lemma OneMoreLeg(book: Book, legs: seq<Leg>, i: nat)
    requires SoundBook(book) && Addressed(legs, book) && i < |legs|
    requires ApplyLegs(book, legs[..i]).refusal == NoRefusal
    ensures SoundBook(ApplyLegs(book, legs[..i]).book)
    ensures ApplyLegs(book, legs[..i + 1]) == ApplyLeg(ApplyLegs(book, legs[..i]).book, legs[i])
  {
    assert legs[..i + 1][..i] == legs[..i];
  }

  /** Posts the legs in order, stopping at the first refusal. */
  method PostLegs(cells: Cells, legs: seq<Leg>) returns (r: Refusal)
    requires Distinct(cells) && SoundBook(BookOf(cells)) && Addressed(legs, BookOf(cells))
    requires forall l :: l in legs ==> l.kind == BROKER_FILL || (l.kind == INTERNAL_CROSS && l.fees == 0.0)
    modifies cells.Values
    ensures ApplyLegs(old(BookOf(cells)), legs) == Applied(BookOf(cells), r)
  {
    ghost var start := BookOf(cells);
    r := NoRefusal;
    for i := 0 to |legs|
      invariant r == NoRefusal && ApplyLegs(start, legs[..i]) == Applied(BookOf(cells), r)
    {
      OneMoreLeg(start, legs, i);
      r := PostLeg(cells, legs[i]);
      if r.Stopped? {
        StopEarly(start, legs, i + 1);
        return;
      }
    }
    assert legs[..|legs|] == legs;
  }

  /** A refusal is final: the remaining legs are not looked at. */
  lemma {:induction false} StopEarly(book: Book, legs: seq<Leg>, i: nat)
    requires SoundBook(book) && Addressed(legs, book) && i <= |legs|
    requires ApplyLegs(book, legs[..i]).refusal.Stopped?
    ensures ApplyLegs(book, legs) == ApplyLegs(book, legs[..i])
    decreases |legs|
  {
    if i == |legs| {
      assert legs[..i] == legs;
    } else {
      var shorter := legs[..|legs| - 1];
      assert shorter[..i] == legs[..i];
      StopEarly(book, shorter, i);
    }
  }
}
