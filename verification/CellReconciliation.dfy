/**
 The sum of the cells against the one real ledger (services/capital_cells/reconciliation.py),
 over whole runs: funding, budgets, internal crosses and allocated broker fills.
 */
module CellReconciliation {
  import opened Numeric
  import opened Sums
  import opened Intents
  import opened Matching
  import opened CellLedgers
  import opened Batches
  import opened Posting
  import opened FillAllocation
  import opened FillPosting
  import opened ExactFills
  import opened RiskStates
  import M = MasterLedgers

  /** The cells, the master ledger, and the master cash not yet handed to any cell. */
  datatype System = System(book: Book, master: M.LedgerState, unallocated: real)

  /** The two equations the engine checks, without any tolerance, and what keeps them meaningful. */
  ghost predicate Consistent(s: System) {
    && SoundBook(s.book) && WholeBook(s.book) && s.master.Sound() && s.master.WholeUnits()
    && CashAgrees(s) && SharesAgree(s)
  }

  ghost predicate CashAgrees(s: System) {
    TotalCash(s.book) + s.unallocated == s.master.cash
  }

  ghost predicate SharesAgree(s: System) {
    forall symbol :: TotalShares(s.book, symbol) == s.master.PositionQty(symbol)
  }

  datatype Event =
    | Fund(amount: real)
    | Budget(cell: string, amount: real)
    | Transfer(crosses: seq<Cross>)
    | Trade(fill: BrokerFill, legs: seq<Allocation>)

  ghost predicate ProperEvent(e: Event) {
    match e
    case Transfer(crosses) => ProperCrosses(crosses) && WholeCrosses(crosses)
    case Trade(fill, legs) => CarriesExactly(legs, fill)
    case _ => true
  }

  ghost predicate Postable(book: Book, legs: seq<Leg>) {
    Addressed(legs, book) && Validated(book, legs)
  }

  ghost function CrossLegsOf(crosses: seq<Cross>): seq<Leg> {
    SaleLegs(crosses) + PurchaseLegs(crosses)
  }

  /**
   One event. A rejected deposit, budget, transfer or allocation changes nothing; a trade
   is posted to the cells and then recorded in the master ledger.
   */
  ghost function Step(s: System, e: Event): System
    requires SoundBook(s.book) && s.master.Sound()
  {
    match e
    case Fund(amount) =>
      var r := M.Deposit(s.master, amount);
      if r.raised then s else s.(master := r.state, unallocated := s.unallocated + amount)
    case Budget(cell, amount) =>
      if cell !in s.book then s
      else (match AllocateCash(s.book[cell], amount)
            case Posted(c) => s.(book := s.book[cell := c], unallocated := s.unallocated - amount)
            case Refused(_) => s)
    case Transfer(crosses) =>
      if !Postable(s.book, CrossLegsOf(crosses)) then s
      else s.(book := ApplyLegs(s.book, CrossLegsOf(crosses)).book)
    case Trade(fill, legs) =>
      if !Postable(s.book, PostingOrder(legs)) then s
      else s.(book := ApplyLegs(s.book, PostingOrder(legs)).book, master := Recorded(s.master, fill).state)
  }

  function Recorded(master: M.LedgerState, f: BrokerFill): M.Outcome
    requires forall s :: s in master.positions ==> master.positions[s].qty > 0.0
  {
    M.RecordFill(master, f.symbol, f.SignedQty(), f.price, f.fees)
  }

  // ----- when the master ledger turns down a fill the cells have accepted -----

  ghost predicate AcceptedByCells(s: System, e: Event)
    requires SoundBook(s.book)
  {
    e.Trade? && Postable(s.book, PostingOrder(e.legs))
  }

  ghost predicate MasterRefuses(s: System, e: Event)
    requires SoundBook(s.book) && s.master.Sound()
  {
    AcceptedByCells(s, e) && Recorded(s.master, e.fill).raised
  }

  lemma SharesNeverNegative(book: Book, symbol: string)
    requires SoundBook(book)
    ensures TotalShares(book, symbol) >= 0.0
  {
    TotalNonNegative(map c | c in book :: book[c].PositionQty(symbol));
  }

  /** A carried fill that passes the check is posted whole, and moves the totals by the fill. */
  lemma TradePosts(book: Book, f: BrokerFill, legs: seq<Allocation>, symbol: string)
    requires SoundBook(book) && WholeBook(book) && CarriesExactly(legs, f) && Postable(book, PostingOrder(legs))
    ensures var r := ApplyLegs(book, PostingOrder(legs));
            && r.refusal == NoRefusal && WholeBook(r.book) && r.book.Keys == book.Keys
            && TotalCash(r.book) == TotalCash(book) - Notional(f.SignedQty(), f.price) - f.fees
            && TotalShares(r.book, symbol) == TotalShares(book, symbol) + (if symbol == f.symbol then f.SignedQty() else 0.0)
  {
    ExactFeesCovered(legs, f);
    AllocationsAreProper(book, legs);
    WholeFillLegs(legs);
    WholeBatchPostsIffValidated(book, FillLegs(legs, SELL), FillLegs(legs, BUY));
    ExactTotals(legs, f, symbol);
    LegsMoveTotalCash(book, PostingOrder(legs));
    LegsMoveTotalShares(book, PostingOrder(legs), symbol);
  }

  /**
   The master ledger turns down a fill that every cell accepted if and only if the cash
   left over, cells and unallocated together, is below the tolerance: its own check of
   shares and cash adds nothing beyond that.
   */
  lemma MasterRefusesIff(s: System, e: Event)
    requires Consistent(s) && ProperEvent(e) && AcceptedByCells(s, e)
    ensures MasterRefuses(s, e) <==> TotalCash(ApplyLegs(s.book, PostingOrder(e.legs)).book) + s.unallocated < -EPS
  {
    var f := e.fill;
    TradePosts(s.book, f, e.legs, f.symbol);
    SharesNeverNegative(ApplyLegs(s.book, PostingOrder(e.legs)).book, f.symbol);
    assert TotalShares(s.book, f.symbol) == s.master.PositionQty(f.symbol);
    M.FillEffect(s.master, f.symbol, f.SignedQty(), f.price, f.fees);
  }

  /** Sound cells are short by at most one tolerance each. */
  lemma CashFloor(book: Book, n: nat, unallocated: real)
    requires SoundBook(book) && |book.Keys| == n && unallocated >= Dust(n - 1)
    ensures TotalCash(book) + unallocated >= -EPS
  {
    var cash := map c | c in book :: book[c].cash;
    assert cash.Keys == book.Keys && |cash| == |cash.Keys|;
    ShortByDust(cash);
  }

  lemma {:induction false} ShortByDust(cash: map<string, real>)
    requires forall c :: c in cash ==> cash[c] >= -EPS
    ensures Total(cash) + Dust(|cash|) >= 0.0
    decreases |cash|
  {
    if cash != map[] {
      var c :| c in cash && Total(cash) == cash[c] + Total(cash - {c});
      CardinalityMinus(cash, c);
      ShortByDust(cash - {c});
    }
  }

  lemma CashFloorOfZero(book: Book)
    requires forall c :: c in book ==> book[c].cash >= 0.0
    ensures TotalCash(book) >= 0.0
  {
    TotalNonNegative(map c | c in book :: book[c].cash);
  }

  /** With one tolerance per further cell held back unallocated, the master never turns a fill down. */
  lemma ReserveSuffices(s: System, e: Event)
    requires Consistent(s) && ProperEvent(e) && s.unallocated >= Dust(|s.book.Keys| - 1)
    ensures !MasterRefuses(s, e)
  {
    if AcceptedByCells(s, e) {
      MasterRefusesIff(s, e);
      CashFloor(ApplyLegs(s.book, PostingOrder(e.legs)).book, |s.book.Keys|, s.unallocated);
    }
  }

  /** With no cell overdrawn and no negative reserve it never does either. */
  lemma NoOverdraftSuffices(s: System, e: Event)
    requires Consistent(s) && ProperEvent(e) && AcceptedByCells(s, e) && s.unallocated >= 0.0
    requires forall c :: c in s.book ==> ApplyLegs(s.book, PostingOrder(e.legs)).book[c].cash >= 0.0
    ensures !MasterRefuses(s, e)
  {
    MasterRefusesIff(s, e);
    CashFloorOfZero(ApplyLegs(s.book, PostingOrder(e.legs)).book);
  }

  // ----- one event -----

  lemma FundKeeps(s: System, amount: real)
    requires Consistent(s)
    ensures Consistent(Step(s, Fund(amount)))
  {
  }

  lemma BudgetKeeps(s: System, cell: string, amount: real)
    requires Consistent(s)
    ensures Consistent(Step(s, Budget(cell, amount)))
  {
    if cell in s.book && AllocateCash(s.book[cell], amount).Posted? {
      var after := Step(s, Budget(cell, amount)).book;
      var cash := map c | c in s.book :: s.book[c].cash;
      TotalUpdate(cash, cell, after[cell].cash);
      assert (map c | c in after :: after[c].cash) == cash[cell := after[cell].cash];
      forall symbol
        ensures TotalShares(after, symbol) == TotalShares(s.book, symbol)
      {
        assert (map c | c in after :: after[c].PositionQty(symbol)) == map c | c in s.book :: s.book[c].PositionQty(symbol);
      }
      assert SharesAgree(s);
    }
  }

  lemma TransferKeeps(s: System, crosses: seq<Cross>)
    requires Consistent(s) && ProperEvent(Transfer(crosses))
    ensures Consistent(Step(s, Transfer(crosses)))
  {
    hide ApplyLegs, Validated, TotalCash, TotalShares, SoundBook, WholeBook, WholeCrosses, ProperCrosses;
    var legs := CrossLegsOf(crosses);
    if Postable(s.book, legs) {
      WholeCrossesPost(s.book, crosses);
      WholeCrossLegs(crosses);
      CrossCashTotal(s.book, crosses);
      LegsMoveTotalShares(s.book, legs, "");
      var after := Step(s, Transfer(crosses));
      forall symbol
        ensures TotalShares(after.book, symbol) == s.master.PositionQty(symbol)
      {
        CrossShareTotal(s.book, crosses, symbol);
        assert TotalShares(s.book, symbol) == s.master.PositionQty(symbol);
      }
    }
  }

  /** What the cells hold after an accepted trade: the master's holding, moved by the fill. */
  lemma TradeMovesShares(s: System, f: BrokerFill, legs: seq<Allocation>, symbol: string)
    requires Consistent(s) && CarriesExactly(legs, f) && Postable(s.book, PostingOrder(legs))
    ensures TotalShares(ApplyLegs(s.book, PostingOrder(legs)).book, symbol)
         == s.master.PositionQty(symbol) + (if symbol == f.symbol then f.SignedQty() else 0.0)
  {
    TradePosts(s.book, f, legs, symbol);
    assert TotalShares(s.book, symbol) == s.master.PositionQty(symbol);
  }

  /** What the master holds after a fill it records. */
  lemma RecordedEffect(master: M.LedgerState, f: BrokerFill, symbol: string)
    requires master.Sound() && master.WholeUnits() && f.Proper()
    ensures var r := Recorded(master, f);
            if r.raised then r.state == master
            else r.state.Sound() && r.state.WholeUnits()
                 && r.state.cash == master.cash - Notional(f.SignedQty(), f.price) - f.fees
                 && r.state.PositionQty(symbol) == master.PositionQty(symbol) + if symbol == f.symbol then f.SignedQty() else 0.0
  {
    WholeSum(0.0, f.qty);
    M.FillEffect(master, f.symbol, f.SignedQty(), f.price, f.fees);
  }

  /** A trade keeps the equations if and only if the master ledger does not turn it down. */
  lemma TradeKeepsIff(s: System, f: BrokerFill, legs: seq<Allocation>)
    requires Consistent(s) && CarriesExactly(legs, f)
    ensures Consistent(Step(s, Trade(f, legs))) <==> !MasterRefuses(s, Trade(f, legs))
  {
    hide ApplyLegs, M.RecordFill, TotalCash, TotalShares, ShapedLike, Validated, SoundBook, WholeBook;
    if Postable(s.book, PostingOrder(legs)) {
      var book, r := ApplyLegs(s.book, PostingOrder(legs)).book, Recorded(s.master, f);
      TradePosts(s.book, f, legs, f.symbol);
      forall symbol { TradeMovesShares(s, f, legs, symbol); }
      forall symbol { RecordedEffect(s.master, f, symbol); }
      TradedConsistentIff(System(book, r.state, s.unallocated), s.master, f, r.raised);
    }
  }

  /** The two books after a trade, put side by side. */
  lemma TradedConsistentIff(after: System, master: M.LedgerState, f: BrokerFill, raised: bool)
    requires SoundBook(after.book) && WholeBook(after.book) && f.qty > 0.0
    requires TotalCash(after.book) + after.unallocated == master.cash - Notional(f.SignedQty(), f.price) - f.fees
    requires forall s :: TotalShares(after.book, s) == master.PositionQty(s) + if s == f.symbol then f.SignedQty() else 0.0
    requires raised ==> after.master == master
    requires !raised ==> after.master.Sound() && after.master.WholeUnits()
    requires !raised ==> after.master.cash == master.cash - Notional(f.SignedQty(), f.price) - f.fees
    requires !raised ==> forall s :: after.master.PositionQty(s) == master.PositionQty(s) + if s == f.symbol then f.SignedQty() else 0.0
    ensures Consistent(after) <==> !raised
  {
    if raised {
      assert TotalShares(after.book, f.symbol) != after.master.PositionQty(f.symbol);
    }
  }

  /** One event keeps the equations, exactly unless the master ledger turns down what the cells accepted. */
  lemma StepKeepsConsistentIff(s: System, e: Event)
    requires Consistent(s) && ProperEvent(e)
    ensures Consistent(Step(s, e)) <==> !MasterRefuses(s, e)
  {
    match e
    case Fund(amount) => FundKeeps(s, amount);
    case Budget(cell, amount) => BudgetKeeps(s, cell, amount);
    case Transfer(crosses) => TransferKeeps(s, crosses);
    case Trade(f, legs) => TradeKeepsIff(s, f, legs);
  }

  // ----- whole runs -----

  /** What a run leaves; it ends where a refused fill has broken the equations. */
  ghost function After(s: System, events: seq<Event>): System
    requires Consistent(s)
    decreases |events|
  {
    if events == [] then s
    else
      var before := After(s, events[..|events| - 1]);
      if Consistent(before) then Step(before, events[|events| - 1]) else before
  }

  ghost predicate ProperEvents(events: seq<Event>) {
    forall e :: e in events ==> ProperEvent(e)
  }

  /** At each event of the run the unallocated cash covers one tolerance per further cell. */
  ghost predicate Reserved(s: System, events: seq<Event>)
    requires Consistent(s)
  {
    forall i :: 0 <= i < |events| ==> ReservedAt(s, events, i)
  }

  ghost predicate ReservedAt(s: System, events: seq<Event>, i: nat)
    requires Consistent(s) && i < |events|
  {
    var now := After(s, events[..i]);
    now.unallocated >= Dust(|now.book.Keys| - 1)
  }

  /**
   Starting consistent, any run of funding, budgets, crosses and exactly allocated fills
   that keeps the reserve ends consistent: the cells' cash plus the unallocated cash is the
   master's cash, and the cells' shares of every symbol are the master's.
   */
  lemma {:induction false} RunsStayConsistent(s: System, events: seq<Event>)
    requires Consistent(s) && ProperEvents(events) && Reserved(s, events)
    ensures Consistent(After(s, events))
    decreases |events|
  {
    hide Step, SoundBook, WholeBook, CashAgrees, SharesAgree;
    if events != [] {
      var n := |events| - 1;
      var shorter, e := events[..n], events[n];
      forall i | 0 <= i < n
        ensures ReservedAt(s, shorter, i)
      {
        assert shorter[..i] == events[..i];
        assert ReservedAt(s, events, i);
      }
      RunsStayConsistent(s, shorter);
      assert ReservedAt(s, events, n) && ProperEvent(e);
      ReserveSuffices(After(s, shorter), e);
      StepKeepsConsistentIff(After(s, shorter), e);
    }
  }

  // ----- without the reserve -----

  /** Two cells, each one tolerance short of one share at price 1. */
  function ShortCells(): System {
    var cell := CellState(1.0 - EPS, map[], 0.0, []);
    System(map["A" := cell, "B" := cell], M.LedgerState(2.0 - 2.0 * EPS, map[], 0.0, 0.0, 0.0, []), 0.0)
  }

  function TwoShares(): BrokerFill {
    BrokerFill("X", BUY, 2.0, 1.0, 0.0)
  }

  function OneShareEach(): seq<Allocation> {
    [Allocation("A", "X", BUY, 1.0, 1.0, 0.0), Allocation("B", "X", BUY, 1.0, 1.0, 0.0)]
  }

  lemma TwoSharesCarried()
    ensures CarriesExactly(OneShareEach(), TwoShares())
  {
    var legs := OneShareEach();
    assert legs[..1] == [legs[0]];
    assert legs == [legs[0]] + [legs[1]];
    SumSnoc([], legs[0], AllocatedQty());
    assert [] + [legs[0]] == [legs[0]];
    SumSnoc([legs[0]], legs[1], AllocatedQty());
    assert TwoShares().Proper() by { WholeOne(); }
    forall a | a in legs
      ensures ShapedLike(a, TwoShares())
    {
      WholeOne();
      assert a == legs[0] || a == legs[1];
    }
  }

  lemma WholeOne()
    ensures Whole(1.0) && Whole(2.0)
  {
    assert Micros(1.0) == 1000000 as real && Micros(2.0) == 2000000 as real;
  }

  lemma ShortCellsConsistent()
    ensures Consistent(ShortCells())
  {
    var s := ShortCells();
    var cash := map c | c in s.book :: s.book[c].cash;
    assert cash == map["A" := 1.0 - EPS]["B" := 1.0 - EPS];
    TotalUpdate(map["A" := 1.0 - EPS], "B", 1.0 - EPS);
    TotalUpdate(map[], "A", 1.0 - EPS);
    assert map[]["A" := 1.0 - EPS] == map["A" := 1.0 - EPS];
    forall symbol
      ensures TotalShares(s.book, symbol) == 0.0
    {
      TotalUpdate(map["A" := 0.0], "B", 0.0);
      TotalUpdate(map[], "A", 0.0);
      assert map[]["A" := 0.0] == map["A" := 0.0];
      assert (map c | c in s.book :: s.book[c].PositionQty(symbol)) == map["A" := 0.0]["B" := 0.0];
    }
  }

  function ShareLeg(cell: string): Leg {
    Leg(BROKER_FILL, cell, "X", 1.0, 1.0, 0.0)
  }

  lemma ShareLegs()
    ensures PostingOrder(OneShareEach()) == [ShareLeg("A")] + [ShareLeg("B")]
  {
    var legs := OneShareEach();
    var first := legs[..1];
    assert first == [legs[0]] && first[..0] == [];
    assert FillLegs(first, SELL) == FillLegs(first[..0], SELL) + [] == [];
    assert FillLegs(first, BUY) == FillLegs(first[..0], BUY) + [ShareLeg("A")] == [ShareLeg("A")];
    assert FillLegs(legs, BUY) == [ShareLeg("A")] + [ShareLeg("B")] && FillLegs(legs, SELL) == [];
  }

  lemma SumOfTwo(a: Leg, b: Leg, f: Leg -> real)
    ensures SumBy([a] + [b], f) == f(a) + f(b)
  {
    SumSnoc([a], b, f);
    SumSnoc([], a, f);
    assert [] + [a] == [a];
  }

  lemma ShortCellsAccept()
    ensures Postable(ShortCells().book, PostingOrder(OneShareEach()))
  {
    var book, a, b := ShortCells().book, ShareLeg("A"), ShareLeg("B");
    ShareLegs();
    forall c, t | c in book
      ensures Taken([a] + [b], c, t) == 0.0 <= Holding(book, c, t)
    {
      SumOfTwo(a, b, TakenFrom(c, t));
    }
    forall c | c in book
      ensures book[c].cash + SumBy([a] + [b], CashTo(c)) == -EPS
    {
      SumOfTwo(a, b, CashTo(c));
    }
  }

  /**
   Without the reserve the promise fails: from a consistent start both cells accept their
   leg, each at its own tolerance, the master turns the fill down, and the books part.
   */
  lemma MasterCanRefuse()
    ensures Consistent(ShortCells()) && ProperEvent(Trade(TwoShares(), OneShareEach()))
    ensures MasterRefuses(ShortCells(), Trade(TwoShares(), OneShareEach()))
    ensures !Consistent(Step(ShortCells(), Trade(TwoShares(), OneShareEach())))
  {
    ShortCellsConsistent();
    TwoSharesCarried();
    ShortCellsAccept();
    TradeKeepsIff(ShortCells(), TwoShares(), OneShareEach());
  }

  // ----- the engine -----

  datatype Mismatch = CashMismatch | PositionMismatch(symbol: string)

  ghost predicate CashOff(book: Book, master: M.LedgerState, extra: real, tolerance: real) {
    Abs(TotalCash(book) + extra - master.cash) > tolerance
  }

  ghost predicate SharesOff(book: Book, master: M.LedgerState, symbol: string, tolerance: real) {
    Abs(TotalShares(book, symbol) - master.PositionQty(symbol)) > tolerance
  }

  lemma UnheldIsZero(book: Book, symbol: string)
    requires forall c :: c in book ==> symbol !in book[c].positions
    ensures TotalShares(book, symbol) == 0.0
  {
    ZeroTotal(map c | c in book :: book[c].PositionQty(symbol));
  }

  lemma {:induction false} ZeroTotal(m: map<string, real>)
    requires forall k :: k in m ==> m[k] == 0.0
    ensures Total(m) == 0.0
    decreases |m|
  {
    if m != map[] {
      var k :| k in m && Total(m) == m[k] + Total(m - {k});
      CardinalityMinus(m, k);
      ZeroTotal(m - {k});
    }
  }

  /** Adds up the values of a map, one key at a time. */
  method AddUp(values: map<string, real>) returns (total: real)
    ensures total == Total(values)
  {
    total := 0.0;
    var rest := values;
    while rest != map[]
      invariant total + Total(rest) == Total(values)
      decreases |rest|
    {
      var k :| k in rest;
      TotalPick(rest, k);
      CardinalityMinus(rest, k);
      total := total + rest[k];
      rest := rest - {k};
    }
  }

  lemma SilentIff(report: seq<Mismatch>, book: Book, master: M.LedgerState, extra: real,
                  cashTolerance: real, qtyTolerance: real)
    requires CashMismatch in report <==> CashOff(book, master, extra, cashTolerance)
    requires forall s :: PositionMismatch(s) in report <==> SharesOff(book, master, s, qtyTolerance)
    ensures report == [] <==>
              && Abs(TotalCash(book) + extra - master.cash) <= cashTolerance
              && forall s :: Abs(TotalShares(book, s) - master.PositionQty(s)) <= qtyTolerance
    ensures report != [] ==> CashMismatch in report || exists s :: PositionMismatch(s) in report
  {
    hide Abs, TotalCash, TotalShares, M.LedgerState.PositionQty;
    if report == [] {
      forall s
        ensures Abs(TotalShares(book, s) - master.PositionQty(s)) <= qtyTolerance
      {
        assert PositionMismatch(s) !in report;
      }
    } else if report[0].PositionMismatch? {
      assert PositionMismatch(report[0].symbol) in report;
      assert SharesOff(book, master, report[0].symbol, qtyTolerance);
    } else {
      assert CashMismatch in report;
    }
  }

  class CellReconciliationEngine {
    const master: M.Ledger
    const cells: Cells
    var unallocated: real
    var adjustments: real
    const cashTolerance: real
    const qtyTolerance: real
    const guarded: bool
    var riskState: RiskState

    constructor (master: M.Ledger, cells: Cells, unallocated: real, adjustments: real,
                 cashTolerance: real, qtyTolerance: real, guarded: bool)
      ensures this.master == master && this.cells == cells && this.guarded == guarded && riskState == NORMAL
      ensures this.unallocated == unallocated && this.adjustments == adjustments
      ensures this.cashTolerance == cashTolerance && this.qtyTolerance == qtyTolerance
    {
      this.master, this.cells, this.guarded, this.riskState := master, cells, guarded, NORMAL;
      this.unallocated, this.adjustments := unallocated, adjustments;
      this.cashTolerance, this.qtyTolerance := cashTolerance, qtyTolerance;
    }

    /** Every symbol held by the master or by any cell. */
    method Symbols() returns (symbols: set<string>)
      ensures forall s :: s in symbols <==> s in master.positions || exists c :: c in cells && s in cells[c].positions
    {
      symbols := master.positions.Keys;
      var rest := cells.Keys;
      while rest != {}
        invariant rest <= cells.Keys
        invariant forall s :: s in symbols <==>
                    s in master.positions || exists c :: c in cells && c !in rest && s in cells[c].positions
      {
        var c :| c in rest;
        symbols := symbols + cells[c].positions.Keys;
        rest := rest - {c};
      }
    }

    method CashIsOff() returns (off: bool)
      ensures off <==> CashOff(BookOf(cells), master.State(), unallocated + adjustments, cashTolerance)
    {
      var cash := map c | c in cells :: cells[c].cash;
      ghost var book := BookOf(cells);
      assert cash == map c | c in book :: book[c].cash;
      var cellCash := AddUp(cash);
      var expected := cellCash + unallocated + adjustments;
      off := Abs(expected - master.cash) > cashTolerance;
    }

    method SharesAreOff(symbol: string) returns (off: bool)
      ensures off <==> SharesOff(BookOf(cells), master.State(), symbol, qtyTolerance)
    {
      var held := map c | c in cells :: cells[c].State().PositionQty(symbol);
      ghost var book := BookOf(cells);
      assert held == map c | c in book :: book[c].PositionQty(symbol);
      var cellTotal := AddUp(held);
      var masterQty := if symbol in master.positions then master.positions[symbol].qty else 0.0;
      off := Abs(cellTotal - masterQty) > qtyTolerance;
    }

    /** Looks at the symbols someone holds; the others cannot disagree. */
    method PositionMismatches() returns (report: seq<Mismatch>)
      requires qtyTolerance >= 0.0
      ensures CashMismatch !in report
      ensures forall s :: PositionMismatch(s) in report <==> SharesOff(BookOf(cells), master.State(), s, qtyTolerance)
    {
      report := [];
      var rest := Symbols();
      ghost var symbols := rest;
      while rest != {}
        invariant rest <= symbols && CashMismatch !in report
        invariant forall s :: PositionMismatch(s) in report <==>
                    s in symbols - rest && SharesOff(BookOf(cells), master.State(), s, qtyTolerance)
      {
        var symbol :| symbol in rest;
        var off := SharesAreOff(symbol);
        if off {
          report := report + [PositionMismatch(symbol)];
        }
        rest := rest - {symbol};
      }
      forall s | s !in symbols
        ensures !SharesOff(BookOf(cells), master.State(), s, qtyTolerance)
      {
        UnheldIsZero(BookOf(cells), s);
      }
    }

    /**
     Reports every disagreement beyond tolerance and no other, in each symbol whatever,
     and halts new entries exactly when there is one. The ledgers are only read.
     */
    method Reconcile() returns (report: seq<Mismatch>)
      requires qtyTolerance >= 0.0
      modifies this`riskState
      ensures CashMismatch in report <==>
                CashOff(BookOf(cells), master.State(), unallocated + adjustments, cashTolerance)
      ensures forall s :: PositionMismatch(s) in report <==> SharesOff(BookOf(cells), master.State(), s, qtyTolerance)
      ensures report != [] ==> CashMismatch in report || exists s :: PositionMismatch(s) in report
      ensures report == [] <==>
                && Abs(TotalCash(BookOf(cells)) + (unallocated + adjustments) - master.cash) <= cashTolerance
                && forall s :: Abs(TotalShares(BookOf(cells), s) - master.State().PositionQty(s)) <= qtyTolerance
      ensures riskState == if report != [] && guarded then HALT_NEW_ENTRIES else old(riskState)
    {
      hide CashOff, SharesOff, Abs, TotalCash, TotalShares, BookOf;
      var off := CashIsOff();
      report := PositionMismatches();
      if off {
        report := [CashMismatch] + report;
      }
      if report != [] && guarded {
        riskState := HALT_NEW_ENTRIES;
      }
      SilentIff(report, BookOf(cells), master.State(), unallocated + adjustments, cashTolerance, qtyTolerance);
    }
  }

  /** Whatever the tolerances, consistent books disagree nowhere: the engine reports nothing on them. */
  lemma NothingOff(s: System, cashTolerance: real, qtyTolerance: real, symbol: string)
    requires Consistent(s) && cashTolerance >= 0.0 && qtyTolerance >= 0.0
    ensures !CashOff(s.book, s.master, s.unallocated, cashTolerance)
    ensures !SharesOff(s.book, s.master, symbol, qtyTolerance)
  {
    assert TotalShares(s.book, symbol) == s.master.PositionQty(symbol);
  }
}
