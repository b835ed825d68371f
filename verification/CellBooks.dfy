/**
 A cell's own books over any run of budget moves, broker fills and crosses
 (services/capital_cells/ledger.py): cash, lots at average cost, realised profit and the log
 always explain each other.
 */
module CellBooks {
  import opened Numeric
  import opened Sums
  import opened Lots
  import opened CellLedgers

  datatype CellCall =
    | AllocateCall(amount: real)
    | BrokerFillCall(symbol: string, qty: real, price: real, fees: real)
    | CrossCall(symbol: string, qty: real, price: real)

  function Attempt(s: CellState, c: CellCall): Posting<CellState>
    requires forall symbol :: symbol in s.positions ==> s.positions[symbol].qty > 0.0
  {
    match c
    case AllocateCall(amount) => AllocateCash(s, amount)
    case BrokerFillCall(symbol, qty, price, fees) => ApplyFill(s, BROKER_FILL, symbol, qty, price, fees)
    case CrossCall(symbol, qty, price) => ApplyFill(s, INTERNAL_CROSS, symbol, qty, price, 0.0)
  }

  /** A refused call changes nothing. */
  function Perform(s: CellState, c: CellCall): CellState
    requires forall symbol :: symbol in s.positions ==> s.positions[symbol].qty > 0.0
  {
    match Attempt(s, c)
    case Posted(after) => after
    case Refused(_) => s
  }

  lemma PerformSound(s: CellState, c: CellCall)
    requires s.Sound()
    ensures Perform(s, c).Sound()
  {
    match c
    case AllocateCall(_) =>
    case BrokerFillCall(symbol, qty, price, fees) => FillEffect(s, BROKER_FILL, symbol, qty, price, fees);
    case CrossCall(symbol, qty, price) => FillEffect(s, INTERNAL_CROSS, symbol, qty, price, 0.0);
  }

  /** The cell after a run of calls, accepted or refused. */
  ghost function After(calls: seq<CellCall>): (s: CellState)
    ensures s.Sound()
  {
    if calls == [] then EMPTY_CELL
    else
      var before := After(calls[..|calls| - 1]);
      PerformSound(before, calls[|calls| - 1]);
      Perform(before, calls[|calls| - 1])
  }

  // ----- what one fill does to cost and profit -----

  /**
   A purchase realises nothing and adds its price to the cost of the lot; a sale realises
   price less average cost on every share and leaves the average cost of the rest alone.
   */
  lemma FillCosts(s: CellState, kind: CellEntryKind, symbol: string, qty: real, price: real, fees: real)
    requires s.Sound() && ApplyFill(s, kind, symbol, qty, price, fees).Posted?
    ensures var after := ApplyFill(s, kind, symbol, qty, price, fees).value;
      && (qty > 0.0 ==>
            && after.realized == s.realized && symbol in after.positions
            && CostOf(after.positions[symbol])
               == (if symbol in s.positions then CostOf(s.positions[symbol]) else 0.0) + Notional(qty, price))
      && (qty <= 0.0 ==>
            && symbol in s.positions
            && after.realized == s.realized + Notional(-qty, price - s.positions[symbol].avgCost)
            && (symbol in after.positions ==> after.positions[symbol].avgCost == s.positions[symbol].avgCost))
  {
    if qty > 0.0 {
      var lot := if symbol in s.positions then s.positions[symbol] else Lot(0.0, 0.0);
      BlendedCostTimesQty(lot.qty, lot.avgCost, qty, price);
    }
  }

  /**
   A call is refused exactly when it would leave the cash below the tolerance, or sell what the
   cell does not hold; a budget move that is not refused is the whole change of cash.
   */
  lemma RefusedIff(s: CellState, c: CellCall)
    requires s.Sound()
    ensures c.AllocateCall? ==>
      (Attempt(s, c).Refused? <==> s.cash + c.amount < -EPS)
      && (Attempt(s, c).Posted? ==> Perform(s, c).cash == s.cash + c.amount && Perform(s, c).positions == s.positions)
    ensures c.BrokerFillCall? ==>
      (Attempt(s, c).Refused? <==>
        || (c.qty <= 0.0 && (c.symbol !in s.positions || -c.qty > s.positions[c.symbol].qty + EPS))
        || s.cash - Notional(c.qty, c.price) - c.fees < -EPS)
    ensures c.CrossCall? ==>
      (Attempt(s, c).Refused? <==>
        || (c.qty <= 0.0 && (c.symbol !in s.positions || -c.qty > s.positions[c.symbol].qty + EPS))
        || s.cash - Notional(c.qty, c.price) < -EPS)
  {
    hide Notional, BlendedCost;
  }

  // ----- the book identity -----

  ghost function AmountOf(kind: CellEntryKind): CellEntry -> real {
    (e: CellEntry) => if e.kind == kind then e.amount else 0.0
  }

  ghost function AnyAmount(): CellEntry -> real {
    (e: CellEntry) => e.amount
  }

  ghost function ProfitOf(): CellEntry -> real {
    (e: CellEntry) => e.realized
  }

  /** The cost of the dust a sale discards when it closes a lot. */
  ghost function DiscardedCost(s: CellState, symbol: string, qty: real): real {
    if qty <= 0.0 && symbol in s.positions && s.positions[symbol].qty + qty <= EPS
    then Notional(s.positions[symbol].qty + qty, s.positions[symbol].avgCost)
    else 0.0
  }

  /** Cash plus lots at cost, less budget, profit and (negative) fees: what the books cannot explain. */
  ghost function Unexplained(s: CellState): real {
    s.cash + BookValue(s.positions) - SumBy(s.entries, AmountOf(ALLOCATION)) - s.realized - SumBy(s.entries, AmountOf(BROKER_FEE))
  }

  lemma TwoEntries(entries: seq<CellEntry>, a: CellEntry, b: CellEntry, both: bool, f: CellEntry -> real)
    ensures SumBy(entries + [a] + (if both then [b] else []), f) == SumBy(entries, f) + f(a) + (if both then f(b) else 0.0)
  {
    SumSnoc(entries, a, f);
    if both {
      SumSnoc(entries + [a], b, f);
    } else {
      assert entries + [a] + [] == entries + [a];
    }
  }

  /** What a fill that goes through writes: the trade, and the fee if there is one. */
  lemma FillWrites(s: CellState, kind: CellEntryKind, symbol: string, qty: real, price: real, fees: real)
    returns (trade: CellEntry, fee: CellEntry)
    requires s.Sound() && ApplyFill(s, kind, symbol, qty, price, fees).Posted?
    ensures trade.kind == kind && trade.amount == -Notional(qty, price)
    ensures fee == CellEntry(BROKER_FEE, -fees, symbol, 0.0, 0.0, 0.0)
    ensures var after := ApplyFill(s, kind, symbol, qty, price, fees).value;
      && after.entries == s.entries + [trade] + (if fees != 0.0 then [fee] else [])
      && after.cash == s.cash + trade.amount - fees && after.realized == s.realized + trade.realized
  {
    hide Notional, BlendedCost;
    var cost := if symbol in s.positions then s.positions[symbol].avgCost else 0.0;
    var realized := if qty > 0.0 then 0.0 else Notional(-qty, price - cost);
    trade := CellEntry(kind, -Notional(qty, price), symbol, qty, price, realized);
    fee := CellEntry(BROKER_FEE, -fees, symbol, 0.0, 0.0, 0.0);
  }

  /** What it does to the lots at cost. */
  lemma FillMovesCost(s: CellState, kind: CellEntryKind, symbol: string, qty: real, price: real, fees: real)
    requires s.Sound() && ApplyFill(s, kind, symbol, qty, price, fees).Posted?
    ensures var after := ApplyFill(s, kind, symbol, qty, price, fees).value;
            BookValue(after.positions) - (after.realized - s.realized)
            == BookValue(s.positions) + Notional(qty, price) - DiscardedCost(s, symbol, qty)
  {
    hide BlendedCost, BookValue;
    if qty > 0.0 {
      BuyingAddsCost(s.positions, symbol, qty, price);
    } else {
      SellingTakesCost(s.positions, symbol, qty);
      ProfitOnCost(qty, price, s.positions[symbol].avgCost);
    }
  }

  lemma FillKeepsIdentity(s: CellState, kind: CellEntryKind, symbol: string, qty: real, price: real, fees: real)
    requires s.Sound() && kind in {BROKER_FILL, INTERNAL_CROSS} && ApplyFill(s, kind, symbol, qty, price, fees).Posted?
    ensures var after := ApplyFill(s, kind, symbol, qty, price, fees).value;
      && Unexplained(after) == Unexplained(s) - DiscardedCost(s, symbol, qty)
      && after.cash - SumBy(after.entries, AnyAmount()) == s.cash - SumBy(s.entries, AnyAmount())
      && after.realized - SumBy(after.entries, ProfitOf()) == s.realized - SumBy(s.entries, ProfitOf())
  {
    hide ApplyFill, BookValue, DiscardedCost, Notional;
    var trade, fee := FillWrites(s, kind, symbol, qty, price, fees);
    FillMovesCost(s, kind, symbol, qty, price, fees);
    TwoEntries(s.entries, trade, fee, fees != 0.0, AmountOf(ALLOCATION));
    TwoEntries(s.entries, trade, fee, fees != 0.0, AmountOf(BROKER_FEE));
    TwoEntries(s.entries, trade, fee, fees != 0.0, AnyAmount());
    TwoEntries(s.entries, trade, fee, fees != 0.0, ProfitOf());
  }

  /** The cost of all the dust a run's sales discarded. */
  ghost function Discarded(calls: seq<CellCall>): real {
    if calls == [] then 0.0
    else
      var n := |calls| - 1;
      Discarded(calls[..n]) + DiscardedBy(After(calls[..n]), calls[n])
  }

  ghost function DiscardedBy(s: CellState, c: CellCall): real
    requires s.Sound()
  {
    if c.AllocateCall? || Attempt(s, c).Refused? then 0.0 else DiscardedCost(s, c.symbol, c.qty)
  }

  lemma PerformKeepsIdentity(s: CellState, c: CellCall)
    requires s.Sound()
    ensures Unexplained(Perform(s, c)) == Unexplained(s) - DiscardedBy(s, c)
    ensures Perform(s, c).cash - SumBy(Perform(s, c).entries, AnyAmount()) == s.cash - SumBy(s.entries, AnyAmount())
    ensures Perform(s, c).realized - SumBy(Perform(s, c).entries, ProfitOf()) == s.realized - SumBy(s.entries, ProfitOf())
  {
    hide ApplyFill, BookValue, DiscardedCost;
    if Attempt(s, c).Posted? {
      match c
      case AllocateCall(amount) =>
        var e := CellEntry(ALLOCATION, amount, "", 0.0, 0.0, 0.0);
        SumSnoc(s.entries, e, AmountOf(ALLOCATION));
        SumSnoc(s.entries, e, AmountOf(BROKER_FEE));
        SumSnoc(s.entries, e, AnyAmount());
        SumSnoc(s.entries, e, ProfitOf());
      case BrokerFillCall(symbol, qty, price, fees) => FillKeepsIdentity(s, BROKER_FILL, symbol, qty, price, fees);
      case CrossCall(symbol, qty, price) => FillKeepsIdentity(s, INTERNAL_CROSS, symbol, qty, price, 0.0);
    }
  }

  /**
   Over any run of calls, accepted or refused, a cell's cash plus its lots at average cost is
   the budget it was given plus realised profit less fees, less the cost of the dust that
   closing sales discarded; and its cash and its profit are the sums of its log.
   */
  lemma {:induction false} CellBookIdentity(calls: seq<CellCall>)
    ensures var s := After(calls);
      && s.cash + BookValue(s.positions)
         == SumBy(s.entries, AmountOf(ALLOCATION)) + s.realized + SumBy(s.entries, AmountOf(BROKER_FEE)) - Discarded(calls)
      && s.cash == SumBy(s.entries, AnyAmount())
      && s.realized == SumBy(s.entries, ProfitOf())
  {
    hide BookValue, Perform, DiscardedBy;
    if calls == [] {
      EmptyCellIsWorthNothing();
    } else {
      var n := |calls| - 1;
      CellBookIdentity(calls[..n]);
      PerformKeepsIdentity(After(calls[..n]), calls[n]);
    }
  }

  lemma EmptyCellIsWorthNothing()
    ensures BookValue(EMPTY_CELL.positions) == 0.0
  {
    assert Costs(map[]) == map[];
  }

  ghost predicate WholeCalls(calls: seq<CellCall>) {
    forall c :: c in calls && !c.AllocateCall? ==> Whole(c.qty)
  }

  /** In whole units nothing is discarded, so the identity is exact. */
  lemma {:induction false} WholeCallsDiscardNothing(calls: seq<CellCall>)
    requires WholeCalls(calls)
    ensures After(calls).WholeUnits() && Discarded(calls) == 0.0
  {
    hide ApplyFill;
    if calls != [] {
      var n := |calls| - 1;
      var before, c := After(calls[..n]), calls[n];
      assert c in calls;
      WholeCallsDiscardNothing(calls[..n]);
      WholeCallDiscardsNothing(before, c);
    }
  }

  lemma WholeCallDiscardsNothing(s: CellState, c: CellCall)
    requires s.Sound() && s.WholeUnits() && (!c.AllocateCall? ==> Whole(c.qty))
    ensures Perform(s, c).WholeUnits() && DiscardedBy(s, c) == 0.0
  {
    match c
    case AllocateCall(_) =>
    case BrokerFillCall(symbol, qty, price, fees) =>
      FillEffect(s, BROKER_FILL, symbol, qty, price, fees);
      WholeLotDiscardsNothing(s, symbol, qty, c);
    case CrossCall(symbol, qty, price) =>
      FillEffect(s, INTERNAL_CROSS, symbol, qty, price, 0.0);
      WholeLotDiscardsNothing(s, symbol, qty, c);
  }

  lemma WholeLotDiscardsNothing(s: CellState, symbol: string, qty: real, c: CellCall)
    requires s.Sound() && s.WholeUnits() && Whole(qty) && !c.AllocateCall? && c.symbol == symbol && c.qty == qty
    ensures DiscardedBy(s, c) == 0.0
  {
    if symbol in s.positions {
      WholeSum(s.positions[symbol].qty, qty);
      WholeNoDust(s.positions[symbol].qty + qty);
      NotionalLaws(0.0, 0.0, s.positions[symbol].avgCost);
    }
  }
}
