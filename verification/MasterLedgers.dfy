/**
 The master account ledger (packages/common/ledger.py): an append-only log with cash,
 lots at average cost, realised profit and fees, all replayable from the log.
 */
module MasterLedgers {
  import opened Numeric
  import opened Sums
  import opened Lots

  datatype EntryKind = CASH | TRADE | FEE

  datatype Entry = Entry(kind: EntryKind, amount: real, symbol: string, qty: real, price: real, realized: real)

  datatype LedgerState = LedgerState(
    cash: real, positions: map<string, Lot>, realized: real, fees: real, highWater: real, entries: seq<Entry>)
  {
    function PositionQty(symbol: string): real {
      if symbol in positions then positions[symbol].qty else 0.0
    }

    /** No short lot, no negative cash beyond the tolerance. */
    ghost predicate Sound() {
      && cash >= -EPS
      && forall s :: s in positions ==> positions[s].qty > 0.0
    }

    ghost predicate WholeUnits() {
      forall s :: s in positions ==> Whole(positions[s].qty)
    }
  }

  /** The outcome of a call: the new state, and whether the call raised. */
  datatype Outcome = Outcome(state: LedgerState, raised: bool)

  /** Appends one entry, unless it would leave the cash negative. */
  function Append(s: LedgerState, e: Entry): Outcome {
    if s.cash + e.amount < -EPS then Outcome(s, true)
    else Outcome(s.(entries := s.entries + [e], cash := s.cash + e.amount,
                    fees := s.fees + (if e.kind == FEE then -e.amount else 0.0),
                    realized := s.realized + e.realized), false)
  }

  function Deposit(s: LedgerState, amount: real): Outcome {
    Append(s, Entry(CASH, amount, "", 0.0, 0.0, 0.0))
  }

  /** The lots after `qty` shares (signed) at `price`. */
  function Traded(positions: map<string, Lot>, symbol: string, qty: real, price: real): map<string, Lot>
    requires symbol in positions ==> positions[symbol].qty > 0.0
  {
    var lot := if symbol in positions then positions[symbol] else Lot(0.0, 0.0);
    if qty > 0.0 then positions[symbol := Lot(lot.qty + qty, BlendedCost(lot.qty, lot.avgCost, qty, price))]
    else if lot.qty + qty <= EPS then positions - {symbol}
    else positions[symbol := Lot(lot.qty + qty, lot.avgCost)]
  }

  /** What stops a fill before anything is written. */
  predicate FillBlocked(s: LedgerState, symbol: string, qty: real, price: real, fees: real) {
    || (qty <= 0.0 && (symbol !in s.positions || s.PositionQty(symbol) + EPS < -qty))
    || s.cash - Notional(qty, price) - fees < -EPS
  }

  /** The position is written, then the trade is appended, then the fee: three separate writes. */
  function RecordFill(s: LedgerState, symbol: string, qty: real, price: real, fees: real): Outcome
    requires symbol in s.positions ==> s.positions[symbol].qty > 0.0
  {
    if FillBlocked(s, symbol, qty, price, fees) then Outcome(s, true)
    else
      var cost := if symbol in s.positions then s.positions[symbol].avgCost else 0.0;
      var realized := if qty > 0.0 then 0.0 else Notional(-qty, price - cost);
      var written := s.(positions := Traded(s.positions, symbol, qty, price));
      var traded := Append(written, Entry(TRADE, -Notional(qty, price), symbol, qty, price, realized));
      if traded.raised || fees == 0.0 then traded
      else Append(traded.state, Entry(FEE, -fees, symbol, 0.0, 0.0, 0.0))
  }

  /** A named approver resets the high-water mark to cash and leaves an entry of amount 0. */
  function Rebase(s: LedgerState, named: bool): Outcome {
    if !named then Outcome(s, true)
    else Outcome(s.(highWater := Max(s.cash, 0.0), entries := s.entries + [Entry(CASH, 0.0, "", 0.0, 0.0, 0.0)]), false)
  }

  /** A snapshot at marked equity `equity` raises the high-water mark. */
  function Snapshot(s: LedgerState, equity: real): LedgerState {
    s.(highWater := Max(s.highWater, equity))
  }

  // ----- rejected writes leave no trace: exactly when -----

  /**
   A fill that raises has changed nothing, if and only if it was blocked before the
   first write. The one way to raise later is a negative fee whose rebate alone keeps
   the total above zero.
   */
  lemma RejectedFillLeavesNoTraceIff(s: LedgerState, symbol: string, qty: real, price: real, fees: real)
    requires s.Sound()
    ensures var r := RecordFill(s, symbol, qty, price, fees);
            r.raised ==> (r.state == s <==>
              FillBlocked(s, symbol, qty, price, fees) || Traded(s.positions, symbol, qty, price) == s.positions)
    ensures var r := RecordFill(s, symbol, qty, price, fees);
            r.raised && !FillBlocked(s, symbol, qty, price, fees) <==>
              !FillBlocked(s, symbol, qty, price, fees) && fees < 0.0 && s.cash - Notional(qty, price) < -EPS
  {
  }

  /** With fees of 0 or more, a raised fill leaves no trace and an accepted one is complete. */
  lemma FillEffect(s: LedgerState, symbol: string, qty: real, price: real, fees: real)
    requires s.Sound() && fees >= 0.0
    ensures var r := RecordFill(s, symbol, qty, price, fees);
            && (r.raised <==> FillBlocked(s, symbol, qty, price, fees))
            && (r.raised ==> r.state == s)
            && (!r.raised ==>
                  && r.state.Sound()
                  && r.state.cash == s.cash - Notional(qty, price) - fees
                  && r.state.fees == s.fees + fees
                  && r.state.positions == Traded(s.positions, symbol, qty, price)
                  && (s.WholeUnits() && Whole(qty) ==>
                        r.state.WholeUnits() && r.state.PositionQty(symbol) == s.PositionQty(symbol) + qty))
    ensures forall other :: other != symbol ==>
              RecordFill(s, symbol, qty, price, fees).state.PositionQty(other) == s.PositionQty(other)
  {
    if s.WholeUnits() && Whole(qty) && symbol in s.positions {
      WholeSum(s.positions[symbol].qty, qty);
      WholeNoDust(s.positions[symbol].qty + qty);
    }
  }

  /**
   A purchase realises nothing and adds its price to the cost of the lot; a sale realises
   price less average cost on every share and leaves the average cost of the rest alone.
   */
  lemma FillCosts(s: LedgerState, symbol: string, qty: real, price: real, fees: real)
    requires s.Sound() && fees >= 0.0 && !RecordFill(s, symbol, qty, price, fees).raised
    ensures var after := RecordFill(s, symbol, qty, price, fees).state;
      && (qty > 0.0 ==>
            && after.realized == s.realized && symbol in after.positions
            && CostOf(after.positions[symbol])
               == (if symbol in s.positions then CostOf(s.positions[symbol]) else 0.0) + Notional(qty, price))
      && (qty <= 0.0 ==>
            && symbol in s.positions
            && after.realized == s.realized + Notional(-qty, price - s.positions[symbol].avgCost)
            && (symbol in after.positions ==> after.positions[symbol].avgCost == s.positions[symbol].avgCost))
  {
    if qty > 0.0 {
      var lot := if symbol in s.positions then s.positions[symbol] else Lot(0.0, 0.0);
      BlendedCostTimesQty(lot.qty, lot.avgCost, qty, price);
    }
  }

  /** A purchase of one share for 10 with a fee of -10, on no cash, raises after the lot is written. */
  lemma NegativeFeeLeavesATrace()
    ensures var s := LedgerState(0.0, map[], 0.0, 0.0, 0.0, []);
            && s.Sound()
            && var r := RecordFill(s, "X", 1.0, 10.0, -10.0);
            && r.raised && r.state.PositionQty("X") == 1.0 && r.state.entries == []
  {
  }

  // ----- runs -----

  datatype Call = DepositCall(amount: real)
                | FillCall(symbol: string, qty: real, price: real, fees: real)
                | RebaseCall(named: bool)
                | SnapshotCall(equity: real)

  /** Fees are never negative, as the broker's fill schema demands. */
  ghost predicate ProperCall(c: Call) {
    c.FillCall? ==> c.fees >= 0.0
  }

  ghost predicate ProperCalls(calls: seq<Call>) {
    forall c :: c in calls ==> ProperCall(c)
  }

  function Perform(s: LedgerState, c: Call): Outcome
    requires forall symbol :: symbol in s.positions ==> s.positions[symbol].qty > 0.0
  {
    match c
    case DepositCall(amount) => Deposit(s, amount)
    case FillCall(symbol, qty, price, fees) => RecordFill(s, symbol, qty, price, fees)
    case RebaseCall(named) => Rebase(s, named)
    case SnapshotCall(equity) => Outcome(Snapshot(s, equity), false)
  }

  lemma PerformSound(s: LedgerState, c: Call)
    requires s.Sound() && ProperCall(c)
    ensures Perform(s, c).state.Sound()
  {
    if c.FillCall? {
      FillEffect(s, c.symbol, c.qty, c.price, c.fees);
    }
  }

  const EMPTY_LEDGER := LedgerState(0.0, map[], 0.0, 0.0, 0.0, [])

  /** The ledger as constructed: an opening deposit, and the high-water mark at it. */
  function Opened(initial: real): LedgerState {
    Deposit(EMPTY_LEDGER.(highWater := initial), initial).state
  }

  /** The state after a run of calls, accepted or rejected. */
  ghost function After(initial: real, calls: seq<Call>): (s: LedgerState)
    requires initial > 0.0 && ProperCalls(calls)
    ensures s.Sound()
  {
    if calls == [] then Opened(initial)
    else
      var before := After(initial, calls[..|calls| - 1]);
      PerformSound(before, calls[|calls| - 1]);
      Perform(before, calls[|calls| - 1]).state
  }

  // ----- the log replays to the state -----

  /** What the log alone determines. */
  datatype Replayed = Replayed(cash: real, positions: map<string, Lot>, realized: real, fees: real)

  /** Folds one entry into the state; a fill that would blend into a lot of no shares is left out. */
  ghost function Fold(r: Replayed, e: Entry): Replayed {
    var positions :=
      if e.kind == TRADE && (e.symbol in r.positions ==> r.positions[e.symbol].qty > 0.0)
      then Traded(r.positions, e.symbol, e.qty, e.price) else r.positions;
    Replayed(r.cash + e.amount, positions, r.realized + e.realized, r.fees + (if e.kind == FEE then -e.amount else 0.0))
  }

  ghost function Replay(entries: seq<Entry>): Replayed {
    if entries == [] then Replayed(0.0, map[], 0.0, 0.0)
    else Fold(Replay(entries[..|entries| - 1]), entries[|entries| - 1])
  }

  ghost function StateOf(s: LedgerState): Replayed {
    Replayed(s.cash, s.positions, s.realized, s.fees)
  }

  lemma ReplaySnoc(entries: seq<Entry>, e: Entry)
    ensures Replay(entries + [e]) == Fold(Replay(entries), e)
  {
    assert (entries + [e])[..|entries|] == entries;
  }

  lemma PerformReplays(s: LedgerState, c: Call)
    requires s.Sound() && ProperCall(c) && Replay(s.entries) == StateOf(s)
    ensures Replay(Perform(s, c).state.entries) == StateOf(Perform(s, c).state)
  {
    hide RecordFill, Traded, Replay;
    match c
    case DepositCall(amount) =>
      ReplaySnoc(s.entries, Entry(CASH, amount, "", 0.0, 0.0, 0.0));
    case FillCall(symbol, qty, price, fees) =>
      FillReplays(s, symbol, qty, price, fees);
    case RebaseCall(_) =>
      ReplaySnoc(s.entries, Entry(CASH, 0.0, "", 0.0, 0.0, 0.0));
    case SnapshotCall(_) =>
  }

  /** What a fill that goes through writes: the trade, and the fee if there is one. */
  lemma FillWrites(
    s: LedgerState, symbol: string, qty: real, price: real, fees: real) returns (trade: Entry, fee: Entry)
    requires s.Sound() && fees >= 0.0 && !FillBlocked(s, symbol, qty, price, fees)
    ensures trade.kind == TRADE && trade.symbol == symbol && trade.qty == qty && trade.price == price
    ensures trade.amount == -Notional(qty, price)
    ensures fee == Entry(FEE, -fees, symbol, 0.0, 0.0, 0.0)
    ensures var r := RecordFill(s, symbol, qty, price, fees).state;
            && r.entries == (if fees == 0.0 then s.entries + [trade] else s.entries + [trade] + [fee])
            && r.positions == Traded(s.positions, symbol, qty, price)
            && r.cash == s.cash + trade.amount - fees && r.realized == s.realized + trade.realized && r.fees == s.fees + fees
  {
    hide Notional, Traded;
    var cost := if symbol in s.positions then s.positions[symbol].avgCost else 0.0;
    var gain := if qty > 0.0 then 0.0 else Notional(-qty, price - cost);
    trade := Entry(TRADE, -Notional(qty, price), symbol, qty, price, gain);
    fee := Entry(FEE, -fees, symbol, 0.0, 0.0, 0.0);
  }

  lemma FillReplays(s: LedgerState, symbol: string, qty: real, price: real, fees: real)
    requires s.Sound() && fees >= 0.0 && Replay(s.entries) == StateOf(s)
    ensures var r := RecordFill(s, symbol, qty, price, fees).state; Replay(r.entries) == StateOf(r)
  {
    hide Notional, Traded, RecordFill;
    FillEffect(s, symbol, qty, price, fees);
    if !FillBlocked(s, symbol, qty, price, fees) {
      var trade, fee := FillWrites(s, symbol, qty, price, fees);
      ReplaySnoc(s.entries, trade);
      ReplaySnoc(s.entries + [trade], fee);
    }
  }

  /** Over any run of calls, accepted or rejected, the log alone reproduces cash, lots, profit and fees. */
  lemma {:induction false} LogReplaysToState(initial: real, calls: seq<Call>)
    requires initial > 0.0 && ProperCalls(calls)
    ensures Replay(After(initial, calls).entries) == StateOf(After(initial, calls))
  {
    if calls == [] {
      ReplaySnoc([], Entry(CASH, initial, "", 0.0, 0.0, 0.0));
      assert Opened(initial).entries == [] + [Entry(CASH, initial, "", 0.0, 0.0, 0.0)];
    } else {
      var n := |calls| - 1;
      LogReplaysToState(initial, calls[..n]);
      PerformReplays(After(initial, calls[..n]), calls[n]);
    }
  }

  /** The high-water mark is not part of what the log determines: a snapshot raises it without an entry. */
  lemma HighWaterNotInLog(initial: real)
    requires initial > 0.0
    ensures ProperCalls([SnapshotCall(initial + 1.0)])
    ensures After(initial, []).entries == After(initial, [SnapshotCall(initial + 1.0)]).entries
    ensures After(initial, []).highWater != After(initial, [SnapshotCall(initial + 1.0)]).highWater
  {
    var calls := [SnapshotCall(initial + 1.0)];
    assert calls[..0] == [];
  }

  // ----- the high-water mark -----

  predicate Rebases(c: Call) {
    c.RebaseCall? && c.named
  }

  /** Call `k` came after every rebase of the run, or was the last of them. */
  ghost predicate SinceRebase(calls: seq<Call>, k: nat) {
    forall m :: k < m < |calls| ==> !Rebases(calls[m])
  }

  /** Where the mark comes from: the opening cash, a snapshot's equity, or the cash at a rebase. */
  ghost predicate MarkFrom(initial: real, calls: seq<Call>, k: nat, mark: real)
    requires initial > 0.0 && ProperCalls(calls) && k < |calls|
  {
    assert ProperCalls(calls[..k]);
    || (calls[k].SnapshotCall? && mark == calls[k].equity)
    || (Rebases(calls[k]) && mark == Max(After(initial, calls[..k]).cash, 0.0))
  }

  lemma SinceRebaseLonger(calls: seq<Call>, k: nat)
    requires calls != [] && k < |calls| - 1
    ensures SinceRebase(calls, k) <==> SinceRebase(calls[..|calls| - 1], k) && !Rebases(calls[|calls| - 1])
  {
  }

  lemma MarkBefore(initial: real, calls: seq<Call>, k: nat, mark: real)
    requires initial > 0.0 && ProperCalls(calls) && k < |calls| - 1
    ensures MarkFrom(initial, calls, k, mark) <==> MarkFrom(initial, calls[..|calls| - 1], k, mark)
  {
    assert calls[..|calls| - 1][..k] == calls[..k];
  }

  lemma MarkAfterCall(s: LedgerState, c: Call)
    requires s.Sound() && ProperCall(c)
    ensures var now := Perform(s, c).state.highWater;
      && (c.SnapshotCall? ==> now >= c.equity && now >= s.highWater && (now == c.equity || now == s.highWater))
      && (Rebases(c) ==> now == Max(s.cash, 0.0))
      && (!c.SnapshotCall? && !Rebases(c) ==> now == s.highWater)
  {
  }

  /**
   The mark is the peak since the last rebase: no snapshot taken since then saw more equity,
   and the mark is one of those snapshots, or what the mark was set to at the start.
   */
  lemma {:induction false} MarkIsThePeak(initial: real, calls: seq<Call>)
    requires initial > 0.0 && ProperCalls(calls)
    ensures var mark := After(initial, calls).highWater;
      && (forall k :: 0 <= k < |calls| && SinceRebase(calls, k) && calls[k].SnapshotCall? ==> calls[k].equity <= mark)
      && ((mark == initial && forall k :: 0 <= k < |calls| ==> !Rebases(calls[k]))
          || exists k :: 0 <= k < |calls| && SinceRebase(calls, k) && MarkFrom(initial, calls, k, mark))
  {
    hide Perform, Deposited, MarkFrom, SinceRebase;
    if calls != [] {
      var n := |calls| - 1;
      var before, mark := After(initial, calls[..n]), After(initial, calls).highWater;
      MarkIsThePeak(initial, calls[..n]);
      assert calls[n] in calls;
      MarkAfterCall(before, calls[n]);
      forall k | 0 <= k < |calls| && SinceRebase(calls, k) && calls[k].SnapshotCall?
        ensures calls[k].equity <= mark
      {
        if k < n {
          SinceRebaseLonger(calls, k);
        }
      }
      LastCallMarks(initial, calls, mark);
      if !(calls[n].SnapshotCall? && mark == calls[n].equity) && !Rebases(calls[n]) {
        assert mark == before.highWater;
        if k :| 0 <= k < n && SinceRebase(calls[..n], k) && MarkFrom(initial, calls[..n], k, mark) {
          SinceRebaseLonger(calls, k);
          MarkBefore(initial, calls, k, mark);
        }
      }
    }
  }

  lemma LastCallMarks(initial: real, calls: seq<Call>, mark: real)
    requires initial > 0.0 && ProperCalls(calls) && calls != []
    ensures var n := |calls| - 1;
      && SinceRebase(calls, n)
      && (calls[n].SnapshotCall? && mark == calls[n].equity ==> MarkFrom(initial, calls, n, mark))
      && (Rebases(calls[n]) && mark == Max(After(initial, calls[..n]).cash, 0.0) ==> MarkFrom(initial, calls, n, mark))
  {
  }

  /** A deposit or withdrawal is refused exactly when it would leave the cash below the tolerance. */
  lemma DepositRefusedIff(s: LedgerState, amount: real)
    ensures var r := Deposit(s, amount);
      && (r.raised <==> s.cash + amount < -EPS) && (r.raised ==> r.state == s)
      && (!r.raised ==> r.state.cash == s.cash + amount && r.state.positions == s.positions && r.state.highWater == s.highWater)
  {
  }

  // ----- the book identity -----

  /** All money ever deposited, from the log. */
  ghost function Deposited(): Entry -> real {
    (e: Entry) => if e.kind == CASH then e.amount else 0.0
  }

  /** Cash plus lots at cost, less deposits, profit and fees: what the books cannot explain. */
  ghost function Unexplained(s: LedgerState): real {
    s.cash + BookValue(s.positions) - SumBy(s.entries, Deposited()) - s.realized + s.fees
  }

  /** The cost of the dust a sale discards when it closes a lot. */
  ghost function DiscardedCost(s: LedgerState, symbol: string, qty: real): real {
    if qty <= 0.0 && symbol in s.positions && s.positions[symbol].qty + qty <= EPS
    then Notional(s.positions[symbol].qty + qty, s.positions[symbol].avgCost)
    else 0.0
  }

  lemma TradeMovesBookValue(s: LedgerState, symbol: string, qty: real, price: real)
    requires s.Sound() && (qty > 0.0 || symbol in s.positions)
    ensures var cost := if symbol in s.positions then s.positions[symbol].avgCost else 0.0;
            BookValue(Traded(s.positions, symbol, qty, price))
            == BookValue(s.positions) + (if qty > 0.0 then Notional(qty, price) else Notional(qty, cost)) - DiscardedCost(s, symbol, qty)
  {
    if qty > 0.0 {
      BuyingAddsCost(s.positions, symbol, qty, price);
    } else {
      SellingTakesCost(s.positions, symbol, qty);
    }
  }

  /** A call leaves the unexplained amount alone, except for the cost of dust a sale discards. */
  lemma PerformKeepsIdentity(s: LedgerState, c: Call)
    requires s.Sound() && ProperCall(c)
    ensures Unexplained(Perform(s, c).state)
         == Unexplained(s) - (if c.FillCall? && !Perform(s, c).raised then DiscardedCost(s, c.symbol, c.qty) else 0.0)
  {
    match c
    case DepositCall(amount) =>
      SumSnoc(s.entries, Entry(CASH, amount, "", 0.0, 0.0, 0.0), Deposited());
    case FillCall(symbol, qty, price, fees) =>
      FillEffect(s, symbol, qty, price, fees);
      if !FillBlocked(s, symbol, qty, price, fees) {
        FillKeepsIdentity(s, symbol, qty, price, fees);
      }
    case RebaseCall(_) =>
      SumSnoc(s.entries, Entry(CASH, 0.0, "", 0.0, 0.0, 0.0), Deposited());
    case SnapshotCall(_) =>
  }

  lemma FillKeepsIdentity(s: LedgerState, symbol: string, qty: real, price: real, fees: real)
    requires s.Sound() && fees >= 0.0 && !FillBlocked(s, symbol, qty, price, fees)
    ensures Unexplained(RecordFill(s, symbol, qty, price, fees).state) == Unexplained(s) - DiscardedCost(s, symbol, qty)
  {
    FillEffect(s, symbol, qty, price, fees);
    TradeMovesBookValue(s, symbol, qty, price);
    var cost := if symbol in s.positions then s.positions[symbol].avgCost else 0.0;
    var realized := if qty > 0.0 then 0.0 else Notional(-qty, price - cost);
    var trade := Entry(TRADE, -Notional(qty, price), symbol, qty, price, realized);
    SumSnoc(s.entries, trade, Deposited());
    SumSnoc(s.entries + [trade], Entry(FEE, -fees, symbol, 0.0, 0.0, 0.0), Deposited());
    ProfitOnCost(qty, price, cost);
  }

  /** The cost one call discards. */
  ghost function DiscardedBy(s: LedgerState, c: Call): real
    requires s.Sound() && ProperCall(c)
  {
    if c.FillCall? && !Perform(s, c).raised then DiscardedCost(s, c.symbol, c.qty) else 0.0
  }

  /** The cost of all the dust a run's sales discarded. */
  ghost function Discarded(initial: real, calls: seq<Call>): real
    requires initial > 0.0 && ProperCalls(calls)
  {
    if calls == [] then 0.0
    else
      var n := |calls| - 1;
      assert calls[n] in calls;
      Discarded(initial, calls[..n]) + DiscardedBy(After(initial, calls[..n]), calls[n])
  }

  /**
   Over any run of calls, accepted or rejected, cash plus lots at average cost equals
   deposits plus realised profit less fees, less the cost of the dust that sales discarded.
   */
  lemma {:induction false} BookIdentity(initial: real, calls: seq<Call>)
    requires initial > 0.0 && ProperCalls(calls)
    ensures var s := After(initial, calls);
            s.cash + BookValue(s.positions)
            == SumBy(s.entries, Deposited()) + s.realized - s.fees - Discarded(initial, calls)
  {
    if calls == [] {
      var first := Entry(CASH, initial, "", 0.0, 0.0, 0.0);
      assert Opened(initial).entries == [] + [first];
      SumSnoc([], first, Deposited());
      assert Costs(map[]) == map[];
    } else {
      hide BookValue, Deposited, DiscardedCost, Perform;
      var n := |calls| - 1;
      assert calls[n] in calls;
      BookIdentity(initial, calls[..n]);
      PerformKeepsIdentity(After(initial, calls[..n]), calls[n]);
    }
  }

  ghost predicate WholeCalls(calls: seq<Call>) {
    forall c :: c in calls && c.FillCall? ==> Whole(c.qty)
  }

  /** In whole units nothing is ever discarded, so the identity is exact. */
  lemma {:induction false} WholeRunsDiscardNothing(initial: real, calls: seq<Call>)
    requires initial > 0.0 && ProperCalls(calls) && WholeCalls(calls)
    ensures After(initial, calls).WholeUnits() && Discarded(initial, calls) == 0.0
  {
    if calls != [] {
      var n := |calls| - 1;
      var before, c := After(initial, calls[..n]), calls[n];
      assert c in calls;
      WholeRunsDiscardNothing(initial, calls[..n]);
      if c.FillCall? {
        FillEffect(before, c.symbol, c.qty, c.price, c.fees);
        if !FillBlocked(before, c.symbol, c.qty, c.price, c.fees) {
          WholeDiscardsNothing(before, c.symbol, c.qty, c.price, c.fees);
        }
      }
    }
  }

  /** In whole units a closing sale discards nothing. */
  lemma WholeDiscardsNothing(s: LedgerState, symbol: string, qty: real, price: real, fees: real)
    requires s.Sound() && s.WholeUnits() && Whole(qty) && !FillBlocked(s, symbol, qty, price, fees)
    ensures DiscardedCost(s, symbol, qty) == 0.0
  {
    if symbol in s.positions {
      WholeSum(s.positions[symbol].qty, qty);
      WholeNoDust(s.positions[symbol].qty + qty);
      NotionalLaws(0.0, 0.0, s.positions[symbol].avgCost);
    }
  }

  /** One share bought, all but half a tolerance of it sold: the lot is closed and its rest discarded. */
  function DustyCalls(): seq<Call> {
    [FillCall("X", 1.0, 10.0, 0.0), FillCall("X", -0.9999999995, 10.0, 0.0)]
  }

  lemma OneShareBought()
    ensures var s := Opened(100.0);
            RecordFill(s, "X", 1.0, 10.0, 0.0) ==
              Outcome(LedgerState(90.0, map["X" := Lot(1.0, 10.0)], 0.0, 0.0, 100.0, s.entries + [Entry(TRADE, -10.0, "X", 1.0, 10.0, 0.0)]), false)
  {
    assert Notional(1.0, 10.0) == 10.0 && Notional(0.0, 0.0) == 0.0;
  }

  lemma AlmostAllSold(s: LedgerState)
    requires s.Sound() && s.positions == map["X" := Lot(1.0, 10.0)] && s.cash == 90.0
    ensures !RecordFill(s, "X", -0.9999999995, 10.0, 0.0).raised
    ensures RecordFill(s, "X", -0.9999999995, 10.0, 0.0).state.positions == map[]
    ensures DiscardedCost(s, "X", -0.9999999995) == 0.000000005
  {
    assert Notional(-0.9999999995, 10.0) == -9.999999995;
    assert Notional(0.0000000005, 10.0) == 0.000000005;
  }

  lemma RunOfTwo(initial: real, first: Call, second: Call)
    requires initial > 0.0 && ProperCall(first) && ProperCall(second)
    ensures ProperCalls([first, second])
    ensures var s := Opened(initial);
            && s.Sound() && Perform(s, first).state.Sound()
            && After(initial, [first, second]) == Perform(Perform(s, first).state, second).state
            && Discarded(initial, [first, second]) == DiscardedBy(s, first) + DiscardedBy(Perform(s, first).state, second)
  {
    hide Perform, DiscardedBy;
    PerformSound(Opened(initial), first);
    assert [first, second][..1] == [first] && [first][..0] == [];
    assert After(initial, []) == Opened(initial) && Discarded(initial, []) == 0.0;
    assert After(initial, [first]) == Perform(Opened(initial), first).state;
  }

  /** A run whose discarded cost is not zero: deposits, profit and fees alone do not explain the books. */
  lemma DustIsDiscarded()
    ensures ProperCalls(DustyCalls()) && Discarded(100.0, DustyCalls()) == 0.000000005
    ensures var s := After(100.0, DustyCalls());
            s.cash + BookValue(s.positions) == SumBy(s.entries, Deposited()) + s.realized - s.fees - 0.000000005
  {
    hide RecordFill, DiscardedCost, BookValue, Deposited, After, Discarded, Opened, Deposit, Rebase, Snapshot;
    var buy, sell := FillCall("X", 1.0, 10.0, 0.0), FillCall("X", -0.9999999995, 10.0, 0.0);
    RunOfTwo(100.0, buy, sell);
    OneShareBought();
    var s := Perform(Opened(100.0), buy).state;
    assert s == RecordFill(Opened(100.0), "X", 1.0, 10.0, 0.0).state;
    AlmostAllSold(s);
    NothingSoldYet(Opened(100.0));
    BookIdentity(100.0, [buy, sell]);
  }

  lemma NothingSoldYet(s: LedgerState)
    ensures DiscardedCost(s, "X", 1.0) == 0.0
  {
  }

  lemma RatioWithin(peak: real, equity: real)
    requires peak > 0.0 && equity <= peak
    ensures var ratio := equity / peak;
            Notional(peak, ratio) == equity && ratio <= 1.0 && (ratio == 1.0 <==> equity == peak)
  {
    var ratio := equity / peak;
    assert peak * ratio == equity;
    assert peak * (1.0 - ratio) == peak - equity;
  }

  // ----- the ledger object -----

  /** The mutable ledger; every write is the one the functions above describe. */
  class Ledger {
    var entries: seq<Entry>
    var cash: real
    var positions: map<string, Lot>
    var realized: real
    var fees: real
    var highWater: real

    ghost function State(): LedgerState
      reads this
    {
      LedgerState(cash, positions, realized, fees, highWater, entries)
    }

    ghost predicate NoEmptyLot()
      reads this
    {
      forall s :: s in positions ==> positions[s].qty > 0.0
    }

    constructor (initial: real)
      requires initial > 0.0
      ensures State() == Opened(initial) && NoEmptyLot()
    {
      entries := [Entry(CASH, initial, "", 0.0, 0.0, 0.0)];
      cash, positions := initial, map[];
      realized, fees := 0.0, 0.0;
      highWater := initial;
    }

    /** Validates the cash before it writes anything. */
    method AppendEntry(e: Entry) returns (raised: bool)
      modifies this
      ensures Outcome(State(), raised) == Append(old(State()), e)
    {
      var candidate := cash + e.amount;
      if candidate < -EPS {
        return true;
      }
      entries := entries + [e];
      cash := candidate;
      if e.kind == FEE {
        fees := fees - e.amount;
      }
      realized := realized + e.realized;
      raised := false;
    }

    method DepositCash(amount: real) returns (raised: bool)
      modifies this
      ensures Outcome(State(), raised) == Deposit(old(State()), amount)
    {
      raised := AppendEntry(Entry(CASH, amount, "", 0.0, 0.0, 0.0));
    }

    /** `qty` is signed: positive buys, the rest sells. */
    method Fill(symbol: string, qty: real, price: real, charge: real) returns (raised: bool)
      requires NoEmptyLot()
      modifies this
      ensures Outcome(State(), raised) == RecordFill(old(State()), symbol, qty, price, charge)
      ensures NoEmptyLot()
    {
      var gain := 0.0;
      var lot := if symbol in positions then positions[symbol] else Lot(0.0, 0.0);
      var after := positions;
      if qty > 0.0 {
        var blended := BlendedCost(lot.qty, lot.avgCost, qty, price);
        after := positions[symbol := Lot(lot.qty + qty, blended)];
      } else {
        var sold := -qty;
        if symbol !in positions || lot.qty + EPS < sold {
          return true;
        }
        gain := Notional(sold, price - lot.avgCost);
        var remaining := lot.qty - sold;
        after := if remaining <= EPS then positions - {symbol} else positions[symbol := Lot(remaining, lot.avgCost)];
      }
      var amount := -Notional(qty, price);
      if cash + amount - charge < -EPS {
        return true;
      }
      positions := after;
      raised := AppendEntry(Entry(TRADE, amount, symbol, qty, price, gain));
      if !raised && charge != 0.0 {
        raised := AppendEntry(Entry(FEE, -charge, symbol, 0.0, 0.0, 0.0));
      }
    }

    method RebaseHighWater(named: bool) returns (raised: bool)
      modifies this
      ensures Outcome(State(), raised) == Rebase(old(State()), named)
    {
      if !named {
        return true;
      }
      highWater := Max(cash, 0.0);
      entries := entries + [Entry(CASH, 0.0, "", 0.0, 0.0, 0.0)];
      raised := false;
    }

    /** Returns the drawdown from the peak, after the peak has been raised to `equity`. */
    method TakeSnapshot(equity: real) returns (drawdown: real)
      modifies this
      ensures State() == Snapshot(old(State()), equity)
      ensures highWater > 0.0 ==> equity == Notional(highWater, 1.0 - drawdown)
      ensures drawdown >= 0.0 && (drawdown > 0.0 <==> 0.0 < highWater && equity < highWater)
    {
      if equity > highWater {
        highWater := equity;
      }
      if highWater <= 0.0 {
        return 0.0;
      }
      RatioWithin(highWater, equity);
      var ratio := equity / highWater;
      drawdown := Max(0.0, 1.0 - ratio);
    }
  }
}
