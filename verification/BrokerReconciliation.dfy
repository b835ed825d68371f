/**
 The ledger against the broker (services/reconciliation/engine.py) when every reported fill
 is booked once (services/pipeline.py): how far rounding can drive the two apart, and that
 reconciliation stays silent within that distance.
 */
module BrokerReconciliation {
  import opened Numeric
  import opened Products
  import opened Sums
  import opened Intents
  import opened BrokerObjects
  import opened PaperBrokers
  import opened RiskStates
  import Lots
  import M = MasterLedgers

  // ----- booking every fill once -----

  function SignedQty(f: Fill): real {
    if f.side == BUY then f.qty else -f.qty
  }

  /** A fill as the broker reports it: some shares, no negative fee. */
  predicate ProperFill(f: Fill) {
    f.qty > 0.0 && f.fees >= 0.0
  }

  ghost predicate ProperFills(fills: seq<Fill>) {
    forall i :: 0 <= i < |fills| ==> ProperFill(fills[i])
  }

  function Book(s: M.LedgerState, f: Fill): M.Outcome
    requires f.symbol in s.positions ==> s.positions[f.symbol].qty > 0.0
  {
    M.RecordFill(s, f.symbol, SignedQty(f), f.price, f.fees)
  }

  /** The ledger, opened with the broker's cash, after each fill has been booked once, in order. */
  ghost function Booked(opening: real, fills: seq<Fill>): (s: M.LedgerState)
    requires opening > 0.0 && ProperFills(fills)
    ensures s.Sound()
    decreases |fills|
  {
    if fills == [] then M.Opened(opening)
    else
      var n := |fills| - 1;
      var before := Booked(opening, fills[..n]);
      M.FillEffect(before, fills[n].symbol, SignedQty(fills[n]), fills[n].price, fills[n].fees);
      Book(before, fills[n]).state
  }

  /** How far one fill can drive the two apart: half a micro-unit of price per share, and of the fee. */
  function Slack(): Trade -> real {
    (t: Trade) => 0.0000005 * (t.qty + 1.0)
  }

  ghost function Drift(trades: seq<Trade>): real {
    SumBy(trades, Slack())
  }

  /** The ledger agrees with the broker's own books after `trades`. */
  ghost predicate InAgreement(s: M.LedgerState, trades: seq<Trade>, opening: real) {
    && Abs(s.cash - (opening + SumBy(trades, CashOfTrade()))) <= Drift(trades)
    && forall symbol :: s.PositionQty(symbol) == SumBy(trades, SharesOfTrade(symbol))
  }

  /** Rounding one fill moves its cash by at most its slack. */
  lemma RoundedCash(t: Trade)
    requires t.qty > 0.0
    ensures var f := Reported(t);
            Abs((-Notional(SignedQty(f), f.price) - f.fees) - CashOfTrade()(t)) <= Slack()(t)
  {
    RoundError(t.price);
    RoundError(t.fees);
    var f, d := Reported(t), Round6(t.price) - t.price;
    NotionalLaws(SignedQty(f), 0.0, 0.0);
    assert f.price == t.price + d;
    MulAdd(t.qty, t.price, d);
    MulBounded(t.qty, d, t.qty, 0.0000005);
    assert Mul(t.qty, 0.0000005) == 0.0000005 * t.qty;
    SignedNotional(t.qty, f.price);
  }

  lemma SignedNotional(qty: real, price: real)
    ensures Notional(qty, price) == Mul(qty, price) && Notional(-qty, price) == -Mul(qty, price)
  {
    NotionalLaws(qty, 0.0, price);
  }

  /** What an accepted fill leaves of its own symbol. */
  lemma LedgerShares(s: M.LedgerState, f: Fill)
    requires s.Sound() && f.qty > 0.0 && f.fees >= 0.0 && !Book(s, f).raised
    ensures var held, now := s.PositionQty(f.symbol), Book(s, f).state.PositionQty(f.symbol);
            now == if f.side == SELL && held - f.qty <= EPS then 0.0 else held + SignedQty(f)
  {
    hide Notional, Lots.BlendedCost;
    M.FillEffect(s, f.symbol, SignedQty(f), f.price, f.fees);
  }

  lemma OtherShares(s: M.LedgerState, f: Fill, symbol: string)
    requires s.Sound() && f.fees >= 0.0 && symbol != f.symbol
    ensures Book(s, f).state.PositionQty(symbol) == s.PositionQty(symbol)
  {
    hide Notional, Lots.BlendedCost, M.RecordFill;
    M.FillEffect(s, f.symbol, SignedQty(f), f.price, f.fees);
  }

  /** A sale of the broker's finds the shares in the ledger too, and drops the same dust. */
  lemma SharesFollow(s: M.LedgerState, trades: seq<Trade>, t: Trade, symbol: string)
    requires s.Sound() && t.qty > 0.0 && t.fees >= 0.0 && DropsRightly(trades + [t], |trades|)
    requires forall q :: s.PositionQty(q) == SumBy(trades, SharesOfTrade(q))
    requires !Book(s, Reported(t)).raised
    ensures Book(s, Reported(t)).state.PositionQty(symbol) == SumBy(trades + [t], SharesOfTrade(symbol))
  {
    hide Book, Round6;
    assert (trades + [t])[..|trades|] == trades;
    SumSnoc(trades, t, SharesOfTrade(symbol));
    RoundedFee(t.fees);
    assert s.PositionQty(symbol) == SumBy(trades, SharesOfTrade(symbol));
    if symbol == t.symbol {
      LedgerShares(s, Reported(t));
    } else {
      OtherShares(s, Reported(t), symbol);
    }
  }

  /** Booking a fill is refused exactly when the ledger's cash would go negative: the shares are always there. */
  lemma BookingRefusedIff(s: M.LedgerState, trades: seq<Trade>, t: Trade, opening: real)
    requires s.Sound() && t.qty > 0.0 && t.fees >= 0.0 && InAgreement(s, trades, opening) && DropsRightly(trades + [t], |trades|)
    ensures var f := Reported(t);
            Book(s, f).raised <==> s.cash - Notional(SignedQty(f), f.price) - f.fees < -EPS
  {
    hide Notional, Round6;
    var f := Reported(t);
    RoundedFee(t.fees);
    M.FillEffect(s, f.symbol, SignedQty(f), f.price, f.fees);
    assert (trades + [t])[..|trades|] == trades;
    assert s.PositionQty(t.symbol) == SumBy(trades, SharesOfTrade(t.symbol));
  }

  lemma RoundedFee(fees: real)
    requires fees >= 0.0
    ensures Round6(fees) >= 0.0
  {
    RoundNonNegative(fees);
  }

  /** One more fill, if the ledger takes it, leaves the two in agreement. */
  lemma BookOne(s: M.LedgerState, trades: seq<Trade>, t: Trade, opening: real)
    requires s.Sound() && t.qty > 0.0 && t.fees >= 0.0 && InAgreement(s, trades, opening)
    requires DropsRightly(trades + [t], |trades|) && !Book(s, Reported(t)).raised
    ensures InAgreement(Book(s, Reported(t)).state, trades + [t], opening)
  {
    hide Notional, Round6, DropsRightly, SharesOfTrade, M.RecordFill;
    var f := Reported(t);
    SumSnoc(trades, t, CashOfTrade());
    SumSnoc(trades, t, Slack());
    RoundedCash(t);
    RoundedFee(t.fees);
    M.FillEffect(s, f.symbol, SignedQty(f), f.price, f.fees);
    forall symbol { SharesFollow(s, trades, t, symbol); }
  }

  // ----- what the broker's history provides -----

  ghost predicate ProperTrades(trades: seq<Trade>) {
    forall i :: 0 <= i < |trades| ==> trades[i].qty > 0.0 && trades[i].fees >= 0.0
  }

  ghost predicate ReportedAll(trades: seq<Trade>, fills: seq<Fill>) {
    |fills| == |trades| && forall i :: 0 <= i < |trades| ==> fills[i] == Reported(trades[i])
  }

  lemma ReportsAreProper(trades: seq<Trade>, fills: seq<Fill>)
    requires ProperTrades(trades) && ReportedAll(trades, fills)
    ensures ProperFills(fills)
  {
    forall i | 0 <= i < |fills|
      ensures ProperFill(fills[i])
    {
      RoundedFee(trades[i].fees);
    }
  }

  lemma OpenedAgrees(opening: real)
    requires opening > 0.0
    ensures ProperFills([]) && Booked(opening, []) == M.Opened(opening) && InAgreement(M.Opened(opening), [], opening)
  {
  }

  /** The history without its last fill, and the last fill. */
  lemma LastOne(trades: seq<Trade>, fills: seq<Fill>)
    requires trades != [] && ProperTrades(trades) && ReportedAll(trades, fills) && LittleDropped(trades)
    ensures |fills| == |trades|
    ensures var n := |trades| - 1;
            && ProperTrades(trades[..n]) && ReportedAll(trades[..n], fills[..n]) && LittleDropped(trades[..n])
            && trades == trades[..n] + [trades[n]] && DropsRightly(trades[..n] + [trades[n]], |trades[..n]|)
            && trades[n].qty > 0.0 && trades[n].fees >= 0.0 && fills[n] == Reported(trades[n])
  {
    hide SumBy, Reported;
    var n := |trades| - 1;
    assert trades == trades[..n] + [trades[n]] && trades[..n + 1] == trades;
    assert DropsRightly(trades, n);
    ShorterDropsRightly(trades, n);
  }

  lemma BookedLast(opening: real, fills: seq<Fill>)
    requires opening > 0.0 && ProperFills(fills) && fills != []
    ensures var n := |fills| - 1;
            && ProperFills(fills[..n]) && Booked(opening, fills[..n]).Sound()
            && Booked(opening, fills) == Book(Booked(opening, fills[..n]), fills[n]).state
  {
    hide Book;
  }

  /** No booking of the sequence raises. */
  ghost predicate NoneRefused(opening: real, fills: seq<Fill>)
    requires opening > 0.0 && ProperFills(fills)
  {
    forall k :: 0 <= k < |fills| ==> AcceptedAt(opening, fills, k)
  }

  ghost predicate AcceptedAt(opening: real, fills: seq<Fill>, k: nat)
    requires opening > 0.0 && ProperFills(fills) && k < |fills|
  {
    !Book(Booked(opening, fills[..k]), fills[k]).raised
  }

  lemma AcceptedBefore(opening: real, fills: seq<Fill>, n: nat)
    requires opening > 0.0 && ProperFills(fills) && NoneRefused(opening, fills) && n <= |fills|
    ensures ProperFills(fills[..n]) && NoneRefused(opening, fills[..n])
    ensures n < |fills| ==> !Book(Booked(opening, fills[..n]), fills[n]).raised
  {
    hide Book, Booked;
    forall k | 0 <= k < n
      ensures AcceptedAt(opening, fills[..n], k)
    {
      assert AcceptedAt(opening, fills, k);
      assert fills[..n][..k] == fills[..k];
    }
    if n < |fills| {
      assert AcceptedAt(opening, fills, n);
    }
  }

  /**
   If each broker fill is booked once, and no booking is refused, then ledger cash stays
   within half a micro-unit times the sum of (qty + 1) of the broker's cash, and every
   position agrees exactly.
   */
  lemma {:induction false} BookedLedgerAgrees(opening: real, trades: seq<Trade>, fills: seq<Fill>)
    requires opening > 0.0 && ProperTrades(trades) && ReportedAll(trades, fills) && LittleDropped(trades)
    requires ProperFills(fills) && NoneRefused(opening, fills)
    ensures InAgreement(Booked(opening, fills), trades, opening)
    decreases |trades|
  {
    if trades == [] {
      OpenedAgrees(opening);
      assert fills == [];
    } else {
      hide *;
      var n := |trades| - 1;
      LastOne(trades, fills);
      AcceptedBefore(opening, fills, n);
      BookedLedgerAgrees(opening, trades[..n], fills[..n]);
      BookedLast(opening, fills);
      BookOne(Booked(opening, fills[..n]), trades[..n], trades[n], opening);
    }
  }

  // ----- when the ledger refuses a fill -----

  /** What a reported fill does to cash. */
  function CashOfFill(): Fill -> real {
    (f: Fill) => -Notional(SignedQty(f), f.price) - f.fees
  }

  /** The reported fills so far are paid for. */
  ghost predicate PaidAt(opening: real, fills: seq<Fill>, k: nat)
    requires k < |fills|
  {
    opening + SumBy(fills[..k + 1], CashOfFill()) >= -EPS
  }

  lemma BookMovesCash(s: M.LedgerState, f: Fill)
    requires s.Sound() && f.fees >= 0.0 && !Book(s, f).raised
    ensures Book(s, f).state.cash == s.cash + CashOfFill()(f)
  {
    hide Notional, Lots.BlendedCost;
    M.FillEffect(s, f.symbol, SignedQty(f), f.price, f.fees);
  }

  /** Booked without refusal, the ledger's cash is the opening cash and that of the reported fills. */
  lemma {:induction false} LedgerCash(opening: real, fills: seq<Fill>)
    requires opening > 0.0 && ProperFills(fills) && NoneRefused(opening, fills)
    ensures Booked(opening, fills).cash == opening + SumBy(fills, CashOfFill())
    decreases |fills|
  {
    hide Book, NoneRefused, CashOfFill;
    if fills != [] {
      var n := |fills| - 1;
      AcceptedBefore(opening, fills, n);
      LedgerCash(opening, fills[..n]);
      BookMovesCash(Booked(opening, fills[..n]), fills[n]);
    }
  }

  lemma HistoryPrefix(trades: seq<Trade>, fills: seq<Fill>, k: nat)
    requires ProperTrades(trades) && ReportedAll(trades, fills) && LittleDropped(trades) && ProperFills(fills) && k <= |trades|
    ensures ProperTrades(trades[..k]) && ReportedAll(trades[..k], fills[..k]) && LittleDropped(trades[..k]) && ProperFills(fills[..k])
    ensures k < |trades| ==> DropsRightly(trades[..k] + [trades[k]], |trades[..k]|)
    ensures k < |trades| ==> trades[k].qty > 0.0 && trades[k].fees >= 0.0 && fills[k] == Reported(trades[k])
  {
    hide SumBy, Reported;
    ShorterDropsRightly(trades, k);
    if k < |trades| {
      assert DropsRightly(trades, k);
      assert (trades[..k] + [trades[k]])[..k] == trades[..k];
    }
  }

  /** With everything before it booked, a fill is accepted exactly when it is paid for. */
  lemma NextAcceptedIff(opening: real, trades: seq<Trade>, fills: seq<Fill>, k: nat)
    requires opening > 0.0 && ProperTrades(trades) && ReportedAll(trades, fills) && LittleDropped(trades)
    requires ProperFills(fills) && k < |fills| && ProperFills(fills[..k]) && NoneRefused(opening, fills[..k])
    ensures AcceptedAt(opening, fills, k) <==> PaidAt(opening, fills, k)
  {
    hide Booked, Book, InAgreement, NoneRefused, ProperTrades, LittleDropped, DropsRightly, Reported;
    HistoryPrefix(trades, fills, k);
    BookedLedgerAgrees(opening, trades[..k], fills[..k]);
    LedgerCash(opening, fills[..k]);
    BookingRefusedIff(Booked(opening, fills[..k]), trades[..k], trades[k], opening);
    SumPrefix(fills, k, CashOfFill());
  }

  lemma {:induction false} AcceptedSoFar(opening: real, trades: seq<Trade>, fills: seq<Fill>, n: nat)
    requires opening > 0.0 && ProperTrades(trades) && ReportedAll(trades, fills) && LittleDropped(trades)
    requires ProperFills(fills) && n <= |fills| && forall k :: 0 <= k < n ==> PaidAt(opening, fills, k)
    ensures ProperFills(fills[..n]) && NoneRefused(opening, fills[..n])
  {
    hide Booked, Book, PaidAt, ReportedAll, ProperTrades, LittleDropped;
    if n > 0 {
      AcceptedSoFar(opening, trades, fills, n - 1);
      NextAcceptedIff(opening, trades, fills, n - 1);
      forall k | 0 <= k < n
        ensures AcceptedAt(opening, fills[..n], k)
      {
        assert fills[..n][..k] == fills[..k];
        if k < n - 1 {
          assert AcceptedAt(opening, fills[..n - 1], k);
          assert fills[..n - 1][..k] == fills[..k];
        }
      }
    }
  }

  /** No booking is refused exactly when every prefix of the reported fills is paid for by the opening cash. */
  lemma NoneRefusedIff(opening: real, trades: seq<Trade>, fills: seq<Fill>)
    requires opening > 0.0 && ProperTrades(trades) && ReportedAll(trades, fills) && LittleDropped(trades) && ProperFills(fills)
    ensures NoneRefused(opening, fills) <==> forall k :: 0 <= k < |fills| ==> PaidAt(opening, fills, k)
  {
    hide Booked, Book, PaidAt, ReportedAll, ProperTrades, LittleDropped;
    if NoneRefused(opening, fills) {
      forall k | 0 <= k < |fills|
        ensures PaidAt(opening, fills, k)
      {
        AcceptedBefore(opening, fills, k);
        NextAcceptedIff(opening, trades, fills, k);
        assert AcceptedAt(opening, fills, k);
      }
    }
    if forall k :: 0 <= k < |fills| ==> PaidAt(opening, fills, k) {
      AcceptedSoFar(opening, trades, fills, |fills|);
      assert fills[..|fills|] == fills;
    }
  }

  /** After the fill, the broker's total cash still covers the drift. */
  ghost predicate CushionedAt(trades: seq<Trade>, k: nat, opening: real)
    requires k < |trades|
  {
    opening + SumBy(trades[..k + 1], CashOfTrade()) >= Drift(trades[..k + 1]) - EPS
  }

  lemma {:induction false} ReportedCashDrifts(trades: seq<Trade>, fills: seq<Fill>)
    requires ProperTrades(trades) && ReportedAll(trades, fills)
    ensures SumBy(fills, CashOfFill()) >= SumBy(trades, CashOfTrade()) - Drift(trades)
    decreases |trades|
  {
    hide Notional, Reported;
    if trades != [] {
      var n := |trades| - 1;
      ReportedCashDrifts(trades[..n], fills[..n]);
      RoundedCash(trades[n]);
    }
  }

  /** Cash enough to cover the drift is a sufficient cushion. */
  lemma CushionSuffices(opening: real, trades: seq<Trade>, fills: seq<Fill>)
    requires opening > 0.0 && ProperTrades(trades) && ReportedAll(trades, fills) && LittleDropped(trades) && ProperFills(fills)
    requires forall k :: 0 <= k < |trades| ==> CushionedAt(trades, k, opening)
    ensures NoneRefused(opening, fills)
  {
    hide NoneRefused, LittleDropped, Reported, SumBy;
    forall k | 0 <= k < |fills|
      ensures PaidAt(opening, fills, k)
    {
      assert CushionedAt(trades, k, opening);
      ReportedCashDrifts(trades[..k + 1], fills[..k + 1]);
    }
    NoneRefusedIff(opening, trades, fills);
  }

  // ----- the reconciliation engine -----

  datatype Mismatch =
    | BrokerUnreachable
    | CashMismatch
    | MissingAtBroker(symbol: string)
    | QtyMismatch(symbol: string)
    | MissingInLedger(symbol: string)

  /** The broker's cash as reported, each part rounded. */
  function ReportedCash(b: Broker): real {
    Round6(b.settled) + Round6(b.unsettled)
  }

  ghost predicate CashOff(b: Broker, s: M.LedgerState, tolerance: real) {
    Abs(ReportedCash(b) - s.cash) > tolerance
  }

  /** What is reported about one symbol, if anything. */
  ghost predicate Reports(b: Broker, s: M.LedgerState, tolerance: real, m: Mismatch) {
    match m
    case MissingAtBroker(symbol) => symbol in s.positions && symbol !in b.positions
    case MissingInLedger(symbol) => symbol in b.positions && symbol !in s.positions
    case QtyMismatch(symbol) =>
      symbol in s.positions && symbol in b.positions && Abs(b.positions[symbol].qty - s.positions[symbol].qty) > tolerance
    case _ => false
  }

  /** Cash as reported, symbols and quantities agree within their tolerances. */
  ghost predicate Agree(b: Broker, s: M.LedgerState, cashTolerance: real, qtyTolerance: real) {
    && Abs(Round6(b.settled) + Round6(b.unsettled) - s.cash) <= cashTolerance
    && b.positions.Keys == s.positions.Keys
    && forall symbol :: symbol in s.positions && symbol in b.positions ==>
         Abs(b.positions[symbol].qty - s.positions[symbol].qty) <= qtyTolerance
  }

  lemma EmptyIff(report: seq<Mismatch>)
    ensures report == [] <==> forall m :: m !in report
  {
    assert report != [] ==> report[0] in report;
  }

  lemma NothingToReportIff(b: Broker, s: M.LedgerState, cashTolerance: real, qtyTolerance: real)
    ensures Agree(b, s, cashTolerance, qtyTolerance) <==>
            !CashOff(b, s, cashTolerance) && forall m :: !Reports(b, s, qtyTolerance, m)
  {
    hide Round6;
    if !CashOff(b, s, cashTolerance) && forall m :: !Reports(b, s, qtyTolerance, m) {
      forall symbol
        ensures symbol in b.positions <==> symbol in s.positions
        ensures symbol in s.positions && symbol in b.positions ==>
                  Abs(b.positions[symbol].qty - s.positions[symbol].qty) <= qtyTolerance
      {
        assert !Reports(b, s, qtyTolerance, MissingAtBroker(symbol));
        assert !Reports(b, s, qtyTolerance, MissingInLedger(symbol));
        assert !Reports(b, s, qtyTolerance, QtyMismatch(symbol));
      }
    }
  }

  class ReconciliationEngine {
    const broker: PaperBroker
    const ledger: M.Ledger
    const cashTolerance: real
    const qtyTolerance: real
    var riskState: RiskState

    constructor (broker: PaperBroker, ledger: M.Ledger, cashTolerance: real, qtyTolerance: real)
      ensures this.broker == broker && this.ledger == ledger && riskState == NORMAL
      ensures this.cashTolerance == cashTolerance && this.qtyTolerance == qtyTolerance
    {
      this.broker, this.ledger, this.cashTolerance, this.qtyTolerance, riskState := broker, ledger, cashTolerance, qtyTolerance, NORMAL;
    }

    /** The ledger's positions, each looked up at the broker. */
    method LedgerSide() returns (report: seq<Mismatch>)
      ensures forall m :: m in report <==> !m.MissingInLedger? && Reports(broker.State(), ledger.State(), qtyTolerance, m)
    {
      report := [];
      var rest := ledger.positions.Keys;
      while rest != {}
        invariant rest <= ledger.positions.Keys
        invariant forall m :: m in report <==>
                    && !m.MissingInLedger? && Reports(broker.State(), ledger.State(), qtyTolerance, m)
                    && m.symbol !in rest
      {
        var symbol :| symbol in rest;
        if symbol !in broker.positions {
          report := report + [MissingAtBroker(symbol)];
        } else if Abs(broker.positions[symbol].qty - ledger.positions[symbol].qty) > qtyTolerance {
          report := report + [QtyMismatch(symbol)];
        }
        rest := rest - {symbol};
      }
    }

    /** The broker's positions the ledger does not have. */
    method BrokerSide() returns (report: seq<Mismatch>)
      ensures forall m :: m in report <==> m.MissingInLedger? && Reports(broker.State(), ledger.State(), qtyTolerance, m)
    {
      report := [];
      var rest := broker.positions.Keys;
      while rest != {}
        invariant rest <= broker.positions.Keys
        invariant forall m :: m in report <==>
                    m.MissingInLedger? && Reports(broker.State(), ledger.State(), qtyTolerance, m) && m.symbol !in rest
      {
        var symbol :| symbol in rest;
        if symbol !in ledger.positions {
          report := report + [MissingInLedger(symbol)];
        }
        rest := rest - {symbol};
      }
    }

    /**
     Reports exactly the disagreements beyond tolerance. Any disagreement halts new entries;
     an unreachable broker is a disconnect instead.
     */
    method Reconcile(market: Market) returns (report: seq<Mismatch>)
      modifies this`riskState
      ensures market.fault == DISCONNECT ==> report == [BrokerUnreachable] && riskState == FULL_BROKER_DISCONNECT
      ensures market.fault != DISCONNECT ==>
                forall m :: m in report <==>
                  (m == CashMismatch && CashOff(broker.State(), ledger.State(), cashTolerance))
                  || Reports(broker.State(), ledger.State(), qtyTolerance, m)
      ensures market.fault != DISCONNECT ==>
                (report == [] <==> Agree(broker.State(), ledger.State(), cashTolerance, qtyTolerance))
      ensures market.fault != DISCONNECT ==> riskState == if report == [] then old(riskState) else HALT_NEW_ENTRIES
    {
      if market.fault == DISCONNECT {
        riskState := FULL_BROKER_DISCONNECT;
        return [BrokerUnreachable];
      }
      var settled, unsettled := Round6(broker.settled), Round6(broker.unsettled);
      var cash := if Abs(settled + unsettled - ledger.cash) > cashTolerance then [CashMismatch] else [];
      var fromLedger := LedgerSide();
      var fromBroker := BrokerSide();
      report := cash + fromLedger + fromBroker;
      NothingToReportIff(broker.State(), ledger.State(), cashTolerance, qtyTolerance);
      EmptyIff(report);
      if report != [] {
        riskState := HALT_NEW_ENTRIES;
      }
    }
  }

  // ----- how long reconciliation stays silent -----

  ghost function QtyPlusOne(): Trade -> real {
    (t: Trade) => t.qty + 1.0
  }

  lemma DriftInShares(trades: seq<Trade>)
    ensures Drift(trades) == 0.0000005 * SumBy(trades, QtyPlusOne())
  {
    SumScale(trades, QtyPlusOne(), 0.0000005, Slack());
  }

  lemma PositionsMatch(b: Broker, opening: real, s: M.LedgerState, m: Mismatch, tolerance: real)
    requires Sound(b, opening) && s.Sound() && InAgreement(s, b.trades, opening) && tolerance >= 0.0
    ensures !Reports(b, s, tolerance, m)
  {
    if m.MissingAtBroker? || m.MissingInLedger? || m.QtyMismatch? {
      assert QtyIn(b.positions, m.symbol) == SumBy(b.trades, SharesOfTrade(m.symbol));
      assert s.PositionQty(m.symbol) == SumBy(b.trades, SharesOfTrade(m.symbol));
    }
  }

  lemma CashMatches(b: Broker, opening: real, s: M.LedgerState)
    requires Sound(b, opening) && InAgreement(s, b.trades, opening) && SumBy(b.trades, QtyPlusOne()) <= 99998.0
    ensures !CashOff(b, s, 0.05)
  {
    DriftInShares(b.trades);
    RoundError(b.settled);
    RoundError(b.unsettled);
  }

  lemma SoundTrades(b: Broker, opening: real)
    requires Sound(b, opening)
    ensures ProperTrades(b.trades) && ReportedAll(b.trades, b.fills) && LittleDropped(b.trades) && ProperFills(b.fills)
  {
    ReportsAreProper(b.trades, b.fills);
  }

  /**
   As long as the sum of (qty + 1) over all fills is at most 99998 and each fill was booked
   without refusal, reconciliation with the default tolerances finds nothing to report, in
   any state the broker can reach.
   */
  lemma ReconciliationStaysSilent(b: Broker, opening: real, m: Mismatch)
    requires opening > 0.0 && Sound(b, opening) && ProperFills(b.fills) && NoneRefused(opening, b.fills)
    requires SumBy(b.trades, QtyPlusOne()) <= 99998.0
    ensures var s := Booked(opening, b.fills); !CashOff(b, s, 0.05) && !Reports(b, s, 0.0001, m)
  {
    SoundTrades(b, opening);
    BookedLedgerAgrees(opening, b.trades, b.fills);
    CashMatches(b, opening, Booked(opening, b.fills));
    PositionsMatch(b, opening, Booked(opening, b.fills), m, 0.0001);
  }

  // ----- a purchase whose rounded price the ledger cannot pay -----

  const DEAR := Market(Fault.NONE, (s: string) => Quote(1.0, 1.0000006))

  const ALL_IN := Request("order-01", "X", BUY, 1.0, LimitOrder(1.0000006))

  lemma AllInFills()
    ensures var b := Submit(Opened(1.0000006, 0.0, 0.0), ALL_IN, DEAR);
      && b.trades == [Trade("order-01", "X", BUY, 1.0, 1.0000006, 0.0, 0.0)]
      && b.fills == [Fill("order-01", "X", BUY, 1.0, 1.000001, 0.0)]
      && "X" in b.positions
  {
    assert Micros(1.0000006) == 1000000.6 && Round6(1.0000006) == 1.000001;
    assert Round6(0.0) == 0.0;
    assert Notional(1.0, 1.0000006) == 1.0000006 && Notional(1.0000006, 0.0) == 0.0;
  }

  lemma DearIsSane()
    ensures DEAR.Sane()
  {
    assert Micros(1.0) == 1000000.0 && Micros(1.0000006) == 1000000.6;
  }

  /**
   An account that spends its last cent at a price that rounds up: the broker fills the
   order, the ledger refuses to book it, and reconciliation reports the position missing.
   */
  lemma RoundedUpPurchaseIsRefused() returns (b: Broker)
    ensures Sound(b, 1.0000006) && ProperFills(b.fills) && !NoneRefused(1.0000006, b.fills)
    ensures Reports(b, Booked(1.0000006, b.fills), 0.0001, MissingInLedger("X"))
  {
    hide Submit, Round6, Market.Sane;
    OpenedIsSound(1.0000006, 0.0, 0.0);
    DearIsSane();
    AllInFills();
    b := Submit(Opened(1.0000006, 0.0, 0.0), ALL_IN, DEAR);
    SubmitKeepsSound(Opened(1.0000006, 0.0, 0.0), ALL_IN, DEAR, 1.0000006);
    SoundTrades(b, 1.0000006);
    BookedLast(1.0000006, b.fills);
    assert b.fills[..0] == [];
    var first := M.Opened(1.0000006);
    assert Notional(1.0, 1.000001) == 1.000001;
    assert Book(first, b.fills[0]).raised && Book(first, b.fills[0]).state == first;
    assert !AcceptedAt(1.0000006, b.fills, 0);
  }
}
