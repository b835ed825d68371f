/**
 At what price, for how much and at what fee the paper broker fills
 (packages/broker_adapters/paper.py): fills cross the spread and pay slippage and fees.
 */
module FillPrices {
  import opened Numeric
  import opened Sums
  import opened OrderStates
  import opened Intents
  import opened PaperBrokers
  import opened FillSchema

  /** What crossing the market costs beyond the touch: so many hundredths of a percent of the mid price. */
  function SlippageOf(q: Quote, slipBps: real): real {
    Notional((q.bid + q.ask) / 2.0, slipBps) / 10000.0
  }

  /**
   A market purchase pays the ask and the slippage; a market sale, or a triggered sell stop,
   gets the bid less the slippage, and at least a cent; a limit order fills at the touch, and
   only when that is within its limit.
   */
  ghost predicate FairlyPriced(price: real, req: Request, q: Quote, slipBps: real) {
    match req.kind
    case MarketOrder =>
      (req.side == BUY ==> price == q.ask + SlippageOf(q, slipBps))
      && (req.side == SELL ==> price == Max(0.01, q.bid - SlippageOf(q, slipBps)))
    case LimitOrder(limit) =>
      (req.side == BUY ==> price == q.ask <= limit) && (req.side == SELL ==> price == q.bid >= limit)
    case StopOrder(stop) =>
      req.side == SELL && q.bid <= stop && price == Max(0.01, q.bid - SlippageOf(q, slipBps))
  }

  /** A fill of order `req` at quote `q`. */
  ghost predicate FairFill(t: Trade, req: Request, q: Quote, feeBps: real, slipBps: real) {
    && t.orderId == req.id && t.symbol == req.symbol && t.side == req.side
    && FairlyPriced(t.price, req, q, slipBps)
    && t.fees == Notional(Notional(t.qty, t.price), feeBps) / 10000.0
  }

  /** It fills all that is outstanding, or half of it under the partial-fill fault. */
  ghost predicate FillsTheRest(t: Trade, o: PaperOrder, m: Market) {
    t.qty == if m.fault == PARTIAL_FILL then (o.request.qty - o.filledQty) / 2.0 else o.request.qty - o.filledQty
  }

  /** A limit beyond the touch, an untouched stop, or a buy stop: the order goes on resting. */
  predicate Untriggered(req: Request, q: Quote) {
    match req.kind
    case MarketOrder => false
    case LimitOrder(limit) => if req.side == BUY then q.ask > limit else q.bid < limit
    case StopOrder(stop) => req.side == BUY || q.bid > stop
  }

  /** A purchase is covered by settled cash, a sale by shares held, within one tolerance. */
  predicate Covered(b: Broker, t: Trade) {
    if t.side == BUY then Notional(t.qty, t.price) + t.fees <= b.settled + EPS
    else t.symbol in b.positions && t.qty <= b.PositionQty(t.symbol) + EPS
  }

  // ----- one execution -----

  lemma RestsUntriggered(b: Broker, id: string, m: Market)
    requires id in b.orders && LongOnly(b.positions)
    requires var o := b.orders[id]; Untriggered(o.request, m.quotes(o.request.symbol)) || o.request.qty - o.filledQty <= EPS
    ensures ExecuteAsCoded(b, id, m) == Done(b)
  {
  }

  /** The fill that is due, apart from the dust it may drop. */
  ghost predicate DueAs(e: Execution, t: Trade) {
    e.Fills? && e.trade == t.(dropped := e.trade.dropped)
  }

  lemma DueExactly(b: Broker, o: PaperOrder, m: Market, t: Trade)
    requires o.request.qty - o.filledQty > EPS && FillsTheRest(t, o, m)
    requires FairFill(t, o.request, m.quotes(o.request.symbol), b.feeBps, b.slipBps)
    ensures if Covered(b, t) then DueAs(Due(b, o, m), t) else Due(b, o, m) == CannotFill
  {
    hide Notional;
  }

  /**
   Any other working order fills at once, as `t` says, exactly when it is covered. An order
   that is not is rejected if nothing of it has filled yet, and otherwise left as it is.
   */
  lemma ExecutesExactly(b: Broker, id: string, m: Market, t: Trade)
    requires id in b.orders && LongOnly(b.positions)
    requires var o := b.orders[id]; o.request.qty - o.filledQty > EPS && FillsTheRest(t, o, m)
    requires FairFill(t, b.orders[id].request, m.quotes(b.orders[id].request.symbol), b.feeBps, b.slipBps)
    ensures var r := ExecuteAsCoded(b, id, m);
      && (Covered(b, t) && Round6(t.price) > 0.0 ==>
            r.Done? && exists dropped :: r.b.trades == b.trades + [t.(dropped := dropped)])
      && (Covered(b, t) && Round6(t.price) <= 0.0 ==> r.Failed? && r.b.trades == b.trades)
      && (!Covered(b, t) ==>
            r == Done(if b.orders[id].filledQty <= EPS then b.(orders := b.orders[id := b.orders[id].(state := REJECTED)]) else b))
  {
    hide Due, FairFill, Covered, Round6, FillsTheRest;
    DueExactly(b, b.orders[id], m, t);
    if Covered(b, t) && Round6(t.price) > 0.0 {
      var trade := Due(b, b.orders[id], m).trade;
      assert ExecuteAsCoded(b, id, m).b.trades == b.trades + [t.(dropped := trade.dropped)];
    }
  }

  /** Whatever an execution records is such a fill, of all that was outstanding. */
  lemma RecordsFairFill(b: Broker, id: string, m: Market)
    requires id in b.orders && LongOnly(b.positions)
    ensures var after, o := ExecuteAsCoded(b, id, m).b, b.orders[id];
      after.trades == b.trades
      || (exists t :: after.trades == b.trades + [t] && FillsTheRest(t, o, m)
                      && FairFill(t, o.request, m.quotes(o.request.symbol), b.feeBps, b.slipBps))
  {
    hide Notional, Round6;
    var e := Due(b, b.orders[id], m);
    if e.Fills? && !RoundsAway(e) {
      assert ExecuteAsCoded(b, id, m).b.trades == b.trades + [e.trade];
    }
  }

  /**
   A purchase leaves the position at the average of what was held and what was bought, rounded
   to the nearest micro-unit; a sale leaves the average cost of the rest alone.
   */
  lemma PositionCosts(b: Broker, id: string, m: Market)
    requires id in b.orders && LongOnly(b.positions) && ExecuteAsCoded(b, id, m).b.trades != b.trades
    ensures var after := ExecuteAsCoded(b, id, m).b;
      var t := after.trades[|after.trades| - 1];
      var held := if t.symbol in b.positions then b.positions[t.symbol] else Position(0.0, 0.0);
      && (t.side == BUY ==>
            && t.symbol in after.positions && after.positions[t.symbol].qty == held.qty + t.qty > 0.0
            && Abs(after.positions[t.symbol].avgCost
                   - (Notional(held.qty, held.avgCost) + Notional(t.qty, t.price)) / (held.qty + t.qty)) <= MICRO / 2.0)
      && (t.side == SELL && t.symbol in after.positions ==> after.positions[t.symbol].avgCost == held.avgCost)
  {
    hide Round6, Notional;
    var e := Due(b, b.orders[id], m);
    var t := e.trade;
    var held := if t.symbol in b.positions then b.positions[t.symbol] else Position(0.0, 0.0);
    assert ExecuteAsCoded(b, id, m).b.trades == b.trades + [t];
    RoundError((Notional(held.qty, held.avgCost) + Notional(t.qty, t.price)) / (held.qty + t.qty));
  }

  // ----- one call -----

  /** The trades from `k` on are fair fills, at the quotes of `m`, of orders the broker holds. */
  ghost predicate FairFrom(b: Broker, k: nat, m: Market) {
    forall i :: k <= i < |b.trades| ==>
      && b.trades[i].orderId in b.orders
      && FairFill(b.trades[i], b.orders[b.trades[i].orderId].request, m.quotes(b.trades[i].symbol), b.feeBps, b.slipBps)
  }

  /** Orders, requests, rates and trades there were are still there. */
  ghost predicate Builds(before: Broker, after: Broker) {
    && before.trades <= after.trades && before.feeBps == after.feeBps && before.slipBps == after.slipBps
    && forall id :: id in before.orders ==> id in after.orders && after.orders[id].request == before.orders[id].request
  }

  lemma ExecutionBuilds(b: Broker, id: string, m: Market, k: nat)
    requires Wired(b.ids, b.orders) && id in b.orders && LongOnly(b.positions) && k <= |b.trades| && FairFrom(b, k, m)
    ensures Builds(b, ExecuteAsCoded(b, id, m).b) && FairFrom(ExecuteAsCoded(b, id, m).b, k, m)
  {
    hide FairFill, Due, Round6;
    var after := ExecuteAsCoded(b, id, m).b;
    ExecuteKeepsRequests(b, id, m);
    RecordsFairFill(b, id, m);
    if after.trades != b.trades {
      var o := b.orders[id];
      var t :| after.trades == b.trades + [t] && FairFill(t, o.request, m.quotes(o.request.symbol), b.feeBps, b.slipBps);
      FairFillNames(t, o.request, m.quotes(o.request.symbol), b.feeBps, b.slipBps);
    }
  }

  lemma FairFillNames(t: Trade, req: Request, q: Quote, feeBps: real, slipBps: real)
    requires FairFill(t, req, q, feeBps, slipBps)
    ensures t.orderId == req.id && t.symbol == req.symbol
  {
  }

  lemma BuildsOn(a: Broker, b: Broker, c: Broker)
    requires Builds(a, b) && Builds(b, c)
    ensures Builds(a, c)
  {
  }

  /** Where a poll stands. */
  ghost predicate BuiltFairly(b: Broker, now: Broker, m: Market) {
    Builds(b, now) && FairFrom(now, |b.trades|, m) && Wired(now.ids, now.orders)
  }

  lemma ReconsideringBuilds(b: Broker, before: Executed, id: string, m: Market)
    requires BuiltFairly(b, before.b, m) && id in before.b.orders && LongOnly(before.b.positions)
    ensures BuiltFairly(b, ReconsiderAsCoded(before, id, m).b, m)
  {
    hide Wired, LongOnly, ExecuteAsCoded, FairFrom, Builds;
    if before.Done? && Working(before.b.orders[id].state) {
      var after := ExecuteAsCoded(before.b, id, m).b;
      BuiltMore(b, before.b);
      ExecutionBuilds(before.b, id, m, |b.trades|);
      BuildsOn(b, before.b, after);
      ExecuteKeepsRequests(before.b, id, m);
      StillWired(before.b.ids, before.b.orders, after.orders);
    }
  }

  lemma PollBegins(b: Broker, m: Market)
    requires Wired(b.ids, b.orders) && LongOnly(b.positions)
    ensures PollAsCoded(b, m, 0) == Done(b) && BuiltFairly(b, b, m)
  {
  }

  lemma {:induction false} PollBuilds(b: Broker, m: Market, k: nat)
    requires Wired(b.ids, b.orders) && LongOnly(b.positions) && k <= |b.ids|
    ensures BuiltFairly(b, PollAsCoded(b, m, k).b, m)
  {
    hide *;
    PollBegins(b, m);
    if k > 0 {
      PollBuilds(b, m, k - 1);
      PollUnfolds(b, m, k);
      ReconsideringBuilds(b, PollAsCoded(b, m, k - 1), b.ids[k - 1], m);
    }
  }

  lemma BuiltMore(b: Broker, after: Broker)
    requires Builds(b, after)
    ensures |b.trades| <= |after.trades|
  {
  }

  /** What a call adds are fair fills at the quotes it saw; a call that sees none adds nothing. */
  lemma CallFillsFairly(b: Broker, op: BrokerOp)
    requires Wired(b.ids, b.orders) && LongOnly(b.positions)
    ensures var after := HandleAsCoded(b, op).b;
      && Builds(b, after)
      && (if op.SubmitOp? || op.PollOp? then FairFrom(after, |b.trades|, op.m) else after.trades == b.trades)
  {
    hide ExecuteAsCoded, PollAsCoded, Wired, LongOnly, FairFill;
    match op
    case SubmitOp(req, m) =>
      if ReplyOf(b, req.id, m) !in {Disconnected, Duplicate} {
        TakenInIsWired(b, req);
        ExecutionBuilds(TakenIn(b, req), req.id, m, |b.trades|);
      }
    case PollOp(m) =>
      if m.fault != DISCONNECT {
        PollBuilds(b, m, |b.ids|);
      }
    case _ =>
  }

  // ----- whole runs -----

  /** Trade `i` is a fair fill at the quotes some call of the run saw. */
  ghost predicate FairInRun(after: Broker, i: nat, ops: seq<BrokerOp>)
    requires i < |after.trades|
  {
    exists j :: 0 <= j < |ops| && FairAt(after, i, ops[j])
  }

  ghost predicate FairAt(after: Broker, i: nat, op: BrokerOp)
    requires i < |after.trades|
  {
    var t := after.trades[i];
    && (op.SubmitOp? || op.PollOp?) && t.orderId in after.orders
    && FairFill(t, after.orders[t.orderId].request, op.m.quotes(t.symbol), after.feeBps, after.slipBps)
  }

  lemma FairStaysFair(before: Broker, after: Broker, i: nat, op: BrokerOp)
    requires Builds(before, after) && i < |before.trades| && FairAt(before, i, op)
    ensures i < |after.trades| && FairAt(after, i, op)
  {
  }

  /** Over any run of calls, whether or not they raise, every trade is a fair fill of the order it names. */
  lemma {:induction false} EveryFillIsFair(b: Broker, ops: seq<BrokerOp>, i: nat)
    requires Wired(b.ids, b.orders) && LongOnly(b.positions) && |b.trades| <= i < |CodedRun(b, ops).trades|
    ensures FairInRun(CodedRun(b, ops), i, ops)
  {
    hide HandleAsCoded, Wired, LongOnly, FairAt, Builds;
    if ops != [] {
      var n := |ops| - 1;
      var before, after := CodedRun(b, ops[..n]), CodedRun(b, ops);
      CallFillsFairly(before, ops[n]);
      if i < |before.trades| {
        EveryFillIsFair(b, ops[..n], i);
        var j :| 0 <= j < n && FairAt(before, i, ops[..n][j]);
        FairStaysFair(before, after, i, ops[j]);
      } else {
        FairNow(before, after, ops[n], i);
      }
    }
  }

  lemma FairNow(before: Broker, after: Broker, op: BrokerOp, i: nat)
    requires |before.trades| <= i < |after.trades|
    requires if op.SubmitOp? || op.PollOp? then FairFrom(after, |before.trades|, op.m) else after.trades == before.trades
    ensures FairAt(after, i, op)
  {
  }

  lemma {:induction false} RunBuilds(b: Broker, ops: seq<BrokerOp>)
    requires Wired(b.ids, b.orders) && LongOnly(b.positions)
    ensures Builds(b, CodedRun(b, ops))
  {
    hide HandleAsCoded, Wired, LongOnly, Builds, FairFrom;
    if ops == [] {
      StaysAsBuilt(b);
    } else {
      var n := |ops| - 1;
      RunBuilds(b, ops[..n]);
      CallFillsFairly(CodedRun(b, ops[..n]), ops[n]);
      BuildsOn(b, CodedRun(b, ops[..n]), CodedRun(b, ops));
    }
  }

  lemma StaysAsBuilt(b: Broker)
    ensures Builds(b, b)
  {
  }

  /** No fill of a run is better than the touch: purchases pay the ask or more, sales get the bid, or a cent, or less. */
  lemma NoFillBeatsTheTouch(b: Broker, ops: seq<BrokerOp>, i: nat) returns (j: nat)
    requires Wired(b.ids, b.orders) && LongOnly(b.positions) && |b.trades| <= i < |CodedRun(b, ops).trades|
    requires b.slipBps >= 0.0 && LegalOps(ops)
    ensures j < |ops| && (ops[j].SubmitOp? || ops[j].PollOp?)
    ensures var t, q := CodedRun(b, ops).trades[i], ops[j].m.quotes(CodedRun(b, ops).trades[i].symbol);
            if t.side == BUY then t.price >= q.ask else t.price <= Max(0.01, q.bid)
  {
    hide CodedRun, Wired, LongOnly, LegalOp;
    var after := CodedRun(b, ops);
    RunBuilds(b, ops);
    EveryFillIsFair(b, ops, i);
    j :| 0 <= j < |ops| && FairAt(after, i, ops[j]);
    assert ops[j] in ops;
    var t := after.trades[i];
    LegalQuotes(ops[j], t.symbol);
    FairIsNoBetter(t, after.orders[t.orderId].request, ops[j].m.quotes(t.symbol), after.feeBps, after.slipBps);
  }

  lemma LegalQuotes(op: BrokerOp, symbol: string)
    requires LegalOp(op) && (op.SubmitOp? || op.PollOp?)
    ensures op.m.quotes(symbol).bid > 0.0 && op.m.quotes(symbol).ask > 0.0
  {
  }

  lemma FairIsNoBetter(t: Trade, req: Request, q: Quote, feeBps: real, slipBps: real)
    requires FairFill(t, req, q, feeBps, slipBps) && q.bid > 0.0 && q.ask > 0.0 && slipBps >= 0.0
    ensures if t.side == BUY then t.price >= q.ask else t.price <= Max(0.01, q.bid)
  {
    NotionalLaws((q.bid + q.ask) / 2.0, 0.0, slipBps);
  }
}
