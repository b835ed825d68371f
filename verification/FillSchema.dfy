/**
 What the paper broker does when a fill's price rounds to nothing
 (packages/broker_adapters/paper.py): cash and shares have moved by the time the fill is
 built, and the fill's schema (packages/schemas/core.py) refuses a price of zero.
 */
module FillSchema {
  import opened Numeric
  import opened Sums
  import opened OrderStates
  import opened Intents
  import opened PaperBrokers
  import opened Wrappers

  /** A call that returns, or one that raises and leaves the broker as it is at that moment. */
  datatype Executed = Done(b: Broker) | Failed(b: Broker)

  predicate RoundsAway(e: Execution) {
    e.Fills? && Round6(e.trade.price) <= 0.0
  }

  /** Executing an order, step by step: the books move, then the fill is built, then it is recorded. */
  function ExecuteAsCoded(b: Broker, id: string, m: Market): Executed
    requires id in b.orders && LongOnly(b.positions)
  {
    var e := Due(b, b.orders[id], m);
    if RoundsAway(e) then Failed(Settled(b, e.trade)) else Done(Execute(b, id, m))
  }

  function SubmitAsCoded(b: Broker, req: Request, m: Market): Executed
    requires LongOnly(b.positions)
  {
    if ReplyOf(b, req.id, m) in {Disconnected, Duplicate} then Done(b.(received := b.received + [req.id]))
    else ExecuteAsCoded(TakenIn(b, req), req.id, m)
  }

  /** The next order of a poll, which stops at the first that raises. */
  function ReconsiderAsCoded(before: Executed, id: string, m: Market): (r: Executed)
    requires id in before.b.orders && LongOnly(before.b.positions)
    ensures r.b.ids == before.b.ids && r.b.orders.Keys == before.b.orders.Keys && LongOnly(r.b.positions)
  {
    if before.Failed? || !Working(before.b.orders[id].state) then before
    else
      ReconsiderLongOnly(before.b, id, m);
      ExecuteAsCoded(before.b, id, m)
  }

  ghost function PollAsCoded(b: Broker, m: Market, k: nat): (r: Executed)
    requires k <= |b.ids| && Wired(b.ids, b.orders) && LongOnly(b.positions)
    ensures r.b.ids == b.ids && r.b.orders.Keys == b.orders.Keys && LongOnly(r.b.positions)
  {
    if k == 0 then Done(b)
    else
      var before := PollAsCoded(b, m, k - 1);
      assert b.ids[k - 1] in b.orders;
      ReconsiderAsCoded(before, b.ids[k - 1], m)
  }

  ghost function HandleAsCoded(b: Broker, op: BrokerOp): Executed
    requires Wired(b.ids, b.orders) && LongOnly(b.positions)
  {
    match op
    case SubmitOp(req, m) => SubmitAsCoded(b, req, m)
    case PollOp(m) => if m.fault == DISCONNECT then Done(b) else PollAsCoded(b, m, |b.ids|)
    case _ => Done(Handle(b, op))
  }

  // ----- when a call raises -----

  /** The new order would fill at once, at a price that rounds to nothing. */
  predicate SubmitRounds(b: Broker, req: Request, m: Market) {
    && ReplyOf(b, req.id, m) !in {Disconnected, Duplicate}
    && RoundsAway(Due(TakenIn(b, req), TakenIn(b, req).orders[req.id], m))
  }

  /** When the poll reaches order `k`, it is working and would fill at a price that rounds to nothing. */
  ghost predicate PollRoundsAt(b: Broker, m: Market, k: nat)
    requires k < |b.ids| && Wired(b.ids, b.orders) && LongOnly(b.positions)
  {
    var now := PollFirst(b, m, k);
    assert b.ids[k] in b.orders;
    Working(now.orders[b.ids[k]].state) && RoundsAway(Due(now, now.orders[b.ids[k]], m))
  }

  ghost predicate CallRounds(b: Broker, op: BrokerOp)
    requires Wired(b.ids, b.orders) && LongOnly(b.positions)
  {
    match op
    case SubmitOp(req, m) => SubmitRounds(b, req, m)
    case PollOp(m) => m.fault != DISCONNECT && exists k :: 0 <= k < |b.ids| && PollRoundsAt(b, m, k)
    case _ => false
  }

  lemma {:induction false} PollReturnsIff(b: Broker, m: Market, k: nat)
    requires k <= |b.ids| && Wired(b.ids, b.orders) && LongOnly(b.positions)
    ensures PollAsCoded(b, m, k).Done? <==> forall j :: 0 <= j < k ==> !PollRoundsAt(b, m, j)
    ensures PollAsCoded(b, m, k).Done? ==> PollAsCoded(b, m, k).b == PollFirst(b, m, k)
  {
    hide Due, Execute, RoundsAway, Wired, LongOnly;
    if k > 0 {
      PollReturnsIff(b, m, k - 1);
      PollUnfolds(b, m, k);
      var before, now, id := PollAsCoded(b, m, k - 1), PollFirst(b, m, k - 1), b.ids[k - 1];
      if before.Done? {
        assert PollRoundsAt(b, m, k - 1) <==> Working(now.orders[id].state) && RoundsAway(Due(now, now.orders[id], m));
      }
    }
  }

  /** A call raises exactly when one of its fills would have a price that rounds to nothing. */
  lemma ReturnsIff(b: Broker, op: BrokerOp)
    requires Wired(b.ids, b.orders) && LongOnly(b.positions)
    ensures HandleAsCoded(b, op).Done? <==> !CallRounds(b, op)
  {
    hide PollAsCoded, PollRoundsAt, Due, Execute, RoundsAway, Wired, LongOnly;
    if op.PollOp? && op.m.fault != DISCONNECT {
      PollReturnsIff(b, op.m, |b.ids|);
    }
  }

  ghost predicate LegalOp(op: BrokerOp) {
    match op
    case SubmitOp(req, m) => req.qty > 0.0 && m.Legal()
    case PollOp(m) => m.Legal()
    case _ => true
  }

  ghost predicate LegalOps(ops: seq<BrokerOp>) {
    forall op :: op in ops ==> LegalOp(op)
  }

  // ----- one execution -----

  /** Shares have moved and no fill says so. */
  lemma RaisingBreaksTheBooks(b: Broker, o: PaperOrder, t: Trade, opening: real)
    requires Sound(b, opening) && ProperTrade(b, o, t)
    ensures !Sound(Settled(b, t), opening)
  {
    assert QtyIn(b.positions, t.symbol) == SumBy(b.trades, SharesOfTrade(t.symbol));
    assert QtyIn(Settled(b, t).positions, t.symbol) != QtyIn(b.positions, t.symbol);
  }

  /** An execution keeps the books sound exactly when its fill's price does not round to nothing. */
  lemma ExecutionConservesIff(b: Broker, id: string, m: Market, opening: real)
    requires Sound(b, opening) && m.Legal() && id in b.orders && Working(b.orders[id].state)
    ensures LongOnly(b.positions)
    ensures Sound(ExecuteAsCoded(b, id, m).b, opening) <==> !RoundsAway(Due(b, b.orders[id], m))
    ensures ExecuteAsCoded(b, id, m) ==
      if RoundsAway(Due(b, b.orders[id], m)) then Failed(Settled(b, Due(b, b.orders[id], m).trade)) else Done(Execute(b, id, m))
  {
    hide OrderSide, ShareSide, CashSide, Execute;
    SoundOrder(b, id, opening);
    SoundIsUsable(b, opening);
    DueIsProper(b, b.orders[id], m);
    if RoundsAway(Due(b, b.orders[id], m)) {
      RaisingBreaksTheBooks(b, b.orders[id], Due(b, b.orders[id], m).trade, opening);
    } else {
      ExecuteKeepsSound(b, id, m, opening);
    }
  }

  lemma SubmitConservesIff(b: Broker, req: Request, m: Market, opening: real)
    requires Sound(b, opening) && req.qty > 0.0 && m.Legal()
    ensures LongOnly(b.positions)
    ensures Sound(SubmitAsCoded(b, req, m).b, opening) <==> !SubmitRounds(b, req, m)
    ensures SubmitAsCoded(b, req, m).Done? <==> !SubmitRounds(b, req, m)
    ensures SubmitAsCoded(b, req, m).Done? ==> SubmitAsCoded(b, req, m).b == Submit(b, req, m)
  {
    hide OrderSide, ShareSide, CashSide, ExecuteAsCoded, Execute;
    SoundIsUsable(b, opening);
    if ReplyOf(b, req.id, m) !in {Disconnected, Duplicate} {
      TakenInIsSound(b, req, opening);
      ExecutionConservesIff(TakenIn(b, req), req.id, m, opening);
    }
  }

  lemma TakenInIsSound(b: Broker, req: Request, opening: real)
    requires Sound(b, opening) && req.qty > 0.0 && req.id !in b.orders
    ensures Sound(TakenIn(b, req), opening)
  {
    hide OrderSide, ShareSide, CashSide;
    TakingInKeeps(b.ids, b.orders, req, b.trades, b.fills);
  }

  lemma RoundMonotone(x: real, y: real)
    requires x <= y
    ensures Round6(x) <= Round6(y)
  {
    assert Micros(x) <= Micros(y);
  }

  lemma OneCent()
    ensures Round6(0.01) > 0.0
  {
    assert Micros(0.01) == 10000.0;
  }

  /** At sane quotes no price rounds away. */
  lemma SanePricesSurvive(b: Broker, o: PaperOrder, m: Market)
    requires m.Sane() && ProperRates(b.feeBps, b.slipBps)
    ensures !RoundsAway(Due(b, o, m))
  {
    hide Round6;
    var e, quote := Due(b, o, m), m.quotes(o.request.symbol);
    if e.Fills? {
      NotionalLaws(quote.Mid(), 0.0, b.slipBps);
      if e.trade.price >= quote.ask {
        RoundMonotone(quote.ask, e.trade.price);
      } else if e.trade.price >= quote.bid {
        RoundMonotone(quote.bid, e.trade.price);
      } else {
        OneCent();
        RoundMonotone(0.01, e.trade.price);
      }
    }
  }

  lemma SaneExecutionReturns(b: Broker, id: string, m: Market, opening: real)
    requires Sound(b, opening) && m.Sane() && id in b.orders && LongOnly(b.positions)
    ensures ExecuteAsCoded(b, id, m).Done?
  {
    hide OrderSide, ShareSide, CashSide, Due, Execute;
    SanePricesSurvive(b, b.orders[id], m);
  }

  /** Sound exactly when done, and then where the idealised broker is. */
  ghost predicate Tracks(r: Executed, now: Broker, opening: real) {
    (Sound(r.b, opening) <==> r.Done?) && (r.Done? ==> r.b == now)
  }

  lemma ReconsiderConservesIff(before: Executed, now: Broker, id: string, m: Market, opening: real)
    requires Tracks(before, now, opening) && m.Legal()
    requires id in before.b.orders && LongOnly(before.b.positions) && id in now.orders && LongOnly(now.positions)
    ensures Tracks(ReconsiderAsCoded(before, id, m), Reconsider(now, id, m), opening)
    ensures m.Sane() && before.Done? ==> ReconsiderAsCoded(before, id, m).Done?
  {
    hide OrderSide, ShareSide, CashSide, ExecuteAsCoded, Execute, LongOnly;
    if before.Done? && Working(now.orders[id].state) {
      ExecutionConservesIff(now, id, m, opening);
      if m.Sane() {
        SaneExecutionReturns(now, id, m, opening);
      }
    }
  }

  lemma {:induction false} PollConservesIff(b: Broker, m: Market, k: nat, opening: real)
    requires Sound(b, opening) && m.Legal() && k <= |b.ids|
    ensures Wired(b.ids, b.orders) && LongOnly(b.positions)
    ensures Tracks(PollAsCoded(b, m, k), PollFirst(b, m, k), opening)
    ensures m.Sane() ==> PollAsCoded(b, m, k).Done?
  {
    hide *;
    PollStarts(b, m, opening);
    if k > 0 {
      PollConservesIff(b, m, k - 1, opening);
      PollUnfolds(b, m, k);
      ReconsiderConservesIff(PollAsCoded(b, m, k - 1), PollFirst(b, m, k - 1), b.ids[k - 1], m, opening);
    }
  }

  lemma PollStarts(b: Broker, m: Market, opening: real)
    requires Sound(b, opening)
    ensures Wired(b.ids, b.orders) && LongOnly(b.positions)
    ensures PollAsCoded(b, m, 0) == Done(b) && Tracks(PollAsCoded(b, m, 0), PollFirst(b, m, 0), opening)
  {
    hide OrderSide, ShareSide, CashSide;
    SoundIsUsable(b, opening);
  }

  lemma PollUnfolds(b: Broker, m: Market, k: nat)
    requires 0 < k <= |b.ids| && Wired(b.ids, b.orders) && LongOnly(b.positions)
    ensures var before, now := PollAsCoded(b, m, k - 1), PollFirst(b, m, k - 1);
      && b.ids[k - 1] in before.b.orders && LongOnly(before.b.positions)
      && b.ids[k - 1] in now.orders && LongOnly(now.positions)
      && PollAsCoded(b, m, k) == ReconsiderAsCoded(before, b.ids[k - 1], m)
      && PollFirst(b, m, k) == Reconsider(now, b.ids[k - 1], m)
  {
    hide Reconsider, ReconsiderAsCoded, LongOnly;
    assert b.ids[k - 1] in b.orders;
  }

  /** A call keeps the books sound exactly when no fill's price rounds to nothing; then it does what `Handle` says. */
  lemma HandleConservesIff(b: Broker, op: BrokerOp, opening: real)
    requires Sound(b, opening) && LegalOp(op)
    ensures Wired(b.ids, b.orders) && LongOnly(b.positions)
    ensures Sound(HandleAsCoded(b, op).b, opening) <==> !CallRounds(b, op)
    ensures !CallRounds(b, op) ==> HandleAsCoded(b, op) == Done(Handle(b, op))
  {
    hide Sound, SubmitAsCoded, PollAsCoded, Submit, Cancel, Settle, Wired, SubmitRounds, PollRoundsAt;
    SoundIsUsable(b, opening);
    ReturnsIff(b, op);
    match op
    case SubmitOp(req, m) => SubmitConservesIff(b, req, m, opening);
    case PollOp(m) => if m.fault != DISCONNECT { PollConservesIff(b, m, |b.ids|, opening); }
    case CancelOp(id, m) => CancelKeepsSound(b, id, m, opening);
    case SettleOp => SettleKeepsSound(b, opening);
  }

  // ----- runs -----

  /** The orders are still the same requests under the same ids. */
  ghost predicate SameRequests(before: map<string, PaperOrder>, after: map<string, PaperOrder>) {
    before.Keys == after.Keys && forall id :: id in before ==> after[id].request == before[id].request
  }

  lemma ExecuteKeepsRequests(b: Broker, id: string, m: Market)
    requires id in b.orders && LongOnly(b.positions)
    ensures SameRequests(b.orders, ExecuteAsCoded(b, id, m).b.orders) && ExecuteAsCoded(b, id, m).b.ids == b.ids
    ensures LongOnly(ExecuteAsCoded(b, id, m).b.positions)
  {
  }

  lemma {:induction false} PollKeepsRequests(b: Broker, m: Market, k: nat)
    requires k <= |b.ids| && Wired(b.ids, b.orders) && LongOnly(b.positions)
    ensures SameRequests(b.orders, PollAsCoded(b, m, k).b.orders)
  {
    hide ExecuteAsCoded, LongOnly;
    if k > 0 {
      PollKeepsRequests(b, m, k - 1);
      var before := PollAsCoded(b, m, k - 1);
      if before.Done? && Working(before.b.orders[b.ids[k - 1]].state) {
        ExecuteKeepsRequests(before.b, b.ids[k - 1], m);
      }
    }
  }

  lemma StillWired(ids: seq<string>, before: map<string, PaperOrder>, after: map<string, PaperOrder>)
    requires Wired(ids, before) && SameRequests(before, after)
    ensures Wired(ids, after)
  {
  }

  lemma TakenInIsWired(b: Broker, req: Request)
    requires Wired(b.ids, b.orders) && req.id !in b.orders
    ensures Wired(TakenIn(b, req).ids, TakenIn(b, req).orders)
  {
    var after := TakenIn(b, req);
    forall id | id in after.orders
      ensures id in after.ids && after.orders[id].request.id == id
    {
      assert after.ids[|b.ids|] == req.id;
      if id != req.id { assert id in b.ids; }
    }
  }

  /** Raised or not, the broker can take the next call. */
  lemma HandleStaysUsable(b: Broker, op: BrokerOp)
    requires Wired(b.ids, b.orders) && LongOnly(b.positions)
    ensures var after := HandleAsCoded(b, op).b; Wired(after.ids, after.orders) && LongOnly(after.positions)
  {
    hide ExecuteAsCoded, PollAsCoded, Wired, LongOnly;
    match op
    case SubmitOp(req, m) =>
      if ReplyOf(b, req.id, m) !in {Disconnected, Duplicate} {
        TakenInIsWired(b, req);
        ExecuteKeepsRequests(TakenIn(b, req), req.id, m);
        StillWired(TakenIn(b, req).ids, TakenIn(b, req).orders, SubmitAsCoded(b, req, m).b.orders);
      }
    case PollOp(m) =>
      if m.fault != DISCONNECT {
        PollKeepsRequests(b, m, |b.ids|);
        StillWired(b.ids, b.orders, PollAsCoded(b, m, |b.ids|).b.orders);
      }
    case CancelOp(id, m) => StillWired(b.ids, b.orders, Cancel(b, id, m).orders);
    case SettleOp =>
  }

  /** The broker after a run of calls, each made whether or not the ones before it raised. */
  ghost function CodedRun(b: Broker, ops: seq<BrokerOp>): (r: Broker)
    requires Wired(b.ids, b.orders) && LongOnly(b.positions)
    ensures Wired(r.ids, r.orders) && LongOnly(r.positions)
  {
    if ops == [] then b
    else
      var before := CodedRun(b, ops[..|ops| - 1]);
      HandleStaysUsable(before, ops[|ops| - 1]);
      HandleAsCoded(before, ops[|ops| - 1]).b
  }

  /** In call `k` of the run some fill's price rounds to nothing. */
  ghost predicate RoundsAt(b: Broker, ops: seq<BrokerOp>, k: nat)
    requires Wired(b.ids, b.orders) && LongOnly(b.positions) && k < |ops|
  {
    CallRounds(CodedRun(b, ops[..k]), ops[k])
  }

  ghost predicate SoundAt(b: Broker, ops: seq<BrokerOp>, k: nat, opening: real)
    requires Wired(b.ids, b.orders) && LongOnly(b.positions) && k <= |ops|
  {
    Sound(CodedRun(b, ops[..k]), opening)
  }

  lemma OneMoreCall(b: Broker, ops: seq<BrokerOp>, k: nat)
    requires Wired(b.ids, b.orders) && LongOnly(b.positions) && k < |ops|
    ensures CodedRun(b, ops[..k + 1]) == HandleAsCoded(CodedRun(b, ops[..k]), ops[k]).b
  {
    hide HandleAsCoded;
    assert ops[..k + 1][..k] == ops[..k];
  }

  lemma StepConservesIff(b: Broker, ops: seq<BrokerOp>, k: nat, opening: real)
    requires Wired(b.ids, b.orders) && LongOnly(b.positions) && LegalOps(ops) && k < |ops| && SoundAt(b, ops, k, opening)
    ensures SoundAt(b, ops, k + 1, opening) <==> !RoundsAt(b, ops, k)
  {
    hide Sound, HandleAsCoded, CodedRun, LegalOp, Wired, LongOnly;
    assert ops[k] in ops;
    OneMoreCall(b, ops, k);
    HandleConservesIff(CodedRun(b, ops[..k]), ops[k], opening);
  }

  lemma {:induction false} SoundSoFar(b: Broker, ops: seq<BrokerOp>, k: nat, opening: real)
    requires Sound(b, opening) && LegalOps(ops) && k <= |ops|
    requires Wired(b.ids, b.orders) && LongOnly(b.positions) && forall j :: 0 <= j < k ==> !RoundsAt(b, ops, j)
    ensures SoundAt(b, ops, k, opening)
  {
    hide Sound, RoundsAt, Wired, LongOnly, HandleAsCoded;
    if k > 0 {
      SoundSoFar(b, ops, k - 1, opening);
      StepConservesIff(b, ops, k - 1, opening);
    }
  }

  /**
   Over any run of calls at legal quotes, under any faults, the books are sound after every
   call exactly when no call of the run meets a fill whose price rounds to nothing.
   */
  lemma RunsConserveIff(b: Broker, ops: seq<BrokerOp>, opening: real)
    requires Sound(b, opening) && LegalOps(ops)
    ensures Wired(b.ids, b.orders) && LongOnly(b.positions)
    ensures (forall k :: 0 <= k <= |ops| ==> SoundAt(b, ops, k, opening)) <==>
            (forall k :: 0 <= k < |ops| ==> !RoundsAt(b, ops, k))
  {
    hide Sound, SoundAt, RoundsAt, Wired, LongOnly, LegalOps;
    SoundIsUsable(b, opening);
    if forall k :: 0 <= k <= |ops| ==> SoundAt(b, ops, k, opening) {
      forall k | 0 <= k < |ops|
        ensures !RoundsAt(b, ops, k)
      {
        assert SoundAt(b, ops, k, opening) && SoundAt(b, ops, k + 1, opening);
        StepConservesIff(b, ops, k, opening);
      }
    }
    if forall k :: 0 <= k < |ops| ==> !RoundsAt(b, ops, k) {
      forall k | 0 <= k <= |ops|
        ensures SoundAt(b, ops, k, opening)
      {
        SoundSoFar(b, ops, k, opening);
      }
    }
  }

  /**
   Conservation over any run of submits, polls, cancels and settlements, at any legal quotes
   and under any faults, from any opening cash, in which no fill's price rounds to nothing:
   fills, cash and positions all add up.
   */
  lemma RunsConserve(opening: real, feeBps: real, slipBps: real, ops: seq<BrokerOp>) returns (b: Broker)
    requires opening >= 0.0 && ProperRates(feeBps, slipBps) && LegalOps(ops)
    requires forall k :: 0 <= k < |ops| ==> !RoundsAt(Opened(opening, feeBps, slipBps), ops, k)
    ensures b == CodedRun(Opened(opening, feeBps, slipBps), ops) && Conserved(b, opening)
  {
    var start := Opened(opening, feeBps, slipBps);
    OpenedIsSound(opening, feeBps, slipBps);
    RunsConserveIff(start, ops, opening);
    b := CodedRun(start, ops);
    assert SoundAt(start, ops, |ops|, opening);
    assert ops[..|ops|] == ops;
    SoundIsConserved(b, opening);
  }

  // ----- proceeds wait for settlement -----

  /** What a fill takes out of settled cash. */
  function Spent(): Trade -> real {
    (t: Trade) => if t.side == BUY then Notional(t.qty, t.price) + t.fees else 0.0
  }

  /** Settled cash and everything ever spent on recorded purchases. */
  ghost function Purse(b: Broker): real {
    b.settled + SumBy(b.trades, Spent())
  }

  ghost predicate Solvent(b: Broker) {
    ProperRates(b.feeBps, b.slipBps) && b.settled >= -EPS
  }

  /** Sales do not move the purse; a purchase that raises leaves less in it than it found. */
  ghost predicate Spends(before: Broker, after: Broker) {
    Solvent(after) && Purse(after) <= Purse(before)
  }

  /** A fill costs money, and a purchase no more of it than there is. */
  ghost predicate Payable(b: Broker, t: Trade) {
    && t.qty > 0.0 && (t.side == SELL ==> t.symbol in b.positions)
    && (t.side == BUY ==> 0.0 <= Notional(t.qty, t.price) + t.fees <= b.settled + EPS)
  }

  lemma DueIsPayable(b: Broker, o: PaperOrder, m: Market)
    requires ProperRates(b.feeBps, b.slipBps) && m.Legal()
    ensures Due(b, o, m).Fills? ==> Payable(b, Due(b, o, m).trade)
  {
    PriceNotNegative(o.request, m.quotes(o.request.symbol), b.slipBps);
    if Due(b, o, m).Fills? {
      var t := Due(b, o, m).trade;
      NotionalLaws(t.qty, 0.0, t.price);
      FeeRange(Notional(t.qty, t.price), b.feeBps);
    }
  }

  lemma SettlingSpends(b: Broker, t: Trade)
    requires LongOnly(b.positions) && Solvent(b) && Payable(b, t)
    ensures Spends(b, Settled(b, t)) && Settled(b, t).settled + Spent()(t) == b.settled
  {
    hide Notional, Bought, Sold;
  }

  lemma ExecutionSpends(b: Broker, id: string, m: Market)
    requires id in b.orders && LongOnly(b.positions) && Solvent(b) && m.Legal()
    ensures Spends(b, ExecuteAsCoded(b, id, m).b)
  {
    hide Due, Settled, Notional, Round6;
    var e := Due(b, b.orders[id], m);
    DueIsPayable(b, b.orders[id], m);
    if e.Fills? {
      SettlingSpends(b, e.trade);
      SumSnoc(b.trades, e.trade, Spent());
    }
  }

  lemma {:induction false} PollSpends(b: Broker, m: Market, k: nat)
    requires Wired(b.ids, b.orders) && LongOnly(b.positions) && Solvent(b) && m.Legal() && k <= |b.ids|
    ensures Spends(b, PollAsCoded(b, m, k).b)
  {
    hide ExecuteAsCoded, Wired, LongOnly, Solvent;
    if k > 0 {
      PollSpends(b, m, k - 1);
      PollUnfolds(b, m, k);
      var before := PollAsCoded(b, m, k - 1);
      if before.Done? && Working(before.b.orders[b.ids[k - 1]].state) {
        ExecutionSpends(before.b, b.ids[k - 1], m);
      }
    }
  }

  lemma HandleSpends(b: Broker, op: BrokerOp)
    requires Wired(b.ids, b.orders) && LongOnly(b.positions) && Solvent(b) && LegalOp(op) && op != SettleOp
    ensures Spends(b, HandleAsCoded(b, op).b)
  {
    hide ExecuteAsCoded, PollAsCoded, Wired, LongOnly;
    match op
    case SubmitOp(req, m) =>
      if ReplyOf(b, req.id, m) !in {Disconnected, Duplicate} {
        ExecutionSpends(TakenIn(b, req), req.id, m);
      }
    case PollOp(m) =>
      if m.fault != DISCONNECT {
        PollSpends(b, m, |b.ids|);
      }
    case CancelOp(_, _) =>
  }

  lemma {:induction false} RunSpends(b: Broker, ops: seq<BrokerOp>)
    requires Wired(b.ids, b.orders) && LongOnly(b.positions) && Solvent(b) && LegalOps(ops) && SettleOp !in ops
    ensures Spends(b, CodedRun(b, ops))
  {
    hide HandleAsCoded, Wired, LongOnly, Solvent, LegalOp;
    if ops != [] {
      var n := |ops| - 1;
      assert ops[n] in ops;
      RunSpends(b, ops[..n]);
      HandleSpends(CodedRun(b, ops[..n]), ops[n]);
    }
  }

  /**
   Until the next settlement all purchases together cost no more than the settled cash
   there was (plus one tolerance, not one per purchase): sale proceeds cannot fund them, at
   any legal quotes and whether or not calls raise.
   */
  lemma ProceedsWaitForSettlement(b: Broker, ops: seq<BrokerOp>)
    requires Wired(b.ids, b.orders) && LongOnly(b.positions) && Solvent(b) && LegalOps(ops) && SettleOp !in ops
    ensures SumBy(CodedRun(b, ops).trades, Spent()) - SumBy(b.trades, Spent()) <= b.settled + EPS
  {
    RunSpends(b, ops);
  }

  // ----- quotes that cannot do this, and one that does -----

  ghost predicate SaneOp(op: BrokerOp) {
    match op
    case SubmitOp(req, m) => req.qty > 0.0 && m.Sane()
    case PollOp(m) => m.Sane()
    case _ => true
  }

  ghost predicate SaneOps(ops: seq<BrokerOp>) {
    forall op :: op in ops ==> SaneOp(op)
  }

  lemma SaneCallReturns(b: Broker, op: BrokerOp, opening: real)
    requires Sound(b, opening) && SaneOp(op)
    ensures Wired(b.ids, b.orders) && LongOnly(b.positions)
    ensures !CallRounds(b, op) && HandleAsCoded(b, op) == Done(Handle(b, op))
  {
    hide Sound, PollAsCoded, ExecuteAsCoded, Wired, LongOnly, Handle, CallRounds;
    SoundIsUsable(b, opening);
    ReturnsIff(b, op);
    HandleConservesIff(b, op, opening);
    match op
    case SubmitOp(req, m) =>
      if ReplyOf(b, req.id, m) !in {Disconnected, Duplicate} {
        TakenInIsSound(b, req, opening);
        SaneExecutionReturns(TakenIn(b, req), req.id, m, opening);
      }
    case PollOp(m) => if m.fault != DISCONNECT { PollConservesIff(b, m, |b.ids|, opening); }
    case _ =>
  }

  lemma SaneIsLegal(ops: seq<BrokerOp>)
    requires SaneOps(ops)
    ensures LegalOps(ops)
  {
    forall op | op in ops
      ensures LegalOp(op)
    {
      assert SaneOp(op);
    }
  }

  /** Runs whose quotes all stay positive when rounded meet no such fill, and so keep the books sound. */
  lemma {:induction false} SaneRunsReturn(b: Broker, ops: seq<BrokerOp>, k: nat, opening: real)
    requires Sound(b, opening) && SaneOps(ops) && k <= |ops|
    ensures Wired(b.ids, b.orders) && LongOnly(b.positions)
    ensures SoundAt(b, ops, k, opening) && forall j :: 0 <= j < k ==> !RoundsAt(b, ops, j)
  {
    hide Sound, HandleAsCoded, CallRounds, SaneOp, Wired, LongOnly, LegalOps;
    SoundIsUsable(b, opening);
    SaneIsLegal(ops);
    if k > 0 {
      SaneRunsReturn(b, ops, k - 1, opening);
      assert ops[k - 1] in ops;
      SaneCallReturns(CodedRun(b, ops[..k - 1]), ops[k - 1], opening);
      StepConservesIff(b, ops, k - 1, opening);
    }
  }

  /** Legal quotes for a share worth less than half a micro-unit. */
  function TinyMarket(): Market {
    Market(NONE, (s: string) => Quote(0.0000003, 0.0000004))
  }

  function TinyBuy(): Request {
    Request("order-01", "X", BUY, 1.0, LimitOrder(1.0))
  }

  /** Held whole shares of X bought so far, with nothing recorded. */
  ghost predicate Unrecorded(b: Broker, shares: real) {
    && b.feeBps == 0.0 && b.slipBps == 0.0 && b.settled == 1.0 - 0.0000004 * shares && LongOnly(b.positions)
    && b.fills == [] && b.PositionQty("X") == shares
    && TinyBuy().id in b.orders && b.orders[TinyBuy().id] == PaperOrder(TinyBuy(), ACKNOWLEDGED, 0.0, [])
  }

  lemma TinyCost()
    ensures Round6(0.0000004) == 0.0 && Notional(1.0, 0.0000004) == 0.0000004 && Notional(0.0000004, 0.0) == 0.0
  {
    assert Micros(0.0000004) == 0.4;
  }

  lemma TinyDue(b: Broker, shares: real)
    requires Unrecorded(b, shares) && 0.0 <= shares <= 1.0
    ensures Due(b, b.orders[TinyBuy().id], TinyMarket()) ==
            Fills(Trade(TinyBuy().id, "X", BUY, 1.0, 0.0000004, 0.0, 0.0))
  {
    hide Round6, Notional;
    TinyCost();
  }

  lemma BuysUnrecorded(b: Broker, shares: real)
    requires Unrecorded(b, shares) && 0.0 <= shares <= 1.0
    ensures ExecuteAsCoded(b, TinyBuy().id, TinyMarket()).Failed?
    ensures Unrecorded(ExecuteAsCoded(b, TinyBuy().id, TinyMarket()).b, shares + 1.0)
  {
    hide Round6, Notional, Due;
    TinyCost();
    TinyDue(b, shares);
  }

  /**
   A limit buy of one share at 0.0000004: the submit raises with the cash gone and the share
   held, no fill recorded and the order still acknowledged; so executing it at the next poll
   buys again.
   */
  lemma TinyPriceBuysAgain() returns (first: Executed, second: Executed)
    ensures TinyMarket().Legal() && LongOnly(Opened(1.0, 0.0, 0.0).positions)
    ensures first == SubmitAsCoded(Opened(1.0, 0.0, 0.0), TinyBuy(), TinyMarket())
    ensures first.Failed? && Unrecorded(first.b, 1.0)
    ensures second == ExecuteAsCoded(first.b, TinyBuy().id, TinyMarket()) && second.Failed? && Unrecorded(second.b, 2.0)
  {
    hide ExecuteAsCoded;
    BuysUnrecorded(TakenIn(Opened(1.0, 0.0, 0.0), TinyBuy()), 0.0);
    first := SubmitAsCoded(Opened(1.0, 0.0, 0.0), TinyBuy(), TinyMarket());
    BuysUnrecorded(first.b, 1.0);
    second := ExecuteAsCoded(first.b, TinyBuy().id, TinyMarket());
  }
}
