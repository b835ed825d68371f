/** Two concrete runs after which polling a recovered order raises (services/execution/engine.py). */
module StuckOrders {
  import opened Numeric
  import opened OrderStates
  import opened DurableStore
  import opened Intents
  import opened PaperBrokers
  import opened FillSchema
  import opened BrokerOrders
  import opened Execution
  import opened EngineRuns
  import opened Simulation
  import opened CrashRecovery
  import opened IllegalTransitions
  import opened Wrappers

  const CALM := Market(NONE, (s: string) => Quote(1.0, 1.0))
  const PAPER := Config("key", "PAPER")
  const OPENING := 100.0

  function ShareIntent(kind: OrderKind): OrderIntent {
    OrderIntent("order-01", "X", BUY, 1.0, kind, "PAPER", false, 0.0)
  }

  function ShareOrder(kind: OrderKind): ApprovedOrder {
    var hash := Payload("X", BUY, 1.0, kind, None, "DAY", "order-01");
    ApprovedOrder(ShareIntent(kind),
                  Approval("a", "order-01", "X", BUY, 1.0, hash, Signature("key", "a", "order-01", "X", BUY, 1.0, hash)))
  }

  function ShareSnapshot(kind: OrderKind): Snapshot {
    Snapshot("order-01", "X", BUY, 1.0, kind, None, "DAY", "a", Payload("X", BUY, 1.0, kind, None, "DAY", "order-01"))
  }

  function SubmitShare(kind: OrderKind): Call {
    SubmitCall(ShareOrder(kind), Some(ShareSnapshot(kind)))
  }

  function Start(): Sys {
    Sys(FRESH, World(map[], Opened(OPENING, 0.0, 0.0)))
  }

  lemma CalmIsSane()
    ensures CALM.Sane() && CALM.Legal()
  {
    assert Micros(1.0) == 1000000.0;
  }

  /** At the calm quotes the broker does not raise. */
  lemma ShareSubmitReturns(kind: OrderKind)
    ensures LongOnly(Start().world.broker.positions) && Usable(Start().world.broker)
    ensures SubmitAsCoded(Start().world.broker, ShareSnapshot(kind).RequestOf(), CALM)
         == Done(Submit(Start().world.broker, ShareSnapshot(kind).RequestOf(), CALM))
  {
    hide Market.Sane, Due, Execute;
    var b, req := Start().world.broker, ShareSnapshot(kind).RequestOf();
    CalmIsSane();
    SanePricesSurvive(TakenIn(b, req), TakenIn(b, req).orders[req.id], CALM);
  }

  lemma ShareDoesNotFault(kind: OrderKind)
    ensures Usable(Start().world.broker) && !CallFaults(FRESH, Start().world, PAPER, SubmitShare(kind), CALM)
  {
    hide SubmitAsCoded, Submit;
    ShareSubmitReturns(kind);
    ReturnsIff(Start().world.broker, SubmitOp(ShareSnapshot(kind).RequestOf(), CALM));
  }

  /** The world after the row has been written and the order sent. */
  lemma ShareSent(kind: OrderKind) returns (sent: World)
    ensures var first := [Inserted("order-01", ShareSnapshot(kind)), Sent(ShareSnapshot(kind).RequestOf())];
            sent == ApplyAll(Start().world, first, CALM)
    ensures sent.rows == map["order-01" := Row(ShareSnapshot(kind), SUBMITTED)]
    ensures sent.broker == Submit(Start().world.broker, ShareSnapshot(kind).RequestOf(), CALM)
  {
    hide Submit, SubmitAsCoded;
    FreshIsConsistent(OPENING, 0.0, 0.0);
    CalmIsSane();
    ShareSubmitReturns(kind);
    sent := FirstStepsSafe(Start().world, ShareSnapshot(kind), CALM);
  }

  /** A purchase the account can pay for fills at once. */
  lemma AffordableBuyFills(b: Broker, req: Request, m: Market, price: real)
    requires LongOnly(b.positions) && req.id !in b.orders && m.fault == NONE && req.side == BUY && req.qty > EPS
    requires FillPrice(req, m.quotes(req.symbol), b.slipBps) == Some(price)
    requires Notional(req.qty, price) + Notional(Notional(req.qty, price), b.feeBps) / 10000.0 <= b.settled
    ensures var after := Submit(b, req, m); req.id in after.orders && after.orders[req.id].state == FILLED
  {
    var taken := TakenIn(b, req);
    assert Due(taken, taken.orders[req.id], m).Fills?;
  }

  lemma MarketOrderFills()
    ensures var b := Submit(Start().world.broker, ShareSnapshot(MarketOrder).RequestOf(), CALM);
            "order-01" in b.orders && b.orders["order-01"].state == FILLED
  {
    assert Notional(1.0, 0.0) == 0.0 && Notional(1.0, 1.0) == 1.0;
    AffordableBuyFills(Start().world.broker, ShareSnapshot(MarketOrder).RequestOf(), CALM, 1.0);
  }

  lemma LowLimitRests()
    ensures var b := Submit(Start().world.broker, ShareSnapshot(LimitOrder(0.5)).RequestOf(), CALM);
            "order-01" in b.orders && b.orders["order-01"].state == ACKNOWLEDGED
  {
  }

  /** The recovered order: local state and row alike, the broker's as given. */
  ghost predicate RecoveredAs(s: Sys, local: OrderState, broker: OrderState) {
    && "order-01" in s.memory.machine.orders && s.memory.machine.orders["order-01"].state == local
    && "order-01" in s.world.broker.orders && s.world.broker.orders["order-01"].state == broker
  }

  lemma RecoverOne(s: Sys, row: OrderState) returns (t: Sys)
    requires s.memory == FRESH && "order-01" in s.world.rows && s.world.rows["order-01"].state == row
    ensures Follows(s, PAPER, Completed(RecoverCall, CALM), t)
    ensures t.world == s.world && "order-01" in t.memory.machine.orders && t.memory.machine.orders["order-01"].state == row
  {
    NoEffect(s.world, CALM);
    t := Take(s, PAPER, Completed(RecoverCall, CALM));
  }

  lemma RunOfTwo(a: Sys, b: Sys, c: Sys, first: Step, second: Step)
    requires Follows(a, PAPER, first, b) && Follows(b, PAPER, second, c)
    ensures IsRun([a, b, c], PAPER, [first, second])
  {
    hide Follows;
  }

  lemma RunOfThree(a: Sys, b: Sys, c: Sys, d: Sys, first: Step, second: Step, third: Step)
    requires Follows(a, PAPER, first, b) && Follows(b, PAPER, second, c) && Follows(c, PAPER, third, d)
    ensures IsRun([a, b, c, d], PAPER, [first, second, third])
  {
    hide Follows;
  }

  lemma SubmitTrace(kind: OrderKind)
    ensures var trace := Run(FRESH, Start().world, PAPER, SubmitShare(kind), CALM).trace;
            |trace| >= 2 && trace[..2] == [Inserted("order-01", ShareSnapshot(kind)), Sent(ShareSnapshot(kind).RequestOf())]
  {
  }

  lemma StuckPollRaises(s: Sys, local: OrderState, broker: OrderState)
    requires RecoveredAs(s, local, broker) && Stuck(local, broker)
    ensures Poll(s.memory, s.world, "order-01", CALM).result == Raised(IllegalTransition)
  {
  }

  lemma CrashFollows(kind: OrderKind, sent: World)
    requires var trace := Run(FRESH, Start().world, PAPER, SubmitShare(kind), CALM).trace;
             |trace| >= 2 && sent == ApplyAll(Start().world, trace[..2], CALM)
    ensures Follows(Start(), PAPER, Crashed(SubmitShare(kind), CALM, 2), Sys(FRESH, sent))
  {
    hide Run, ApplyAll;
  }

  lemma DeadAfterSend(kind: OrderKind) returns (dead: Sys)
    ensures Follows(Start(), PAPER, Crashed(SubmitShare(kind), CALM, 2), dead)
    ensures dead.memory == FRESH && "order-01" in dead.world.rows && dead.world.rows["order-01"].state == SUBMITTED
    ensures dead.world.broker == Submit(Start().world.broker, ShareSnapshot(kind).RequestOf(), CALM)
  {
    hide Run, Submit, Follows;
    SubmitTrace(kind);
    var sent := ShareSent(kind);
    dead := Sys(FRESH, sent);
    CrashFollows(kind, sent);
  }

  /**
   A process that dies after the broker has filled an order, before the answer is saved:
   after recovery the order is SUBMITTED here, FILLED there, and polling it raises.
   */
  lemma CrashAfterSendIsStuck() returns (states: seq<Sys>, steps: seq<Step>)
    ensures |steps| == 2 && IsRun(states, PAPER, steps) && states[0] == Start()
    ensures RecoveredAs(states[2], SUBMITTED, FILLED)
    ensures Poll(states[2].memory, states[2].world, "order-01", CALM).result == Raised(IllegalTransition)
  {
    var dead := DeadAfterSend(MarketOrder);
    MarketOrderFills();
    var recovered := RecoverOne(dead, SUBMITTED);
    StuckPollRaises(recovered, SUBMITTED, FILLED);
    var crash, recover := Crashed(SubmitShare(MarketOrder), CALM, 2), Completed(RecoverCall, CALM);
    RunOfTwo(Start(), dead, recovered, crash, recover);
    states, steps := [Start(), dead, recovered], [crash, recover];
  }

  // ----- a crash in the middle of a stale check -----

  /** An accepted order that rests at the broker is ACKNOWLEDGED locally. */
  lemma RestingReply(m: Memory, w: World, id: string, market: Market)
    requires id in m.machine.orders && m.machine.orders[id].state == SUBMITTED && id in w.rows && market.fault != DISCONNECT
    requires id in w.broker.orders && w.broker.orders[id].state == ACKNOWLEDGED
    ensures var o := AfterReply(m, w, id, Accepted, market);
            && o.memory.submitted == m.submitted && id in o.memory.machine.orders
            && o.memory.machine.orders[id].state == ACKNOWLEDGED
  {
  }

  lemma ShareNotRefused(kind: OrderKind)
    ensures Refusal(FRESH, map[], PAPER.key, PAPER.environment, ShareOrder(kind), Some(ShareSnapshot(kind))).None?
  {
  }

  /** The memory of an accepted submission, from the reply on. */
  lemma SubmissionUnfolds(
    m: Memory, w: World, cfg: Config, order: ApprovedOrder, snapshot: Snapshot, market: Market, sent: World)
    returns (ready: Memory)
    requires Refusal(m, w.rows, cfg.key, cfg.environment, order, Some(snapshot)).None? && order.intent.id !in m.machine.orders
    requires sent == ApplyAll(w, [Inserted(order.intent.id, snapshot), Sent(snapshot.RequestOf())], market)
    requires !SendRaises(w.broker, snapshot.RequestOf(), market)
    ensures var id := order.intent.id;
            && SubmitOrder(m, w, cfg.key, cfg.environment, order, Some(snapshot), market).memory
               == AfterReply(ready, sent, id, ReplyOf(w.broker, snapshot.id, market), market).memory
            && id in ready.machine.orders && ready.machine.orders[id].state == SUBMITTED
            && ready.submitted == m.submitted[id := order]
  {
    var id := order.intent.id;
    ready := m.(snapshots := m.snapshots[id := snapshot], machine := Prepared(m.machine, id).machine, submitted := m.submitted[id := order]);
  }

  lemma ShareAccepted(kind: OrderKind) returns (ready: Memory, sent: World)
    ensures var id, order, snapshot := "order-01", ShareOrder(kind), ShareSnapshot(kind);
            && SubmitOrder(FRESH, Start().world, PAPER.key, PAPER.environment, order, Some(snapshot), CALM).memory
               == AfterReply(ready, sent, id, ReplyOf(Start().world.broker, id, CALM), CALM).memory
            && id in ready.machine.orders && ready.machine.orders[id].state == SUBMITTED && id in sent.rows
            && ready.submitted == map[id := order]
            && sent.broker == Submit(Start().world.broker, snapshot.RequestOf(), CALM)
  {
    hide Submit, SubmitAsCoded;
    sent := ShareSent(kind);
    ShareNotRefused(kind);
    ShareSubmitReturns(kind);
    ready := SubmissionUnfolds(FRESH, Start().world, PAPER, ShareOrder(kind), ShareSnapshot(kind), CALM, sent);
    assert FRESH.submitted["order-01" := ShareOrder(kind)] == map["order-01" := ShareOrder(kind)];
  }

  lemma RestingSubmitted() returns (resting: Sys)
    ensures Follows(Start(), PAPER, Completed(SubmitShare(LimitOrder(0.5)), CALM), resting)
    ensures Sim(resting.memory, resting.world)
    ensures resting.memory.submitted == map["order-01" := ShareOrder(LimitOrder(0.5))]
    ensures "order-01" in resting.memory.machine.orders && resting.memory.machine.orders["order-01"].state == ACKNOWLEDGED
  {
    hide Mirrors, Healthy, AfterReply, ApplyAll;
    var kind := LimitOrder(0.5);
    FreshIsInStep(OPENING, 0.0, 0.0);
    CalmIsSane();
    ShareDoesNotFault(kind);
    CallKeepsSim(FRESH, Start().world, PAPER, SubmitShare(kind), CALM);
    var ready, sent := ShareAccepted(kind);
    LowLimitRests();
    RestingReply(ready, sent, "order-01", CALM);
    resting := Take(Start(), PAPER, Completed(SubmitShare(kind), CALM));
  }

  /** The first durable step of a stale check of this one order is the cancel. */
  lemma StaleTrace(m: Memory, w: World, id: string, order: ApprovedOrder)
    requires m.submitted == map[id := order] && !order.intent.protective && order.intent.createdAt == 0.0
    requires id in m.machine.orders && m.machine.orders[id].state == ACKNOWLEDGED
    ensures var trace := VisitFirst(CancelIfStale(301.0, 300.0), m, w, [id], 1, CALM).trace;
            |trace| >= 1 && trace[..1] == [CancelSent(id)]
  {
    var chore := CancelIfStale(301.0, 300.0);
    hide Visit;
    var v := Visit(chore, m, w, id, CALM);
    StaleVisitCancels(m, w, id, order);
    VisitOneMore(chore, m, w, [id], 0, CALM, Outcome(m, [], Finished), w, v);
    assert [] + v.trace == v.trace;
  }

  lemma StaleVisitCancels(m: Memory, w: World, id: string, order: ApprovedOrder)
    requires m.submitted == map[id := order] && !order.intent.protective && order.intent.createdAt == 0.0
    requires id in m.machine.orders && m.machine.orders[id].state == ACKNOWLEDGED
    ensures var v := Visit(CancelIfStale(301.0, 300.0), m, w, id, CALM);
      |v.trace| >= 1 && v.trace[0] == CancelSent(id)
  {
    hide Cancel, Poll;
  }

  lemma DeadInStaleCheck(resting: Sys) returns (dead: Sys)
    requires Sim(resting.memory, resting.world)
    requires resting.memory.submitted == map["order-01" := ShareOrder(LimitOrder(0.5))]
    requires "order-01" in resting.memory.machine.orders && resting.memory.machine.orders["order-01"].state == ACKNOWLEDGED
    ensures Follows(resting, PAPER, Crashed(StaleCall(["order-01"], 301.0, 300.0), CALM, 1), dead)
    ensures dead.memory == FRESH && "order-01" in dead.world.rows && dead.world.rows["order-01"].state == ACKNOWLEDGED
    ensures "order-01" in dead.world.broker.orders && dead.world.broker.orders["order-01"].state == CANCELLED
  {
    var id, m, w := "order-01", resting.memory, resting.world;
    StaleTrace(m, w, id, ShareOrder(LimitOrder(0.5)));
    assert InStep(id, ACKNOWLEDGED, w.rows[id].state, w.broker.orders);
    FoldOne(Stepper(CALM), w, CancelSent(id));
    dead := Sys(FRESH, Apply(w, CancelSent(id), CALM));
  }

  /**
   A process that dies in a stale check after the broker has cancelled, before the cancel
   is saved: after recovery the order is ACKNOWLEDGED here, CANCELLED there, and polling
   it raises.
   */
  lemma CrashInStaleCheckIsStuck() returns (states: seq<Sys>, steps: seq<Step>)
    ensures |steps| == 3 && IsRun(states, PAPER, steps) && states[0] == Start()
    ensures RecoveredAs(states[3], ACKNOWLEDGED, CANCELLED)
    ensures Poll(states[3].memory, states[3].world, "order-01", CALM).result == Raised(IllegalTransition)
  {
    var resting := RestingSubmitted();
    var dead := DeadInStaleCheck(resting);
    var recovered := RecoverOne(dead, ACKNOWLEDGED);
    StuckPollRaises(recovered, ACKNOWLEDGED, CANCELLED);
    var submit, crash := Completed(SubmitShare(LimitOrder(0.5)), CALM), Crashed(StaleCall(["order-01"], 301.0, 300.0), CALM, 1);
    var recover := Completed(RecoverCall, CALM);
    RunOfThree(Start(), resting, dead, recovered, submit, crash, recover);
    states, steps := [Start(), resting, dead, recovered], [submit, crash, recover];
  }
}
