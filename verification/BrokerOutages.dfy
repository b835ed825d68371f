/**
 What the engine tells the risk controller about the broker (services/execution/engine.py):
 an order it has no answer for stops new entries, a lost connection stops everything.
 */
module BrokerOutages {
  import opened OrderStates
  import opened DurableStore
  import opened Intents
  import opened PaperBrokers
  import opened FillSchema
  import opened BrokerOrders
  import opened Execution
  import opened EngineRuns
  import opened Simulation
  import opened CrashRecovery
  import opened RiskStates
  import opened Wrappers

  /** The answer to a submission, once it is known that it can be recorded. */
  lemma ReplySignals(m: Memory, w: World, id: string, reply: Reply, market: Market)
    requires id in m.machine.orders && m.machine.orders[id].state == SUBMITTED && id in w.rows
    requires reply == Accepted ==> market.fault != DISCONNECT && id in w.broker.orders && Progress(ACKNOWLEDGED, w.broker.orders[id].state)
    requires reply in {Accepted, TimedOut, Disconnected}
    ensures var o := AfterReply(m, w, id, reply, market);
      && (o.result == Returned(UNKNOWN) <==> reply in {TimedOut, Disconnected})
      && o.memory.risk == (if reply == TimedOut then HALT_NEW_ENTRIES
                           else if reply == Disconnected then FULL_BROKER_DISCONNECT else m.risk)
  {
  }

  /** A broker that turns the order down ends it: rejected here and in its row, nothing else touched. */
  lemma RefusalEnds(m: Memory, w: World, id: string, market: Market)
    requires id in m.machine.orders && m.machine.orders[id].state == SUBMITTED && id in w.rows
    ensures var o := AfterReply(m, w, id, NotAccepted, market);
      var after := ApplyAll(w, o.trace, market);
      && o.result == Returned(REJECTED) && o.memory.risk == m.risk && after.broker == w.broker
      && id in o.memory.machine.orders && o.memory.machine.orders[id].state == REJECTED
      && after.rows == w.rows[id := w.rows[id].(state := REJECTED)]
  {
    LegalMove(m, w, id, REJECTED, market);
  }

  lemma DispatchSignals(m: Memory, w: World, ready: Memory, id: string, snapshot: Snapshot, market: Market)
    requires Consistent(m, w) && market.Legal() && snapshot.Frozen() && snapshot.id == id && id !in w.rows
    requires id in ready.machine.orders && ready.machine.orders[id].state == SUBMITTED
    ensures var o := Dispatched(ready, w, id, snapshot, market);
      && (!o.result.Raised? ==> (o.result == Returned(UNKNOWN) <==> market.fault in {TIMEOUT, DISCONNECT}))
      && o.memory.risk == (if o.result == Returned(UNKNOWN)
                           then (if market.fault == TIMEOUT then HALT_NEW_ENTRIES else FULL_BROKER_DISCONNECT)
                           else ready.risk)
  {
    hide Orderly, AfterReply, Apply, Fold, RowsFit, LocalsFit;
    var sent := FirstStepsSafe(w, snapshot, market);
    KnownHaveRows(m, w);
    SubmissionHeard(w, snapshot.RequestOf(), market);
    ReplySignals(ready, sent, id, ReplyOf(w.broker, id, market), market);
  }

  lemma KnownHaveRows(m: Memory, w: World)
    requires Consistent(m, w)
    ensures w.broker.orders.Keys <= w.rows.Keys && m.machine.orders.Keys <= w.rows.Keys
  {
  }

  /**
   A submission that reaches the broker and is answered ends UNKNOWN exactly when the answer
   timed out or the connection was down, and then the controller has been told: no new entries
   after a timeout, a full stop after a disconnect. In any other case its state is untouched.
   */
  lemma SubmissionSignals(
    m: Memory, w: World, cfg: Config, order: ApprovedOrder, snapshot: Option<Snapshot>, market: Market)
    requires Consistent(m, w) && market.Legal() && (snapshot.Some? ==> snapshot.value.Frozen())
    ensures var o := SubmitOrder(m, w, cfg.key, cfg.environment, order, snapshot, market);
      && (o.trace != [] && !o.result.Raised? ==>
            (o.result == Returned(UNKNOWN) <==> market.fault in {TIMEOUT, DISCONNECT}))
      && o.memory.risk == (if o.result == Returned(UNKNOWN)
                           then (if market.fault == TIMEOUT then HALT_NEW_ENTRIES else FULL_BROKER_DISCONNECT)
                           else m.risk)
  {
    hide Consistent, Dispatched, Verifies;
    if Refusal(m, w.rows, cfg.key, cfg.environment, order, snapshot).None? {
      var id := order.intent.id;
      KnownHaveRows(m, w);
      var ready := m.(snapshots := m.snapshots[id := snapshot.value], machine := Prepared(m.machine, id).machine,
                      submitted := m.submitted[id := order]);
      DispatchSignals(m, w, ready, id, snapshot.value, market);
    }
  }

  lemma VisitLeavesRisk(chore: Chore, m: Memory, w: World, id: string, market: Market)
    ensures Visit(chore, m, w, id, market).memory.risk == m.risk
  {
  }

  lemma {:induction false} VisitsLeaveRisk(chore: Chore, m: Memory, w: World, ids: seq<string>, k: nat, market: Market)
    requires k <= |ids|
    ensures VisitFirst(chore, m, w, ids, k, market).memory.risk == m.risk
  {
    hide Visit, ApplyAll;
    if k > 0 {
      VisitsLeaveRisk(chore, m, w, ids, k - 1, market);
      var before := VisitFirst(chore, m, w, ids, k - 1, market);
      VisitLeavesRisk(chore, before.memory, ApplyAll(w, before.trace, market), ids[k - 1], market);
    }
  }

  /** A sync that finds the connection down tells the controller; no other call but a submission tells it anything. */
  lemma OtherCallsSignal(m: Memory, w: World, cfg: Config, c: Call, market: Market)
    requires !c.SubmitCall?
    ensures Run(m, w, cfg, c, market).memory.risk
         == if c.SyncCall? && market.fault == DISCONNECT then FULL_BROKER_DISCONNECT else m.risk
  {
    hide VisitFirst, Apply;
    match c
    case PollCall(_) =>
    case ResolveCall(_) =>
    case SyncCall(ids) => VisitsLeaveRisk(PollIfWorking, m, Apply(w, RestingPolled, market), ids, |ids|, market);
    case StaleCall(ids, now, limit) => VisitsLeaveRisk(CancelIfStale(now, limit), m, w, ids, |ids|, market);
    case RecoverCall =>
  }

  // ----- settling an order without an answer -----

  /**
   Asking about an order in UNKNOWN settles it: if the broker can be reached and holds it, the
   order and its row take on the broker's state; otherwise nothing changes and it stays UNKNOWN.
   */
  lemma ResolvingSettles(m: Memory, w: World, cfg: Config, market: Market, id: string)
    requires Consistent(m, w) && id in m.machine.orders && m.machine.orders[id].state == UNKNOWN
    ensures var o := Run(m, w, cfg, ResolveCall(id), market);
      var after := ApplyAll(w, o.trace, market);
      if market.fault != DISCONNECT && id in w.broker.orders then
        var state := w.broker.orders[id].state;
        && o.result == Returned(state) && after.broker == w.broker
        && id in o.memory.machine.orders && o.memory.machine.orders[id].state == state
        && after.rows.Keys == w.rows.Keys && id in after.rows && after.rows[id].state == state
      else o == Outcome(m, [], Returned(UNKNOWN)) && after == w
  {
    hide Fold, LocalsFit, RowsFit;
    NoEffect(w, market);
    KnownHaveRows(m, w);
    if market.fault != DISCONNECT && id in w.broker.orders {
      OrderOf(w.broker, id);
      OneEffect(w, Saved(id, w.broker.orders[id].state), market);
    }
  }

  /** An order that is not in UNKNOWN is left as it is. */
  lemma ResolvingLeavesTheRest(m: Memory, w: World, cfg: Config, market: Market, id: string)
    requires id in m.machine.orders && m.machine.orders[id].state != UNKNOWN
    ensures var o := Run(m, w, cfg, ResolveCall(id), market); o.memory == m && o.trace == []
  {
  }
}
