/**
 Exactly when a call raises an illegal transition, after any run with crashes anywhere
 (services/execution/engine.py, services/execution/state_machine.py).
 */
module IllegalTransitions {
  import opened OrderStates
  import opened DurableStore
  import opened Intents
  import opened PaperBrokers
  import opened FillSchema
  import opened BrokerOrders
  import opened Execution
  import opened EngineRuns
  import opened Simulation
  import opened CrashRecovery
  import opened Wrappers

  /** The three ways a known order can be out of reach of a poll. */
  ghost predicate Stuck(local: OrderState, broker: OrderState) {
    || (local == SUBMITTED && broker in {PARTIALLY_FILLED, FILLED})
    || (local == ACKNOWLEDGED && broker == CANCELLED)
    || (local == CANCEL_REQUESTED && broker == REJECTED)
  }

  ghost predicate HeldAs(w: World, id: string, state: OrderState) {
    id in w.broker.orders && w.broker.orders[id].state == state
  }

  /** The order at which a loop raises. */
  ghost predicate VisitStuck(chore: Chore, m: Memory, w: World, id: string) {
    match chore
    case PollIfWorking => id in m.machine.orders && m.machine.orders[id].state == ACKNOWLEDGED && HeldAs(w, id, CANCELLED)
    case CancelIfStale(now, limit) => Stale(m, id, now, limit) && HeldAs(w, id, REJECTED)
  }

  /**
   A poll: the order was filled before the answer to its submission was saved, or cancelled
   before the cancel was, or rejected before a cancel was asked for. A sync: some order was
   cancelled before the cancel was saved. A stale check: some stale order was rejected.
   */
  ghost predicate CallStuck(m: Memory, w: World, c: Call, market: Market) {
    market.fault != DISCONNECT
    && match c
       case PollCall(id) =>
         id in m.machine.orders && id in w.broker.orders && Stuck(m.machine.orders[id].state, w.broker.orders[id].state)
       case SyncCall(_) =>
         !RestingPollRaises(w.broker, market) && exists id :: id in m.machine.orders && VisitStuck(PollIfWorking, m, w, id)
       case StaleCall(_, now, limit) => exists id :: id in m.submitted && VisitStuck(CancelIfStale(now, limit), m, w, id)
       case _ => false
  }

  // ----- one order -----

  /** What is known of one order in a consistent state. */
  ghost predicate OrderFits(m: Memory, w: World, id: string) {
    && id in m.machine.orders && id in w.rows
    && LocalFits(m.machine.orders[id].state, w.rows[id].state, id, w.broker.orders)
    && RowFits(w.rows[id].state, id, w.broker.orders)
    && (id in w.broker.orders ==> OrderSound(w.broker.orders[id]))
  }

  lemma ConsistentOrder(m: Memory, w: World, id: string)
    requires Consistent(m, w) && id in m.machine.orders
    ensures OrderFits(m, w, id)
  {
    hide LocalFits, RowFits, OrderSound;
  }

  lemma PollRaisesWhen(m: Memory, w: World, id: string, market: Market)
    requires OrderFits(m, w, id) && id in w.broker.orders && market.fault != DISCONNECT
    ensures Poll(m, w, id, market).result ==
      if Stuck(m.machine.orders[id].state, w.broker.orders[id].state) then Raised(IllegalTransition)
      else Returned(if TakenOver(w.broker.orders[id].state) then w.broker.orders[id].state else m.machine.orders[id].state)
  {
  }

  lemma ResolveRaisesNever(m: Memory, w: World, id: string, market: Market)
    requires OrderFits(m, w, id)
    ensures !ResolveUnknown(m, w, id, market).result.Raised?
  {
  }

  lemma VisitRaisesWhen(chore: Chore, m: Memory, w: World, id: string, market: Market)
    requires OrderFits(m, w, id) && market.fault != DISCONNECT
    ensures Visit(chore, m, w, id, market).result.Raised? <==> VisitStuck(chore, m, w, id)
    ensures VisitStuck(chore, m, w, id) ==> Visit(chore, m, w, id, market).result == Raised(IllegalTransition)
  {
  }

  // ----- loops -----

  lemma StillAsBefore(chore: Chore, m: Memory, w: World, before: Memory, now: World, ids: seq<string>, k: nat)
    requires k < |ids| && NoRepeats(ids) && Elsewhere(m, w, before, now, ids[..k])
    ensures VisitStuck(chore, before, now, ids[k]) <==> VisitStuck(chore, m, w, ids[k])
    ensures ids[k] in m.machine.orders <==> ids[k] in before.machine.orders
  {
    assert ids[k] !in ids[..k];
  }

  /** The loop over `ids` can be run from here. */
  ghost predicate Loopable(chore: Chore, m: Memory, w: World, ids: seq<string>, market: Market) {
    && Consistent(m, w) && market.Legal() && market.fault != DISCONNECT && NoRepeats(ids)
    && forall id :: id in ids ==> id in m.machine.orders && (chore.CancelIfStale? ==> id in m.submitted)
  }

  ghost predicate StuckWithin(chore: Chore, m: Memory, w: World, ids: seq<string>, k: nat)
    requires k <= |ids|
  {
    exists j :: 0 <= j < k && VisitStuck(chore, m, w, ids[j])
  }

  /** A loop raises exactly when one of the orders it has visited is stuck, judged before the loop. */
  lemma {:induction false} LoopRaisesIff(chore: Chore, m: Memory, w: World, ids: seq<string>, k: nat, market: Market)
    requires Loopable(chore, m, w, ids, market) && k <= |ids|
    ensures var result := VisitFirst(chore, m, w, ids, k, market).result;
      && (result.Raised? <==> StuckWithin(chore, m, w, ids, k))
      && (result.Raised? ==> result == Raised(IllegalTransition))
  {
    hide Consistent, Visit, VisitStuck, Elsewhere, ApplyAll, Recoverable;
    if k > 0 {
      LoopRaisesIff(chore, m, w, ids, k - 1, market);
      var before, now := LoopIsRecoverable(chore, m, w, ids, k - 1, market);
      if !before.result.Raised? {
        OneMoreVisit(chore, m, w, ids, k - 1, market, before, now);
      }
    }
  }

  lemma OneMoreVisit(
    chore: Chore, m: Memory, w: World, ids: seq<string>, k: nat, market: Market, before: Outcome, now: World)
    requires Loopable(chore, m, w, ids, market) && k < |ids| && LoopSafe(m, w, before, now, market)
    requires before == VisitFirst(chore, m, w, ids, k, market) && !before.result.Raised?
    ensures var result := VisitFirst(chore, m, w, ids, k + 1, market).result;
      && (result.Raised? <==> VisitStuck(chore, m, w, ids[k])) && (result.Raised? ==> result == Raised(IllegalTransition))
  {
    hide Consistent, Visit, VisitStuck, Elsewhere, ApplyAll, SafeTrace, LocalsFit, OrderFits;
    VisitsTouchOnly(chore, m, w, ids, k, market);
    StillAsBefore(chore, m, w, before.memory, now, ids, k);
    assert ids[k] in ids;
    ConsistentOrder(before.memory, now, ids[k]);
    VisitRaisesWhen(chore, before.memory, now, ids[k], market);
    VisitOneMore(chore, m, w, ids, k, market, before, now, Visit(chore, before.memory, now, ids[k], market));
  }

  lemma StuckSomewhere(chore: Chore, m: Memory, w: World, ids: seq<string>, keys: set<string>)
    requires Lists(ids, keys)
    ensures StuckWithin(chore, m, w, ids, |ids|) <==> exists id :: id in keys && VisitStuck(chore, m, w, id)
  {
    if id :| id in keys && VisitStuck(chore, m, w, id) {
      assert id in ids;
      var j :| 0 <= j < |ids| && ids[j] == id;
    }
    if j :| 0 <= j < |ids| && VisitStuck(chore, m, w, ids[j]) {
      assert ids[j] in keys;
    }
  }

  /** Being cancelled is final, and only a cancel leads there: the resting poll changes nothing about who is stuck. */
  lemma PolledStuck(m: Memory, w: World, id: string, market: Market)
    requires Consistent(m, w) && market.Legal()
    ensures VisitStuck(PollIfWorking, m, Apply(w, RestingPolled, market), id) <==> VisitStuck(PollIfWorking, m, w, id)
  {
    hide HandleAsCoded;
    RestingPollProgresses(w.broker, market);
  }

  lemma SyncRaisesIff(m: Memory, w: World, ids: seq<string>, market: Market)
    requires Consistent(m, w) && market.Legal() && Lists(ids, m.machine.orders.Keys)
    ensures SyncOpen(m, w, ids, market).result == Raised(IllegalTransition) <==> CallStuck(m, w, SyncCall(ids), market)
  {
    if market.fault != DISCONNECT && !RestingPollRaises(w.broker, market) {
      var polled := Apply(w, RestingPolled, market);
      PolledIsConsistent(m, w, market);
      LoopRaisesIff(PollIfWorking, m, polled, ids, |ids|, market);
      StuckSomewhere(PollIfWorking, m, polled, ids, m.machine.orders.Keys);
      forall id
        ensures VisitStuck(PollIfWorking, m, polled, id) <==> VisitStuck(PollIfWorking, m, w, id)
      {
        PolledStuck(m, w, id, market);
      }
    }
  }

  lemma PolledIsConsistent(m: Memory, w: World, market: Market)
    requires Consistent(m, w) && market.Legal()
    ensures Consistent(m, Apply(w, RestingPolled, market))
  {
    hide HandleAsCoded, Orderly;
    SafeEffectKeeps(w, RestingPolled, market);
    RestingPollProgresses(w.broker, market);
    PolledLocalsFit(m.machine.orders, w.rows, w.broker.orders, Apply(w, RestingPolled, market).broker.orders);
  }

  lemma StaleRaisesIff(m: Memory, w: World, ids: seq<string>, now: real, limit: real, market: Market)
    requires Consistent(m, w) && market.Legal() && Lists(ids, m.submitted.Keys)
    ensures CheckStale(m, w, ids, now, limit, market).result == Raised(IllegalTransition)
       <==> CallStuck(m, w, StaleCall(ids, now, limit), market)
  {
    var chore := CancelIfStale(now, limit);
    if market.fault != DISCONNECT {
      LoopRaisesIff(chore, m, w, ids, |ids|, market);
      StuckSomewhere(chore, m, w, ids, m.submitted.Keys);
    } else {
      GoneIsNotIllegal(chore, m, w, ids, |ids|, market);
    }
  }

  lemma {:induction false} GoneIsNotIllegal(chore: Chore, m: Memory, w: World, ids: seq<string>, k: nat, market: Market)
    requires market.fault == DISCONNECT && k <= |ids|
    ensures VisitFirst(chore, m, w, ids, k, market).result != Raised(IllegalTransition)
  {
    if k > 0 {
      GoneIsNotIllegal(chore, m, w, ids, k - 1, market);
    }
  }

  // ----- submitting -----

  lemma ReplyRaisesNever(m: Memory, w: World, id: string, reply: Reply, market: Market)
    requires id in m.machine.orders && m.machine.orders[id].state == SUBMITTED && id in w.rows
    requires reply == Accepted ==> id in w.broker.orders && Progress(ACKNOWLEDGED, w.broker.orders[id].state)
    requires reply in {Accepted, TimedOut, Disconnected}
    ensures AfterReply(m, w, id, reply, market).result != Raised(IllegalTransition)
  {
  }

  lemma SubmitRaisesNever(
    m: Memory, w: World, cfg: Config, order: ApprovedOrder, snapshot: Option<Snapshot>, market: Market)
    requires Consistent(m, w) && market.Legal() && (snapshot.Some? ==> snapshot.value.Frozen())
    ensures SubmitOrder(m, w, cfg.key, cfg.environment, order, snapshot, market).result != Raised(IllegalTransition)
  {
    hide Orderly, AfterReply, Apply, Fold;
    if Refusal(m, w.rows, cfg.key, cfg.environment, order, snapshot).None? {
      var id, req := order.intent.id, snapshot.value.RequestOf();
      var sent := FirstStepsSafe(w, snapshot.value, market);
      var ready := m.(snapshots := m.snapshots[id := snapshot.value], machine := Prepared(m.machine, id).machine,
                      submitted := m.submitted[id := order]);
      SubmissionHeard(w, req, market);
      ReplyRaisesNever(ready, sent, id, ReplyOf(w.broker, id, market), market);
    }
  }

  // ----- any call, any run -----

  lemma CallRaisesIff(m: Memory, w: World, cfg: Config, c: Call, market: Market)
    requires Consistent(m, w) && market.Legal() && ProperCall(m, c)
    ensures Run(m, w, cfg, c, market).result == Raised(IllegalTransition) <==> CallStuck(m, w, c, market)
  {
    hide Consistent, SubmitOrder, SyncOpen, CheckStale, VisitStuck, OrderFits, Stuck;
    match c
    case SubmitCall(order, snapshot) => SubmitRaisesNever(m, w, cfg, order, snapshot, market);
    case PollCall(id) =>
      if market.fault != DISCONNECT && id in m.machine.orders && id in w.broker.orders {
        ConsistentOrder(m, w, id);
        PollRaisesWhen(m, w, id, market);
      }
    case ResolveCall(id) =>
      if id in m.machine.orders {
        ConsistentOrder(m, w, id);
        ResolveRaisesNever(m, w, id, market);
      }
    case SyncCall(ids) => SyncRaisesIff(m, w, ids, market);
    case StaleCall(ids, now, limit) => StaleRaisesIff(m, w, ids, now, limit, market);
    case RecoverCall =>
  }

  /**
   Exactly when a call raises an illegal transition, in any state reached by any run with
   crashes anywhere and errors raised in the broker: when it meets an order that one of these
   has left behind the broker in one of the ways listed.
   */
  lemma RaisesIff(states: seq<Sys>, cfg: Config, steps: seq<Step>, i: nat, c: Call, market: Market)
    requires IsRun(states, cfg, steps) && i < |states| && Consistent(states[0].memory, states[0].world)
    requires market.Legal() && ProperCall(states[i].memory, c)
    ensures Run(states[i].memory, states[i].world, cfg, c, market).result == Raised(IllegalTransition)
       <==> CallStuck(states[i].memory, states[i].world, c, market)
  {
    CrashRunsStayConsistent(states, cfg, steps, i);
    CallRaisesIff(states[i].memory, states[i].world, cfg, c, market);
  }
}
