/**
 Runs of the engine (services/execution/engine.py): calls that complete, calls that die at
 any of their durable steps, restarts, and settlements at the broker.
 */
module EngineRuns {
  import opened OrderStates
  import opened DurableStore
  import opened PaperBrokers
  import opened FillSchema
  import opened BrokerOrders
  import opened Execution
  import opened Wrappers

  /**
   A call that completes, whether it returns or raises; a call that dies after `kept` of its
   durable steps, followed by a fresh process; a restart between calls; a settlement tick at
   the broker.
   */
  datatype Step =
    | Completed(call: Call, market: Market)
    | Crashed(call: Call, market: Market, kept: nat)
    | Restarted
    | Tick

  ghost predicate ProperStep(s: Sys, cfg: Config, step: Step) {
    match step
    case Completed(call, market) => ProperCall(s.memory, call) && market.Legal()
    case Crashed(call, market, kept) =>
      ProperCall(s.memory, call) && market.Legal() && kept <= |Run(s.memory, s.world, cfg, call, market).trace|
    case _ => true
  }

  ghost function Take(s: Sys, cfg: Config, step: Step): Sys
    requires ProperStep(s, cfg, step)
  {
    match step
    case Completed(call, market) =>
      var o := Run(s.memory, s.world, cfg, call, market);
      Sys(o.memory, ApplyAll(s.world, o.trace, market))
    case Crashed(call, market, kept) =>
      Sys(FRESH, ApplyAll(s.world, Run(s.memory, s.world, cfg, call, market).trace[..kept], market))
    case Restarted => Sys(FRESH, s.world)
    case Tick => s.(world := s.world.(broker := Settle(s.world.broker)))
  }

  /** The states of a run, one after each step. */
  ghost predicate IsRun(states: seq<Sys>, cfg: Config, steps: seq<Step>) {
    && |states| == |steps| + 1
    && forall i :: 0 <= i < |steps| ==> Follows(states[i], cfg, steps[i], states[i + 1])
  }

  ghost predicate Follows(s: Sys, cfg: Config, step: Step, t: Sys) {
    ProperStep(s, cfg, step) && t == Take(s, cfg, step)
  }

  /** In this call the broker meets a fill whose price rounds to nothing. */
  ghost predicate CallFaults(m: Memory, w: World, cfg: Config, c: Call, market: Market)
    requires Usable(w.broker)
  {
    match c
    case SubmitCall(order, snapshot) =>
      && Refusal(m, w.rows, cfg.key, cfg.environment, order, snapshot).None?
      && Prepared(m.machine, order.intent.id).Moved?
      && SubmitRounds(w.broker, snapshot.value.RequestOf(), market)
    case SyncCall(_) => CallRounds(w.broker, PollOp(market))
    case _ => false
  }

  lemma {:induction false} VisitsDoNotFault(chore: Chore, m: Memory, w: World, ids: seq<string>, k: nat, market: Market)
    requires k <= |ids|
    ensures VisitFirst(chore, m, w, ids, k, market).result != Raised(BrokerFault)
  {
    hide ApplyAll, MoveAndSave, Cancel;
    if k > 0 {
      VisitsDoNotFault(chore, m, w, ids, k - 1, market);
      var before := VisitFirst(chore, m, w, ids, k - 1, market);
      VisitDoesNotFault(chore, before.memory, ApplyAll(w, before.trace, market), ids[k - 1], market);
    }
  }

  lemma VisitDoesNotFault(chore: Chore, m: Memory, w: World, id: string, market: Market)
    ensures Visit(chore, m, w, id, market).result != Raised(BrokerFault)
  {
  }

  lemma ReplyDoesNotFault(m: Memory, w: World, id: string, reply: Reply, market: Market)
    ensures AfterReply(m, w, id, reply, market).result != Raised(BrokerFault)
  {
  }

  /** A call raises the broker's own error exactly when one of its fills has a price that rounds to nothing. */
  lemma FaultsIff(m: Memory, w: World, cfg: Config, c: Call, market: Market)
    requires Usable(w.broker)
    ensures Run(m, w, cfg, c, market).result == Raised(BrokerFault) <==> CallFaults(m, w, cfg, c, market)
  {
    hide AfterReply, ApplyAll, SubmitRounds, CallRounds, SubmitAsCoded, Wired, LongOnly;
    match c
    case SubmitCall(order, snapshot) =>
      if Refusal(m, w.rows, cfg.key, cfg.environment, order, snapshot).None? && Prepared(m.machine, order.intent.id).Moved? {
        SubmissionFaultsIff(m, w, cfg, order, snapshot.value, market);
      }
    case SyncCall(ids) =>
      ReturnsIff(w.broker, PollOp(market));
      VisitsDoNotFault(PollIfWorking, m, Apply(w, RestingPolled, market), ids, |ids|, market);
    case StaleCall(ids, t, limit) => VisitsDoNotFault(CancelIfStale(t, limit), m, w, ids, |ids|, market);
    case _ =>
  }

  lemma SubmissionFaultsIff(
    m: Memory, w: World, cfg: Config, order: ApprovedOrder, snapshot: Snapshot, market: Market)
    requires Usable(w.broker) && Prepared(m.machine, order.intent.id).Moved?
    requires Refusal(m, w.rows, cfg.key, cfg.environment, order, Some(snapshot)).None?
    ensures SubmitOrder(m, w, cfg.key, cfg.environment, order, Some(snapshot), market).result == Raised(BrokerFault)
       <==> SubmitRounds(w.broker, snapshot.RequestOf(), market)
  {
    hide AfterReply, ApplyAll, Wired, LongOnly, Prepared, Refusal, Due;
    var id, req := order.intent.id, snapshot.RequestOf();
    var ready := m.(snapshots := m.snapshots[id := snapshot], machine := Prepared(m.machine, id).machine,
                    submitted := m.submitted[id := order]);
    var sent := ApplyAll(w, [Inserted(id, snapshot), Sent(req)], market);
    ReplyDoesNotFault(ready, sent, id, ReplyOf(w.broker, req.id, market), market);
  }

  lemma ApplyKeepsHealthy(w: World, e: Effect, m: Market)
    requires Healthy(w) && m.Legal() && (e.Sent? ==> e.req.qty > 0.0)
    ensures Healthy(Apply(w, e, m))
  {
    hide SubmitAsCoded, HandleAsCoded, Submit, OrderSound, Wired, LongOnly;
    match e
    case Inserted(_, _) =>
    case Saved(_, _) =>
    case Sent(req) => SubmitProgresses(w.broker, req, m);
    case CancelSent(id) => CancelStaysOrderly(w.broker, id, m);
    case RestingPolled => RestingPollProgresses(w.broker, m);
  }

  /** After recovery every durable order is known: a new one at its durable state, with its snapshot and no history. */
  lemma RecoveryIsComplete(m: Memory, w: World, cfg: Config, market: Market)
    ensures var after := Run(m, w, cfg, RecoverCall, market).memory;
      && after.machine.orders.Keys == m.machine.orders.Keys + w.rows.Keys
      && (forall id :: id in m.machine.orders ==> after.machine.orders[id] == m.machine.orders[id])
      && (forall id :: id in w.rows && id !in m.machine.orders ==>
            && after.machine.orders[id] == OrderRecord(w.rows[id].state, 1, [])
            && id in after.snapshots && after.snapshots[id] == w.rows[id].snapshot)
      && after.submitted == m.submitted && after.machine.log == m.machine.log
  {
  }
}
