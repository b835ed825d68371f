/**
 What stale order control may cancel (services/execution/engine.py): resting entries that have
 grown too old, every one of them, and never a protective stop.
 */
module StaleChecks {
  import opened OrderStates
  import opened DurableStore
  import opened Intents
  import opened PaperBrokers
  import opened FillSchema
  import opened BrokerOrders
  import opened Execution
  import opened EngineRuns
  import opened Simulation
  import opened CrashRecovery
  import opened Wrappers

  /** An acknowledged order of this process, placed to enter a position more than `limit` ago. */
  ghost predicate RestingEntry(m: Memory, id: string, now: real, limit: real) {
    && id in m.submitted && id in m.machine.orders
    && m.machine.orders[id].state == ACKNOWLEDGED
    && !m.submitted[id].intent.protective
    && now - m.submitted[id].intent.createdAt > limit
  }

  // ----- one visit -----

  lemma PollCancelsNothing(m: Memory, w: World, id: string, market: Market, other: string)
    ensures CancelSent(other) !in Poll(m, w, id, market).trace
  {
  }

  lemma SyncVisitCancelsNothing(m: Memory, w: World, id: string, market: Market, other: string)
    ensures CancelSent(other) !in Visit(PollIfWorking, m, w, id, market).trace
  {
    PollCancelsNothing(m, w, id, market, other);
  }

  lemma StaleVisitCancels(m: Memory, w: World, id: string, now: real, limit: real, market: Market, other: string)
    ensures var o := Visit(CancelIfStale(now, limit), m, w, id, market);
      && (CancelSent(other) in o.trace ==> other == id && RestingEntry(m, id, now, limit))
      && (RestingEntry(m, id, now, limit) && !o.result.Raised? ==> CancelSent(id) in o.trace)
  {
    hide Poll;
    if id in m.machine.orders && m.machine.orders[id].state == ACKNOWLEDGED && market.fault != DISCONNECT {
      var requested := m.(machine := Transition(m.machine, id, CANCEL_REQUESTED).machine);
      PollCancelsNothing(requested, w.(broker := Cancel(w.broker, id, market)), id, market, other);
    }
  }

  // ----- the whole check -----

  lemma RestingAsBefore(m: Memory, w: World, before: Memory, now: World, ids: seq<string>, k: nat, t: real, limit: real)
    requires k < |ids| && NoRepeats(ids) && Elsewhere(m, w, before, now, ids[..k])
    ensures RestingEntry(before, ids[k], t, limit) <==> RestingEntry(m, ids[k], t, limit)
  {
    assert ids[k] !in ids[..k];
  }

  /** After `k` visits: nothing but resting entries has been cancelled, and, without an error, all of them so far. */
  ghost predicate CancelledExactly(m: Memory, o: Outcome, ids: seq<string>, k: nat, now: real, limit: real)
    requires k <= |ids|
  {
    && (forall id :: CancelSent(id) in o.trace ==> id in ids[..k] && RestingEntry(m, id, now, limit))
    && (!o.result.Raised? ==> forall id :: id in ids[..k] && RestingEntry(m, id, now, limit) ==> CancelSent(id) in o.trace)
  }

  lemma {:induction false} VisitsCancelExactly(
    m: Memory, w: World, ids: seq<string>, k: nat, now: real, limit: real, market: Market)
    requires NoRepeats(ids) && k <= |ids|
    ensures CancelledExactly(m, VisitFirst(CancelIfStale(now, limit), m, w, ids, k, market), ids, k, now, limit)
  {
    hide Visit, ApplyAll, Elsewhere, RestingEntry;
    var chore := CancelIfStale(now, limit);
    if k > 0 {
      VisitsCancelExactly(m, w, ids, k - 1, now, limit, market);
      var before := VisitFirst(chore, m, w, ids, k - 1, market);
      assert ids[..k] == ids[..k - 1] + [ids[k - 1]];
      if !before.result.Raised? {
        VisitCancelsExactly(m, w, ids, k - 1, now, limit, market, before);
      }
    }
  }

  lemma VisitCancelsExactly(
    m: Memory, w: World, ids: seq<string>, k: nat, now: real, limit: real, market: Market, before: Outcome)
    requires NoRepeats(ids) && k < |ids| && CancelledExactly(m, before, ids, k, now, limit)
    requires before == VisitFirst(CancelIfStale(now, limit), m, w, ids, k, market) && !before.result.Raised?
    ensures CancelledExactly(m, VisitFirst(CancelIfStale(now, limit), m, w, ids, k + 1, market), ids, k + 1, now, limit)
  {
    hide Visit, ApplyAll, Elsewhere, RestingEntry;
    var chore, world := CancelIfStale(now, limit), ApplyAll(w, before.trace, market);
    var o := Visit(chore, before.memory, world, ids[k], market);
    VisitOneMore(chore, m, w, ids, k, market, before, world, o);
    VisitsTouchOnly(chore, m, w, ids, k, market);
    RestingAsBefore(m, w, before.memory, world, ids, k, now, limit);
    assert ids[..k + 1] == ids[..k] + [ids[k]];
    forall id
      ensures CancelSent(id) in o.trace ==> id == ids[k] && RestingEntry(m, id, now, limit)
      ensures RestingEntry(m, ids[k], now, limit) && !o.result.Raised? ==> CancelSent(ids[k]) in o.trace
    {
      StaleVisitCancels(before.memory, world, ids[k], now, limit, market, id);
    }
  }

  lemma {:induction false} SyncVisitsCancelNothing(
    m: Memory, w: World, ids: seq<string>, k: nat, market: Market, id: string)
    requires k <= |ids|
    ensures CancelSent(id) !in VisitFirst(PollIfWorking, m, w, ids, k, market).trace
  {
    hide Visit, ApplyAll;
    if k > 0 {
      SyncVisitsCancelNothing(m, w, ids, k - 1, market, id);
      var before := VisitFirst(PollIfWorking, m, w, ids, k - 1, market);
      SyncVisitCancelsNothing(before.memory, ApplyAll(w, before.trace, market), ids[k - 1], market, id);
    }
  }

  /**
   A stale check cancels nothing but acknowledged, non-protective orders of this process that
   are older than the limit; and if no error ends it, it cancels every one of them.
   */
  lemma StaleCheckCancelsExactly(
    m: Memory, w: World, cfg: Config, ids: seq<string>, now: real, limit: real, market: Market, id: string)
    requires ProperCall(m, StaleCall(ids, now, limit))
    ensures var o := Run(m, w, cfg, StaleCall(ids, now, limit), market);
      var resting := id in m.submitted && id in m.machine.orders && m.machine.orders[id].state == ACKNOWLEDGED
                     && !m.submitted[id].intent.protective && now - m.submitted[id].intent.createdAt > limit;
      && (CancelSent(id) in o.trace ==> resting)
      && (!o.result.Raised? ==> (CancelSent(id) in o.trace <==> resting))
  {
    hide VisitFirst;
    VisitsCancelExactly(m, w, ids, |ids|, now, limit, market);
    assert ids[..|ids|] == ids;
  }

  // ----- any call -----

  lemma SubmitCancelsNothing(
    m: Memory, w: World, cfg: Config, order: ApprovedOrder, snapshot: Option<Snapshot>, market: Market, id: string)
    ensures CancelSent(id) !in SubmitOrder(m, w, cfg.key, cfg.environment, order, snapshot, market).trace
  {
    hide ApplyAll, Prepared, SendRaises, Verifies;
    if Refusal(m, w.rows, cfg.key, cfg.environment, order, snapshot).None? && Prepared(m.machine, order.intent.id).Moved? {
      var frozen := snapshot.value;
      var ready := m.(snapshots := m.snapshots[order.intent.id := frozen], machine := Prepared(m.machine, order.intent.id).machine,
                      submitted := m.submitted[order.intent.id := order]);
      var sent := ApplyAll(w, [Inserted(order.intent.id, frozen), Sent(frozen.RequestOf())], market);
      ReplyCancelsNothing(ready, sent, order.intent.id, ReplyOf(w.broker, frozen.id, market), market, id);
    }
  }

  lemma ReplyCancelsNothing(m: Memory, w: World, id: string, reply: Reply, market: Market, other: string)
    ensures CancelSent(other) !in AfterReply(m, w, id, reply, market).trace
  {
  }

  /** No call of the engine cancels a protective order, nor any order it does not itself remember submitting. */
  lemma OnlyEntriesAreCancelled(m: Memory, w: World, cfg: Config, c: Call, market: Market, id: string)
    requires ProperCall(m, c) && CancelSent(id) in Run(m, w, cfg, c, market).trace
    ensures c.StaleCall? && id in m.submitted && !m.submitted[id].intent.protective
  {
    hide SubmitOrder, VisitFirst, Poll, Apply;
    match c
    case SubmitCall(order, snapshot) => SubmitCancelsNothing(m, w, cfg, order, snapshot, market, id);
    case PollCall(other) => PollCancelsNothing(m, w, other, market, id);
    case ResolveCall(_) =>
    case SyncCall(ids) => SyncVisitsCancelNothing(m, Apply(w, RestingPolled, market), ids, |ids|, market, id);
    case StaleCall(ids, now, limit) => StaleCheckCancelsExactly(m, w, cfg, ids, now, limit, market, id);
    case RecoverCall =>
  }

  // ----- whole runs -----

  /** The broker has not been told to cancel it. */
  ghost predicate Uncancelled(w: World, id: string) {
    id in w.broker.orders ==> w.broker.orders[id].state != CANCELLED
  }

  lemma EffectSpares(w: World, e: Effect, m: Market, id: string)
    requires Durable(w) && SafeEffect(w, e) && m.Legal() && Uncancelled(w, id) && e != CancelSent(id)
    ensures Uncancelled(Apply(w, e, m), id)
    ensures w.rows.Keys <= Apply(w, e, m).rows.Keys
  {
    hide SubmitAsCoded, HandleAsCoded, RowsFit, OrderSound, Wired, LongOnly;
    match e
    case Inserted(_, _) =>
    case Saved(_, _) =>
    case Sent(req) => SubmitProgresses(w.broker, req, m);
    case CancelSent(other) =>
    case RestingPolled => RestingPollProgresses(w.broker, m);
  }

  lemma {:induction false} TraceSpares(w: World, trace: seq<Effect>, k: nat, m: Market, id: string)
    requires Durable(w) && SafeTrace(w, trace, m) && m.Legal() && k <= |trace|
    requires Uncancelled(w, id) && CancelSent(id) !in trace
    ensures Uncancelled(ApplyAll(w, trace[..k], m), id)
    ensures w.rows.Keys <= ApplyAll(w, trace[..k], m).rows.Keys
    decreases |trace|
  {
    hide Durable, Apply, SafeEffect, Uncancelled;
    if trace == [] {
      assert trace[..k] == [];
      NoEffect(w, m);
    } else {
      var n := |trace| - 1;
      var init := trace[..n];
      if k <= n {
        TraceSpares(w, init, k, m, id);
        assert trace[..k] == init[..k];
      } else {
        TraceSpares(w, init, n, m, id);
        SafeTraceKeeps(w, init, n, m);
        assert init[..n] == init && trace[..k] == trace;
        EffectSpares(ApplyAll(w, init, m), trace[n], m, id);
      }
    }
  }

  /** Durably known, remembered as protective if at all, and not cancelled. */
  ghost predicate Guarded(s: Sys, id: string) {
    && id in s.world.rows && Uncancelled(s.world, id)
    && (id in s.memory.submitted ==> s.memory.submitted[id].intent.protective)
  }

  /** What a call leaves in the list of submitted orders for an id that has a row: what was there. */
  lemma SubmittedKept(m: Memory, w: World, cfg: Config, c: Call, market: Market, id: string)
    requires Consistent(m, w) && market.Legal() && ProperCall(m, c) && id in w.rows
    ensures var after := Run(m, w, cfg, c, market).memory.submitted;
            (id in after <==> id in m.submitted) && (id in after ==> after[id] == m.submitted[id])
  {
    hide Consistent, Recoverable, Poll, ResolveUnknown, VisitFirst, SubmitOrder;
    match c
    case SubmitCall(order, snapshot) => SubmittedByOthers(m, w, cfg, order, snapshot, market, id);
    case PollCall(other) => PollForgetsNothing(m, w, other, market);
    case ResolveCall(other) => ResolveForgetsNothing(m, w, other, market);
    case SyncCall(ids) => VisitsTouchOnly(PollIfWorking, m, Apply(w, RestingPolled, market), ids, |ids|, market);
    case StaleCall(ids, now, limit) => VisitsTouchOnly(CancelIfStale(now, limit), m, w, ids, |ids|, market);
    case RecoverCall =>
  }

  lemma PollForgetsNothing(m: Memory, w: World, id: string, market: Market)
    ensures Poll(m, w, id, market).memory.submitted == m.submitted
  {
  }

  lemma ResolveForgetsNothing(m: Memory, w: World, id: string, market: Market)
    ensures ResolveUnknown(m, w, id, market).memory.submitted == m.submitted
  {
  }

  lemma ReplyForgetsNothing(m: Memory, w: World, id: string, reply: Reply, market: Market)
    ensures AfterReply(m, w, id, reply, market).memory.submitted == m.submitted
  {
  }

  lemma SubmittedByOthers(
    m: Memory, w: World, cfg: Config, order: ApprovedOrder, snapshot: Option<Snapshot>, market: Market, id: string)
    requires id in w.rows
    ensures var after := SubmitOrder(m, w, cfg.key, cfg.environment, order, snapshot, market).memory.submitted;
            (id in after <==> id in m.submitted) && (id in after ==> after[id] == m.submitted[id])
  {
    SubmittedAfter(m, w, cfg, order, snapshot, market);
  }

  /** A submission that gets as far as a durable step remembers its order; any other remembers nothing new. */
  lemma SubmittedAfter(
    m: Memory, w: World, cfg: Config, order: ApprovedOrder, snapshot: Option<Snapshot>, market: Market)
    ensures var o := SubmitOrder(m, w, cfg.key, cfg.environment, order, snapshot, market);
      if o.trace == [] then o.memory.submitted == m.submitted
      else order.intent.id !in w.rows && o.memory.submitted == m.submitted[order.intent.id := order]
  {
    hide ApplyAll, SendRaises, Verifies, AfterReply;
    var id := order.intent.id;
    if Refusal(m, w.rows, cfg.key, cfg.environment, order, snapshot).None? && Prepared(m.machine, id).Moved? {
      var frozen := snapshot.value;
      var ready := m.(snapshots := m.snapshots[id := frozen], machine := Prepared(m.machine, id).machine,
                      submitted := m.submitted[id := order]);
      var sent := ApplyAll(w, [Inserted(id, frozen), Sent(frozen.RequestOf())], market);
      ReplyForgetsNothing(ready, sent, id, ReplyOf(w.broker, frozen.id, market), market);
    }
  }

  lemma StepKeepsGuarded(s: Sys, cfg: Config, step: Step, t: Sys, id: string)
    requires Consistent(s.memory, s.world) && Follows(s, cfg, step, t) && Guarded(s, id)
    ensures Guarded(t, id)
  {
    hide Run, ApplyAll, SafeTrace, Durable, LocalsFit;
    match step
    case Completed(call, market) =>
      var trace := Run(s.memory, s.world, cfg, call, market).trace;
      CallSpares(s, cfg, call, market, |trace|, id);
      SubmittedKept(s.memory, s.world, cfg, call, market, id);
      assert trace[..|trace|] == trace;
    case Crashed(call, market, kept) => CallSpares(s, cfg, call, market, kept, id);
    case Restarted =>
    case Tick =>
  }

  /** However far a call gets, a guarded order is not cancelled. */
  lemma CallSpares(s: Sys, cfg: Config, call: Call, market: Market, k: nat, id: string)
    requires Consistent(s.memory, s.world) && ProperCall(s.memory, call) && market.Legal()
    requires Uncancelled(s.world, id) && (id in s.memory.submitted ==> s.memory.submitted[id].intent.protective)
    requires k <= |Run(s.memory, s.world, cfg, call, market).trace|
    ensures var after := ApplyAll(s.world, Run(s.memory, s.world, cfg, call, market).trace[..k], market);
            Uncancelled(after, id) && s.world.rows.Keys <= after.rows.Keys
  {
    hide Run, SafeTrace, Durable, LocalsFit;
    var trace := Run(s.memory, s.world, cfg, call, market).trace;
    if CancelSent(id) in trace {
      OnlyEntriesAreCancelled(s.memory, s.world, cfg, call, market, id);
      assert false;
    }
    CallIsRecoverable(s.memory, s.world, cfg, call, market);
    TraceSpares(s.world, trace, k, market, id);
  }

  lemma {:induction false} GuardedStaysGuarded(states: seq<Sys>, cfg: Config, steps: seq<Step>, i: nat, j: nat, id: string)
    requires IsRun(states, cfg, steps) && i <= j < |states| && Consistent(states[0].memory, states[0].world)
    requires Guarded(states[i], id)
    ensures Guarded(states[j], id)
    decreases j
  {
    hide Follows, Consistent, Guarded;
    if i < j {
      GuardedStaysGuarded(states, cfg, steps, i, j - 1, id);
      CrashRunsStayConsistent(states, cfg, steps, j - 1);
      assert Follows(states[j - 1], cfg, steps[j - 1], states[j]);
      StepKeepsGuarded(states[j - 1], cfg, steps[j - 1], states[j], id);
    }
  }

  lemma SubmittingGuards(s: Sys, cfg: Config, step: Step, t: Sys, order: ApprovedOrder)
    requires Consistent(s.memory, s.world) && Follows(s, cfg, step, t)
    requires (step.Completed? || step.Crashed?) && step.call.SubmitCall? && step.call.order == order
    requires order.intent.protective && order.intent.id !in s.world.rows && order.intent.id in t.world.rows
    ensures Guarded(t, order.intent.id)
  {
    hide SubmitOrder, ApplyAll, SafeTrace, LocalsFit;
    var id, call, market := order.intent.id, step.call, step.market;
    var trace := Run(s.memory, s.world, cfg, call, market).trace;
    SubmittedAfter(s.memory, s.world, cfg, order, call.snapshot, market);
    if trace == [] {
      assert trace[..0] == [];
      NoEffect(s.world, market);
      assert false;
    }
    if CancelSent(id) in trace {
      OnlyEntriesAreCancelled(s.memory, s.world, cfg, call, market, id);
      assert false;
    }
    CallIsRecoverable(s.memory, s.world, cfg, call, market);
    TraceSpares(s.world, trace, if step.Completed? then |trace| else step.kept, market, id);
    assert trace[..|trace|] == trace;
  }

  /**
   Over any run of calls, crashes and restarts: once a protective order has its row, the
   broker never holds it as cancelled. No stop is lost to stale order control.
   */
  lemma ProtectiveOrdersAreNeverCancelled(
    states: seq<Sys>, cfg: Config, steps: seq<Step>, i: nat, j: nat, order: ApprovedOrder)
    requires IsRun(states, cfg, steps) && i < j < |states| && Consistent(states[0].memory, states[0].world)
    requires (steps[i].Completed? || steps[i].Crashed?) && steps[i].call.SubmitCall? && steps[i].call.order == order
    requires order.intent.protective
    requires order.intent.id !in states[i].world.rows && order.intent.id in states[i + 1].world.rows
    ensures order.intent.id in states[j].world.rows
    ensures var held := states[j].world.broker.orders;
            order.intent.id in held ==> held[order.intent.id].state != CANCELLED
  {
    hide Follows, Consistent;
    CrashRunsStayConsistent(states, cfg, steps, i);
    assert Follows(states[i], cfg, steps[i], states[i + 1]);
    SubmittingGuards(states[i], cfg, steps[i], states[i + 1], order);
    GuardedStaysGuarded(states, cfg, steps, i + 1, j, order.intent.id);
  }
}
