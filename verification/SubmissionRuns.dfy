/**
 At-most-once submission (services/execution/engine.py, packages/common/durable_store.py):
 over whole runs, at any legal quotes and under any faults, with calls cut short anywhere by a
 crash or by an error raised in the broker, no order reaches the broker twice, and every
 order the broker holds has a durable row.
 */
module SubmissionRuns {
  import opened OrderStates
  import opened DurableStore
  import opened PaperBrokers
  import opened Execution
  import opened FillSchema
  import opened EngineRuns
  import opened Wrappers

  /**
   The broker has been asked to submit each order at most once, only ever after its row was
   inserted, and holds no order it was not asked for.
   */
  ghost predicate AtMostOnce(w: World) {
    && NoRepeats(w.broker.received)
    && (forall id :: id in w.broker.received ==> id in w.rows)
    && (forall id :: id in w.broker.orders ==> id in w.broker.received)
  }

  ghost predicate Good(w: World) {
    Usable(w.broker) && AtMostOnce(w)
  }

  /** What one step adds to the ids received, and to the orders held. */
  ghost predicate Adds(w: World, e: Effect, after: World) {
    && Usable(after.broker) && w.rows.Keys <= after.rows.Keys
    && after.broker.received == w.broker.received + (if e.Sent? then [e.req.id] else [])
    && after.broker.orders.Keys <= w.broker.orders.Keys + (if e.Sent? then {e.req.id} else {})
  }

  lemma ExecutionReceivesNothing(b: Broker, id: string, m: Market)
    requires id in b.orders && LongOnly(b.positions)
    ensures ExecuteAsCoded(b, id, m).b.received == b.received
  {
  }

  lemma {:induction false} PollReceivesNothing(b: Broker, m: Market, k: nat)
    requires k <= |b.ids| && Wired(b.ids, b.orders) && LongOnly(b.positions)
    ensures PollAsCoded(b, m, k).b.received == b.received
  {
    hide ExecuteAsCoded, LongOnly, Wired;
    if k > 0 {
      PollReceivesNothing(b, m, k - 1);
      PollUnfolds(b, m, k);
      var before := PollAsCoded(b, m, k - 1);
      if before.Done? && Working(before.b.orders[b.ids[k - 1]].state) {
        ExecutionReceivesNothing(before.b, b.ids[k - 1], m);
      }
    }
  }

  lemma SubmitAdds(b: Broker, req: Request, m: Market)
    requires Usable(b)
    ensures var after := SubmitAsCoded(b, req, m).b;
      Usable(after) && after.received == b.received + [req.id] && after.orders.Keys <= b.orders.Keys + {req.id}
  {
    hide ExecuteAsCoded, Wired, LongOnly;
    HandleStaysUsable(b, SubmitOp(req, m));
    if ReplyOf(b, req.id, m) !in {Disconnected, Duplicate} {
      ExecuteKeepsRequests(TakenIn(b, req), req.id, m);
      ExecutionReceivesNothing(TakenIn(b, req), req.id, m);
    }
  }

  lemma StepAdds(w: World, e: Effect, m: Market)
    requires Usable(w.broker)
    ensures Adds(w, e, Apply(w, e, m))
  {
    hide SubmitAsCoded, PollAsCoded, Wired, LongOnly;
    match e
    case Inserted(_, _) =>
    case Saved(_, _) =>
    case Sent(req) => SubmitAdds(w.broker, req, m);
    case CancelSent(id) => HandleStaysUsable(w.broker, CancelOp(id, m));
    case RestingPolled =>
      HandleStaysUsable(w.broker, PollOp(m));
      PollReceivesNothing(w.broker, m, |w.broker.ids|);
  }

  /** A step that sends nothing keeps the invariant; so does sending an id that has a row and is new to the broker. */
  lemma AddsKeepsGood(w: World, e: Effect, after: World)
    requires Good(w) && Adds(w, e, after)
    requires e.Sent? ==> e.req.id in w.rows && e.req.id !in w.broker.received
    ensures Good(after)
  {
  }

  /** A trace that neither inserts a row nor submits an order. */
  ghost predicate Quiet(trace: seq<Effect>) {
    forall e :: e in trace ==> !e.Inserted? && !e.Sent?
  }

  // ----- the traces the engine produces -----

  /** The insert comes first, then the one submission of the same id, then nothing of either kind. */
  ghost predicate WriteAhead(w: World, trace: seq<Effect>) {
    && |trace| >= 2
    && trace[0].Inserted? && trace[0].id !in w.rows
    && trace[1].Sent? && trace[1].req.id == trace[0].id && trace[1].req.qty > 0.0
    && Quiet(trace[2..])
  }

  lemma VisitIsQuiet(chore: Chore, m: Memory, w: World, id: string, market: Market)
    ensures Quiet(Visit(chore, m, w, id, market).trace)
  {
  }

  lemma {:induction false} VisitsAreQuiet(chore: Chore, m: Memory, w: World, ids: seq<string>, k: nat, market: Market)
    requires k <= |ids|
    ensures Quiet(VisitFirst(chore, m, w, ids, k, market).trace)
  {
    hide Visit, ApplyAll;
    if k > 0 {
      VisitsAreQuiet(chore, m, w, ids, k - 1, market);
      var before := VisitFirst(chore, m, w, ids, k - 1, market);
      VisitIsQuiet(chore, before.memory, ApplyAll(w, before.trace, market), ids[k - 1], market);
    }
  }

  lemma ReplyIsQuiet(m: Memory, w: World, id: string, reply: Reply, market: Market)
    ensures Quiet(AfterReply(m, w, id, reply, market).trace)
  {
    forall e | e in AfterReply(m, w, id, reply, market).trace
      ensures !e.Sent? && !e.Inserted?
    {
      ReplySendsNothing(m, w, id, reply, market, e);
    }
  }

  lemma NothingIsQuiet()
    ensures Quiet([])
  {
  }

  lemma SubmitWritesAhead(
    m: Memory, w: World, cfg: Config, order: ApprovedOrder, snapshot: Option<Snapshot>, market: Market)
    requires snapshot.Some? ==> snapshot.value.Frozen()
    ensures var trace := SubmitOrder(m, w, cfg.key, cfg.environment, order, snapshot, market).trace;
            trace == [] || WriteAhead(w, trace)
  {
    hide AfterReply, ApplyAll, ReplyOf, Prepared, Quiet, Verifies;
    if Refusal(m, w.rows, cfg.key, cfg.environment, order, snapshot).None? && Prepared(m.machine, order.intent.id).Moved? {
      var id, frozen := order.intent.id, snapshot.value;
      var first := [Inserted(id, frozen), Sent(frozen.RequestOf())];
      var ready := m.(snapshots := m.snapshots[id := frozen], machine := Prepared(m.machine, id).machine,
                      submitted := m.submitted[id := order]);
      var sent, reply := ApplyAll(w, first, market), ReplyOf(w.broker, frozen.id, market);
      ReplyIsQuiet(ready, sent, id, reply, market);
      assert Quiet(first[2..]) by { NothingIsQuiet(); }
      assert (first + AfterReply(ready, sent, id, reply, market).trace)[2..] == AfterReply(ready, sent, id, reply, market).trace;
    }
  }

  lemma TraceShape(m: Memory, w: World, cfg: Config, c: Call, market: Market)
    requires ProperCall(m, c)
    ensures var trace := Run(m, w, cfg, c, market).trace; Quiet(trace) || WriteAhead(w, trace)
  {
    match c
    case SubmitCall(order, snapshot) => SubmitWritesAhead(m, w, cfg, order, snapshot, market);
    case SyncCall(ids) => VisitsAreQuiet(PollIfWorking, m, Apply(w, RestingPolled, market), ids, |ids|, market);
    case StaleCall(ids, now, limit) => VisitsAreQuiet(CancelIfStale(now, limit), m, w, ids, |ids|, market);
    case _ =>
  }

  /** After any prefix of such a trace the invariant holds. */
  lemma {:induction false} PrefixKeeps(w: World, trace: seq<Effect>, k: nat, m: Market)
    requires Good(w) && k <= |trace| && (Quiet(trace) || WriteAhead(w, trace))
    ensures Good(ApplyAll(w, trace[..k], m))
    ensures !Quiet(trace) && k == 1 ==>
      var now := ApplyAll(w, trace[..1], m); trace[0].id in now.rows && trace[0].id !in now.broker.received
  {
    hide Apply, Usable;
    if k > 0 {
      PrefixKeeps(w, trace, k - 1, m);
      var before, e := ApplyAll(w, trace[..k - 1], m), trace[k - 1];
      assert trace[..k][..k - 1] == trace[..k - 1];
      StepAdds(before, e, m);
      if e.Sent? {
        OnlySecondSends(w, trace, k - 1);
      }
      AddsKeepsGood(before, e, Apply(before, e, m));
      if !Quiet(trace) && k == 1 {
        assert trace[..0] == [] && before == w;
        InsertsRow(w, e, m);
      }
    } else {
      assert trace[..0] == [];
    }
  }

  lemma OnlySecondSends(w: World, trace: seq<Effect>, j: nat)
    requires j < |trace| && (Quiet(trace) || WriteAhead(w, trace)) && trace[j].Sent?
    ensures !Quiet(trace) && j == 1 && trace[1].req.id == trace[0].id
  {
    InTail(trace, j);
  }

  lemma InTail(trace: seq<Effect>, j: nat)
    requires j < |trace|
    ensures trace[j] in trace && (j >= 2 ==> trace[j] in trace[2..])
  {
    if j >= 2 {
      assert trace[j] == trace[2..][j - 2];
    }
  }

  lemma InsertsRow(w: World, e: Effect, m: Market)
    requires Good(w) && e.Inserted? && e.id !in w.rows
    ensures var now := Apply(w, e, m); e.id in now.rows && e.id !in now.broker.received
  {
  }

  // ----- whole runs -----

  lemma StepKeeps(s: Sys, cfg: Config, step: Step, t: Sys)
    requires Good(s.world) && Follows(s, cfg, step, t)
    ensures Good(t.world)
  {
    hide Run, ApplyAll, Quiet, WriteAhead, Usable;
    match step
    case Completed(call, market) =>
      var trace := Run(s.memory, s.world, cfg, call, market).trace;
      TraceShape(s.memory, s.world, cfg, call, market);
      PrefixKeeps(s.world, trace, |trace|, market);
      assert trace[..|trace|] == trace;
    case Crashed(call, market, kept) =>
      TraceShape(s.memory, s.world, cfg, call, market);
      PrefixKeeps(s.world, Run(s.memory, s.world, cfg, call, market).trace, kept, market);
    case Restarted =>
    case Tick => SettlingIsGood(s.world);
  }

  lemma SettlingIsGood(w: World)
    requires Good(w)
    ensures Good(w.(broker := Settle(w.broker)))
  {
  }

  /**
   At-most-once submission. Over any run of submits, polls, syncs, stale checks, resolves and
   recoveries, at any legal quotes and under any faults, each completed, raised or cut short
   anywhere by a crash, with restarts and settlements between them, the broker is asked to
   submit each order at most once, and every order it holds has a durable row.
   */
  lemma {:induction false} SubmitsAtMostOnce(states: seq<Sys>, cfg: Config, steps: seq<Step>, i: nat)
    requires IsRun(states, cfg, steps) && i < |states| && Good(states[0].world)
    ensures Good(states[i].world)
  {
    hide Good, Follows;
    if i > 0 {
      SubmitsAtMostOnce(states, cfg, steps, i - 1);
      assert Follows(states[i - 1], cfg, steps[i - 1], states[i]);
      StepKeeps(states[i - 1], cfg, steps[i - 1], states[i]);
    }
  }

  /** A new account with an empty table is a place to start from. */
  lemma FreshStart(opening: real, feeBps: real, slipBps: real)
    ensures Good(World(map[], Opened(opening, feeBps, slipBps)))
  {
  }
}
