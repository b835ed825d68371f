/**
 What crashes inside a call, and errors raised in the broker, leave behind
 (services/execution/engine.py).
 */
module CrashRecovery {
  import opened OrderStates
  import opened DurableStore
  import opened Intents
  import opened PaperBrokers
  import opened FillSchema
  import opened BrokerOrders
  import opened Execution
  import opened EngineRuns
  import opened Simulation
  import opened Wrappers

  /** How far a durable row can be behind the broker. */
  ghost predicate RowFits(row: OrderState, id: string, held: map<string, PaperOrder>) {
    if id !in held then row in {SUBMITTED, UNKNOWN}
    else
      var b := held[id].state;
      || row == b || row == UNKNOWN
      || (row == SUBMITTED && b in {ACKNOWLEDGED, PARTIALLY_FILLED, FILLED, REJECTED})
      || (row == ACKNOWLEDGED && b in {PARTIALLY_FILLED, FILLED, REJECTED, CANCELLED})
      || (row == PARTIALLY_FILLED && b == FILLED)
  }

  ghost predicate RowsFit(rows: Rows, held: map<string, PaperOrder>) {
    held.Keys <= rows.Keys && forall id :: id in rows ==> RowFits(rows[id].state, id, held)
  }

  /** A local order says what its row says, unless a cancel was asked for an order the broker had rejected. */
  ghost predicate LocalFits(local: OrderState, row: OrderState, id: string, held: map<string, PaperOrder>) {
    local == row || (local == CANCEL_REQUESTED && row == ACKNOWLEDGED && id in held && held[id].state == REJECTED)
  }

  ghost predicate LocalsFit(locals: Orders, rows: Rows, held: map<string, PaperOrder>) {
    locals.Keys <= rows.Keys && forall id :: id in locals ==> LocalFits(locals[id].state, rows[id].state, id, held)
  }

  ghost predicate Durable(w: World) {
    Healthy(w) && RowsFit(w.rows, w.broker.orders)
  }

  // ----- durable steps that keep the rows fitting -----

  ghost predicate SafeEffect(w: World, e: Effect) {
    match e
    case Inserted(id, _) => id !in w.rows
    case Sent(req) => req.qty > 0.0 && req.id in w.rows && w.rows[req.id].state == SUBMITTED && req.id !in w.broker.orders
    case Saved(id, state) => id in w.rows && RowFits(state, id, w.broker.orders)
    case CancelSent(id) => id in w.rows && w.rows[id].state == ACKNOWLEDGED
    case RestingPolled => true
  }

  lemma InsertFits(rows: Rows, held: map<string, PaperOrder>, id: string, snapshot: Snapshot)
    requires RowsFit(rows, held) && id !in rows
    ensures RowsFit(rows[id := Row(snapshot, SUBMITTED)], held)
  {
  }

  lemma SaveKeeps(rows: Rows, held: map<string, PaperOrder>, id: string, state: OrderState)
    requires RowsFit(rows, held) && id in rows && RowFits(state, id, held)
    ensures RowsFit(Resaved(rows, id, state), held)
  {
  }

  lemma ProgressKeeps(rows: Rows, before: map<string, PaperOrder>, after: map<string, PaperOrder>)
    requires RowsFit(rows, before) && OnlyProgress(before, after)
    ensures RowsFit(rows, after)
  {
  }

  lemma SendKeeps(rows: Rows, before: map<string, PaperOrder>, after: map<string, PaperOrder>, id: string)
    requires RowsFit(rows, before) && id in rows && rows[id].state == SUBMITTED && id !in before
    requires after.Keys <= before.Keys + {id} && before.Keys <= after.Keys
    requires forall other :: other in before ==> after[other] == before[other]
    requires id in after ==> Progress(ACKNOWLEDGED, after[id].state)
    ensures RowsFit(rows, after)
  {
  }

  lemma CancelKeeps(rows: Rows, before: map<string, PaperOrder>, after: map<string, PaperOrder>, id: string)
    requires RowsFit(rows, before) && id in rows && rows[id].state == ACKNOWLEDGED
    requires after == before || (id in before && after == before[id := before[id].(state := CANCELLED)])
    ensures RowsFit(rows, after)
  {
  }

  lemma SentOrders(w: World, req: Request, m: Market)
    requires Healthy(w) && m.Legal() && req.qty > 0.0 && req.id !in w.broker.orders
    ensures LongOnly(w.broker.positions)
    ensures var after := SubmitAsCoded(w.broker, req, m).b.orders;
            && after.Keys <= w.broker.orders.Keys + {req.id} && w.broker.orders.Keys <= after.Keys
            && (forall other :: other in w.broker.orders ==> after[other] == w.broker.orders[other])
            && (req.id in after ==> Progress(ACKNOWLEDGED, after[req.id].state))
  {
    hide Wired, LongOnly, OrderSound, ExecuteAsCoded;
    SubmitProgresses(w.broker, req, m);
  }

  lemma SafeEffectKeeps(w: World, e: Effect, m: Market)
    requires Durable(w) && SafeEffect(w, e) && m.Legal()
    ensures Durable(Apply(w, e, m))
  {
    hide RowsFit, LongOnly, OrderSound, ExecuteAsCoded, PollAsCoded;
    ApplyKeepsHealthy(w, e, m);
    match e
    case Inserted(id, snapshot) => InsertFits(w.rows, w.broker.orders, id, snapshot);
    case Saved(id, state) => SaveKeeps(w.rows, w.broker.orders, id, state);
    case Sent(req) =>
      SentOrders(w, req, m);
      SendKeeps(w.rows, w.broker.orders, SubmitAsCoded(w.broker, req, m).b.orders, req.id);
    case CancelSent(id) => CancelKeeps(w.rows, w.broker.orders, Cancel(w.broker, id, m).orders, id);
    case RestingPolled =>
      RestingPollProgresses(w.broker, m);
      ProgressKeeps(w.rows, w.broker.orders, HandleAsCoded(w.broker, PollOp(m)).b.orders);
  }

  /** Each step of the trace is safe in the world it is taken in. */
  ghost predicate SafeTrace(w: World, trace: seq<Effect>, m: Market) {
    trace == []
    || (SafeTrace(w, trace[..|trace| - 1], m)
        && SafeEffect(ApplyAll(w, trace[..|trace| - 1], m), trace[|trace| - 1]))
  }

  lemma {:induction false} SafeTraceKeeps(w: World, trace: seq<Effect>, k: nat, m: Market)
    requires Durable(w) && SafeTrace(w, trace, m) && m.Legal() && k <= |trace|
    ensures Durable(ApplyAll(w, trace[..k], m))
    decreases |trace|
  {
    if trace == [] {
      assert trace[..k] == [];
    } else {
      var n := |trace| - 1;
      var init := trace[..n];
      if k <= n {
        SafeTraceKeeps(w, init, k, m);
        assert trace[..k] == init[..k];
      } else {
        SafeTraceKeeps(w, init, n, m);
        assert init[..n] == init && trace[..k] == trace;
        SafeEffectKeeps(ApplyAll(w, init, m), trace[n], m);
      }
    }
  }

  lemma {:induction false} SafeAppend(w: World, a: seq<Effect>, b: seq<Effect>, m: Market)
    requires SafeTrace(w, a, m) && SafeTrace(ApplyAll(w, a, m), b, m)
    ensures SafeTrace(w, a + b, m)
    decreases |b|
  {
    if b == [] {
      assert a + b == a;
    } else {
      var n := |b| - 1;
      assert (a + b)[..|a + b| - 1] == a + b[..n] && (a + b)[|a + b| - 1] == b[n];
      SafeAppend(w, a, b[..n], m);
      FoldAppend(Stepper(m), w, a, b[..n]);
    }
  }

  lemma SafeOne(w: World, e: Effect, m: Market)
    requires SafeEffect(w, e)
    ensures SafeTrace(w, [e], m)
  {
    assert [e][..0] == [];
  }

  // ----- calls -----

  /** A call, complete or cut short, leaves rows that fit; complete, it leaves locals that fit. */
  ghost predicate Recoverable(w: World, o: Outcome, after: World, m: Market) {
    && SafeTrace(w, o.trace, m) && after == ApplyAll(w, o.trace, m)
    && LocalsFit(o.memory.machine.orders, after.rows, after.broker.orders)
  }

  ghost predicate Consistent(m: Memory, w: World) {
    Durable(w) && LocalsFit(m.machine.orders, w.rows, w.broker.orders) && m.submitted.Keys <= m.machine.orders.Keys
  }

  lemma MovedFits(m: Memory, w: World, id: string, state: OrderState, o: Outcome, after: World)
    requires LocalsFit(m.machine.orders, w.rows, w.broker.orders) && MovesTo(m, w, id, state, o, after)
    ensures LocalsFit(o.memory.machine.orders, after.rows, after.broker.orders)
  {
  }

  /** What a move that may be refused leaves. */
  ghost predicate MovedSafely(m: Memory, w: World, o: Outcome, after: World, market: Market) {
    && Recoverable(w, o, after, market) && o.memory.submitted == m.submitted && after.broker == w.broker
    && o.memory.machine.orders.Keys == m.machine.orders.Keys
    && (o.result.Raised? ==> o == Outcome(m, [], Raised(IllegalTransition)))
  }

  lemma MoveIsRecoverable(m: Memory, w: World, id: string, state: OrderState, market: Market)
    requires LocalsFit(m.machine.orders, w.rows, w.broker.orders) && id in m.machine.orders && id in w.rows
    requires RowFits(state, id, w.broker.orders)
    ensures var o := MoveAndSave(m, w.rows, id, state); MovedSafely(m, w, o, ApplyAll(w, o.trace, market), market)
  {
    hide LocalsFit, RowFits, Apply, Fold;
    var o := MoveAndSave(m, w.rows, id, state);
    if state in Allowed(m.machine.orders[id].state) {
      LegalMove(m, w, id, state, market);
      SafeOne(w, Saved(id, state), market);
      MovedFits(m, w, id, state, o, ApplyAll(w, o.trace, market));
    } else {
      NoEffect(w, market);
    }
  }

  lemma PollIsRecoverable(m: Memory, w: World, id: string, market: Market)
    requires LocalsFit(m.machine.orders, w.rows, w.broker.orders)
    ensures var o := Poll(m, w, id, market);
            && Recoverable(w, o, ApplyAll(w, o.trace, market), market) && o.memory.submitted == m.submitted
            && o.memory.machine.orders.Keys == m.machine.orders.Keys
  {
    NoEffect(w, market);
    if market.fault != DISCONNECT && id in w.broker.orders && id in m.machine.orders {
      MoveIsRecoverable(m, w, id, w.broker.orders[id].state, market);
    }
  }

  lemma ResolveIsRecoverable(m: Memory, w: World, id: string, market: Market)
    requires LocalsFit(m.machine.orders, w.rows, w.broker.orders)
    ensures var o := ResolveUnknown(m, w, id, market);
            && Recoverable(w, o, ApplyAll(w, o.trace, market), market) && o.memory.submitted == m.submitted
            && o.memory.machine.orders.Keys == m.machine.orders.Keys
  {
    NoEffect(w, market);
    if market.fault != DISCONNECT && id in w.broker.orders && id in m.machine.orders {
      MoveIsRecoverable(m, w, id, w.broker.orders[id].state, market);
    }
  }

  // ----- the loops -----

  /** A cancel leaves the order cancelled, unless it was already filled or rejected. */
  lemma CancelSettles(w: World, id: string, market: Market)
    requires id in w.broker.orders && RowFits(ACKNOWLEDGED, id, w.broker.orders) && market.fault != DISCONNECT
    ensures var held := Cancel(w.broker, id, market).orders;
            && held.Keys == w.broker.orders.Keys && held[id].state in {CANCELLED, FILLED, REJECTED}
            && forall other :: other in held && other != id ==> held[other] == w.broker.orders[other]
  {
  }

  ghost predicate SameButOne(before: map<string, PaperOrder>, now: map<string, PaperOrder>, id: string) {
    now.Keys == before.Keys && forall other :: other in now && other != id ==> now[other] == before[other]
  }

  lemma MovedLocalsFit(
    m: Memory, w: World, requested: Memory, cancelled: World, id: string, state: OrderState, o: Outcome, after: World)
    requires LocalsFit(m.machine.orders, w.rows, w.broker.orders) && id in m.machine.orders
    requires requested.machine.orders == m.machine.orders[id := Advanced(m.machine.orders[id], id, CANCEL_REQUESTED)]
    requires cancelled.rows == w.rows && SameButOne(w.broker.orders, cancelled.broker.orders, id)
    requires MovesTo(requested, cancelled, id, state, o, after)
    ensures LocalsFit(o.memory.machine.orders, after.rows, after.broker.orders)
  {
  }

  lemma StuckLocalsFit(m: Memory, w: World, requested: Memory, cancelled: World, id: string)
    requires LocalsFit(m.machine.orders, w.rows, w.broker.orders) && id in m.machine.orders && m.machine.orders[id].state == ACKNOWLEDGED
    requires requested.machine.orders == m.machine.orders[id := Advanced(m.machine.orders[id], id, CANCEL_REQUESTED)]
    requires cancelled.rows == w.rows && SameButOne(w.broker.orders, cancelled.broker.orders, id)
    requires id in cancelled.broker.orders && cancelled.broker.orders[id].state == REJECTED
    ensures LocalsFit(requested.machine.orders, cancelled.rows, cancelled.broker.orders)
  {
  }

  /** The local order asks for the cancel; the poll then moves it on, unless the broker had rejected it. */
  lemma RequestedCancelFits(
    m: Memory, w: World, requested: Memory, cancelled: World, id: string, o: Outcome, after: World, market: Market)
    requires LocalsFit(m.machine.orders, w.rows, w.broker.orders)
    requires id in m.machine.orders && m.machine.orders[id].state == ACKNOWLEDGED && id in w.broker.orders && market.fault != DISCONNECT
    requires id in w.rows && RowFits(ACKNOWLEDGED, id, w.broker.orders)
    requires requested == m.(machine := Transition(m.machine, id, CANCEL_REQUESTED).machine)
    requires cancelled == w.(broker := Cancel(w.broker, id, market))
    requires o == Poll(requested, cancelled, id, market) && after == ApplyAll(cancelled, o.trace, market)
    ensures Recoverable(cancelled, o, after, market) && o.memory.submitted == m.submitted
    ensures o.memory.machine.orders.Keys == m.machine.orders.Keys
  {
    hide LocalsFit, RowFits, Cancel, Apply, Fold;
    CancelSettles(w, id, market);
    var b := cancelled.broker.orders[id].state;
    if b == REJECTED {
      NoEffect(cancelled, market);
      StuckLocalsFit(m, w, requested, cancelled, id);
    } else {
      LegalMove(requested, cancelled, id, b, market);
      BrokerStateFits(b, id, cancelled.broker.orders);
      SafeOne(cancelled, Saved(id, b), market);
      MovedLocalsFit(m, w, requested, cancelled, id, b, o, after);
    }
  }

  lemma BrokerStateFits(state: OrderState, id: string, held: map<string, PaperOrder>)
    requires id in held && held[id].state == state
    ensures RowFits(state, id, held)
  {
  }

  lemma FirstCancelSafe(w: World, id: string, market: Market) returns (cancelled: World)
    requires id in w.rows && w.rows[id].state == ACKNOWLEDGED
    ensures cancelled == w.(broker := Cancel(w.broker, id, market)) == Apply(w, CancelSent(id), market)
    ensures SafeTrace(w, [CancelSent(id)], market) && cancelled == ApplyAll(w, [CancelSent(id)], market)
  {
    SafeOne(w, CancelSent(id), market);
    OneEffect(w, CancelSent(id), market);
    cancelled := Apply(w, CancelSent(id), market);
  }

  lemma KnownAcknowledged(m: Memory, w: World, id: string)
    requires Consistent(m, w) && id in m.machine.orders && m.machine.orders[id].state == ACKNOWLEDGED
    ensures LocalsFit(m.machine.orders, w.rows, w.broker.orders)
    ensures id in w.rows && w.rows[id].state == ACKNOWLEDGED && id in w.broker.orders && RowFits(ACKNOWLEDGED, id, w.broker.orders)
  {
    assert LocalFits(ACKNOWLEDGED, w.rows[id].state, id, w.broker.orders);
    assert RowFits(w.rows[id].state, id, w.broker.orders);
  }

  lemma CancelIsRecoverable(m: Memory, w: World, id: string, market: Market, o: Outcome)
    requires Consistent(m, w) && id in m.machine.orders && m.machine.orders[id].state == ACKNOWLEDGED
    requires market.fault != DISCONNECT && o == CancelOne(m, w, id, market)
    ensures Recoverable(w, o, ApplyAll(w, o.trace, market), market) && o.memory.submitted == m.submitted
    ensures o.memory.machine.orders.Keys == m.machine.orders.Keys
  {
    hide Consistent, LocalsFit, RowFits, Cancel, Poll, CancelOne, SafeTrace, ApplyAll;
    KnownAcknowledged(m, w, id);
    var requested := m.(machine := Transition(m.machine, id, CANCEL_REQUESTED).machine);
    var cancelled := FirstCancelSafe(w, id, market);
    var p := Poll(requested, cancelled, id, market);
    CancelThenPoll(m, w, id, requested, cancelled, p, market);
    var after := ApplyAll(cancelled, p.trace, market);
    RequestedCancelFits(m, w, requested, cancelled, id, p, after, market);
    SafeAppend(w, [CancelSent(id)], p.trace, market);
    ApplyAppend(w, [CancelSent(id)], p.trace, market);
  }

  lemma ApplyAppend(w: World, a: seq<Effect>, b: seq<Effect>, market: Market)
    ensures ApplyAll(w, a + b, market) == ApplyAll(ApplyAll(w, a, market), b, market)
  {
    FoldAppend(Stepper(market), w, a, b);
  }

  lemma StaleVisitIsRecoverable(
    m: Memory, w: World, id: string, t: real, limit: real, market: Market, o: Outcome)
    requires Consistent(m, w) && id in m.submitted && o == Visit(CancelIfStale(t, limit), m, w, id, market)
    ensures Recoverable(w, o, ApplyAll(w, o.trace, market), market) && o.memory.submitted == m.submitted
    ensures o.memory.machine.orders.Keys == m.machine.orders.Keys
  {
    hide Apply, Healthy, RowsFit;
    NoEffect(w, market);
    if Stale(m, id, t, limit) && market.fault != DISCONNECT {
      CancelIsRecoverable(m, w, id, market, o);
    }
  }

  lemma VisitIsRecoverable(chore: Chore, m: Memory, w: World, id: string, market: Market, o: Outcome)
    requires Consistent(m, w) && (chore.CancelIfStale? ==> id in m.submitted) && o == Visit(chore, m, w, id, market)
    ensures Recoverable(w, o, ApplyAll(w, o.trace, market), market) && o.memory.submitted == m.submitted
    ensures o.memory.machine.orders.Keys == m.machine.orders.Keys
  {
    NoEffect(w, market);
    match chore
    case PollIfWorking =>
      if id in m.machine.orders && Working(m.machine.orders[id].state) {
        PollIsRecoverable(m, w, id, market);
      }
    case CancelIfStale(t, limit) =>
      StaleVisitIsRecoverable(m, w, id, t, limit, market, o);
  }

  /** Where a loop stands. */
  ghost predicate LoopSafe(m: Memory, w: World, o: Outcome, now: World, market: Market) {
    && Recoverable(w, o, now, market) && Consistent(o.memory, now)
    && o.memory.submitted == m.submitted && o.memory.machine.orders.Keys == m.machine.orders.Keys
  }

  lemma LoopAdvance(
    chore: Chore, m: Memory, w: World, ids: seq<string>, j: nat, market: Market, before: Outcome, now: World)
    returns (o: Outcome, next: World)
    requires j < |ids| && market.Legal() && (chore.CancelIfStale? ==> forall id :: id in ids ==> id in m.submitted)
    requires before == VisitFirst(chore, m, w, ids, j, market) && LoopSafe(m, w, before, now, market)
    ensures o == VisitFirst(chore, m, w, ids, j + 1, market) && LoopSafe(m, w, o, next, market)
  {
    if before.result.Raised? {
      o, next := before, now;
    } else {
      var v := Visit(chore, before.memory, now, ids[j], market);
      assert ids[j] in ids;
      VisitIsRecoverable(chore, before.memory, now, ids[j], market, v);
      VisitOneMore(chore, m, w, ids, j, market, before, now, v);
      o, next := Extended(before, v), ApplyAll(now, v.trace, market);
      SafeAppend(w, before.trace, v.trace, market);
      SafeTraceKeeps(now, v.trace, |v.trace|, market);
      assert v.trace[..|v.trace|] == v.trace;
    }
  }

  lemma LoopStarts(chore: Chore, m: Memory, w: World, ids: seq<string>, market: Market) returns (o: Outcome, now: World)
    requires Consistent(m, w)
    ensures o == VisitFirst(chore, m, w, ids, 0, market) && LoopSafe(m, w, o, now, market)
  {
    o, now := Outcome(m, [], Finished), w;
    NoEffect(w, market);
  }

  lemma LoopIsRecoverable(chore: Chore, m: Memory, w: World, ids: seq<string>, k: nat, market: Market)
    returns (o: Outcome, now: World)
    requires Consistent(m, w) && market.Legal() && k <= |ids|
    requires chore.CancelIfStale? ==> forall id :: id in ids ==> id in m.submitted
    ensures o == VisitFirst(chore, m, w, ids, k, market) && LoopSafe(m, w, o, now, market)
  {
    hide *;
    o, now := LoopStarts(chore, m, w, ids, market);
    for j := 0 to k
      invariant o == VisitFirst(chore, m, w, ids, j, market) && LoopSafe(m, w, o, now, market)
    {
      o, now := LoopAdvance(chore, m, w, ids, j, market, o, now);
    }
  }

  lemma SyncIsRecoverable(m: Memory, w: World, ids: seq<string>, market: Market)
    requires Consistent(m, w) && market.Legal()
    ensures var o := SyncOpen(m, w, ids, market);
            Recoverable(w, o, ApplyAll(w, o.trace, market), market) && o.memory.submitted == m.submitted
            && o.memory.machine.orders.Keys == m.machine.orders.Keys
  {
    NoEffect(w, market);
    if market.fault != DISCONNECT {
      var polled := Apply(w, RestingPolled, market);
      SafeEffectKeeps(w, RestingPolled, market);
      RestingPollProgresses(w.broker, market);
      PolledLocalsFit(m.machine.orders, w.rows, w.broker.orders, polled.broker.orders);
      SafeOne(w, RestingPolled, market);
      OneEffect(w, RestingPolled, market);
      if !RestingPollRaises(w.broker, market) {
        var o, after := LoopIsRecoverable(PollIfWorking, m, polled, ids, |ids|, market);
        SafeAppend(w, [RestingPolled], o.trace, market);
        FoldAppend(Stepper(market), w, [RestingPolled], o.trace);
      }
    }
  }

  lemma PolledLocalsFit(locals: Orders, rows: Rows, before: map<string, PaperOrder>, after: map<string, PaperOrder>)
    requires LocalsFit(locals, rows, before) && OnlyProgress(before, after)
    ensures LocalsFit(locals, rows, after)
  {
  }

  // ----- submitting -----

  lemma FirstStepsSafe(w: World, snapshot: Snapshot, market: Market) returns (sent: World)
    requires Durable(w) && market.Legal() && snapshot.qty > 0.0 && snapshot.id !in w.rows
    ensures var first := [Inserted(snapshot.id, snapshot), Sent(snapshot.RequestOf())];
            SafeTrace(w, first, market) && sent == ApplyAll(w, first, market)
    ensures sent.rows == w.rows[snapshot.id := Row(snapshot, SUBMITTED)]
    ensures sent.broker == SubmitAsCoded(w.broker, snapshot.RequestOf(), market).b
    ensures Durable(sent)
  {
    var insert, send := Inserted(snapshot.id, snapshot), Sent(snapshot.RequestOf());
    var inserted := Apply(w, insert, market);
    SafeEffectKeeps(w, insert, market);
    SafeEffectKeeps(inserted, send, market);
    sent := Apply(inserted, send, market);
    SafeOne(w, insert, market);
    SafeOne(inserted, send, market);
    FoldOne(Stepper(market), w, insert);
    FoldOne(Stepper(market), inserted, send);
    assert ApplyAll(w, [insert], market) == inserted && ApplyAll(inserted, [send], market) == sent;
    SafeAppend(w, [insert], [send], market);
    FoldAppend(Stepper(market), w, [insert], [send]);
    assert [insert, send] == [insert] + [send];
  }

  lemma ReplyIsRecoverable(m: Memory, w: World, id: string, reply: Reply, market: Market)
    requires LocalsFit(m.machine.orders, w.rows, w.broker.orders) && id in m.machine.orders && m.machine.orders[id].state == SUBMITTED
    requires reply == Accepted ==> id in w.broker.orders && Progress(ACKNOWLEDGED, w.broker.orders[id].state)
    requires reply in {Accepted, TimedOut, Disconnected}
    ensures var o := AfterReply(m, w, id, reply, market);
            Recoverable(w, o, ApplyAll(w, o.trace, market), market) && o.memory.submitted == m.submitted
            && o.memory.machine.orders.Keys == m.machine.orders.Keys
  {
    hide Apply, Fold;
    if reply == Accepted {
      MoveIsRecoverable(m, w, id, ACKNOWLEDGED, market);
      var acked := MoveAndSave(m, w.rows, id, ACKNOWLEDGED);
      var now := ApplyAll(w, acked.trace, market);
      var p := Poll(acked.memory, w, id, market);
      LegalMove(m, w, id, ACKNOWLEDGED, market);
      PollIsRecoverable(acked.memory, now, id, market);
      assert p == Poll(acked.memory, now, id, market);
      SafeAppend(w, acked.trace, p.trace, market);
      FoldAppend(Stepper(market), w, acked.trace, p.trace);
    } else {
      MoveIsRecoverable(m, w, id, UNKNOWN, market);
    }
  }

  lemma NewLocalsFit(m: Memory, w: World, ready: Memory, sent: World, id: string)
    requires LocalsFit(m.machine.orders, w.rows, w.broker.orders) && id !in w.rows && w.broker.orders.Keys <= w.rows.Keys
    requires OneMore(w.rows, sent.rows, id) && sent.rows[id].state == SUBMITTED
    requires OneMore(m.machine.orders, ready.machine.orders, id) && ready.machine.orders[id].state == SUBMITTED
    requires w.broker.orders.Keys <= sent.broker.orders.Keys
    requires forall other :: other in w.broker.orders ==> sent.broker.orders[other] == w.broker.orders[other]
    ensures LocalsFit(ready.machine.orders, sent.rows, sent.broker.orders)
  {
    forall other | other in ready.machine.orders
      ensures LocalFits(ready.machine.orders[other].state, sent.rows[other].state, other, sent.broker.orders)
    {
      if other != id {
        assert LocalFits(m.machine.orders[other].state, w.rows[other].state, other, w.broker.orders);
      }
    }
  }

  lemma SubmitIsRecoverable(
    m: Memory, w: World, cfg: Config, order: ApprovedOrder, snapshot: Option<Snapshot>, market: Market)
    requires Consistent(m, w) && market.Legal() && (snapshot.Some? ==> snapshot.value.Frozen())
    ensures var o := SubmitOrder(m, w, cfg.key, cfg.environment, order, snapshot, market);
            Recoverable(w, o, ApplyAll(w, o.trace, market), market) && o.memory.submitted.Keys <= o.memory.machine.orders.Keys
  {
    NoEffect(w, market);
    if Refusal(m, w.rows, cfg.key, cfg.environment, order, snapshot).None? {
      AcceptedIsRecoverable(m, w, cfg, order, snapshot.value, market);
    }
  }

  lemma AcceptedIsRecoverable(
    m: Memory, w: World, cfg: Config, order: ApprovedOrder, snapshot: Snapshot, market: Market)
    requires Consistent(m, w) && market.Legal() && snapshot.Frozen()
    requires Refusal(m, w.rows, cfg.key, cfg.environment, order, Some(snapshot)).None?
    ensures var o := SubmitOrder(m, w, cfg.key, cfg.environment, order, Some(snapshot), market);
            Recoverable(w, o, ApplyAll(w, o.trace, market), market) && o.memory.submitted.Keys <= o.memory.machine.orders.Keys
  {
    hide Orderly, Apply, Fold, AfterReply;
    var id := order.intent.id;
    var sent := FirstStepsSafe(w, snapshot, market);
    SentOrders(w, snapshot.RequestOf(), market);
    var ready := m.(snapshots := m.snapshots[id := snapshot], machine := Prepared(m.machine, id).machine,
                    submitted := m.submitted[id := order]);
    NewLocalsFit(m, w, ready, sent, id);
    if !SendRaises(w.broker, snapshot.RequestOf(), market) {
      var reply := ReplyOf(w.broker, id, market);
      SubmissionHeard(w, snapshot.RequestOf(), market);
      ReplyIsRecoverable(ready, sent, id, reply, market);
      var o := AfterReply(ready, sent, id, reply, market);
      var first := [Inserted(id, snapshot), Sent(snapshot.RequestOf())];
      SafeAppend(w, first, o.trace, market);
      FoldAppend(Stepper(market), w, first, o.trace);
    }
  }

  // ----- whole runs -----

  lemma CallIsRecoverable(m: Memory, w: World, cfg: Config, c: Call, market: Market)
    requires Consistent(m, w) && market.Legal() && ProperCall(m, c)
    ensures var o := Run(m, w, cfg, c, market);
            Recoverable(w, o, ApplyAll(w, o.trace, market), market) && o.memory.submitted.Keys <= o.memory.machine.orders.Keys
  {
    match c
    case SubmitCall(order, snapshot) => SubmitIsRecoverable(m, w, cfg, order, snapshot, market);
    case PollCall(id) => PollIsRecoverable(m, w, id, market);
    case ResolveCall(id) => ResolveIsRecoverable(m, w, id, market);
    case SyncCall(ids) => SyncIsRecoverable(m, w, ids, market);
    case StaleCall(ids, t, limit) => var o, now := LoopIsRecoverable(CancelIfStale(t, limit), m, w, ids, |ids|, market);
    case RecoverCall => NoEffect(w, market);
  }

  lemma StepIsRecoverable(s: Sys, cfg: Config, step: Step)
    requires Consistent(s.memory, s.world) && ProperStep(s, cfg, step)
    ensures Consistent(Take(s, cfg, step).memory, Take(s, cfg, step).world)
  {
    match step
    case Completed(call, market) =>
      var trace := Run(s.memory, s.world, cfg, call, market).trace;
      CallIsRecoverable(s.memory, s.world, cfg, call, market);
      SafeTraceKeeps(s.world, trace, |trace|, market);
      assert trace[..|trace|] == trace;
    case Crashed(call, market, kept) =>
      CallIsRecoverable(s.memory, s.world, cfg, call, market);
      SafeTraceKeeps(s.world, Run(s.memory, s.world, cfg, call, market).trace, kept, market);
    case Restarted =>
    case Tick =>
      SettleStaysOrderly(s.world.broker);
  }

  /**
   Over any run with crashes anywhere, at any legal quotes and under any faults: every order
   the broker holds has a row, each row is behind the broker in one of the listed ways only,
   and each local order says what its row says, or asks for the cancel of a rejected order.
   */
  lemma {:induction false} CrashRunsStayConsistent(
    states: seq<Sys>, cfg: Config, steps: seq<Step>, i: nat)
    requires IsRun(states, cfg, steps) && i < |states|
    requires Consistent(states[0].memory, states[0].world)
    ensures Consistent(states[i].memory, states[i].world)
  {
    if i > 0 {
      CrashRunsStayConsistent(states, cfg, steps, i - 1);
      assert Follows(states[i - 1], cfg, steps[i - 1], states[i]);
      StepIsRecoverable(states[i - 1], cfg, steps[i - 1]);
    }
  }

  lemma FreshIsConsistent(opening: real, feeBps: real, slipBps: real)
    requires ProperRates(feeBps, slipBps)
    ensures Consistent(FRESH, World(map[], Opened(opening, feeBps, slipBps)))
  {
    OpenedIsOrderly(opening, feeBps, slipBps);
  }
}
