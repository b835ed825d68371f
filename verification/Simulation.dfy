/**
 Without crashes inside a call, the engine's local states, the durable rows and the
 broker's states go together after every call, and no illegal transition is ever attempted
 (services/execution/engine.py, services/execution/state_machine.py).
 */
module Simulation {
  import opened OrderStates
  import opened DurableStore
  import opened PaperBrokers
  import opened FillSchema
  import opened BrokerOrders
  import opened Execution
  import opened EngineRuns
  import opened Wrappers

  /** One order: the row says what the machine says, which is UNKNOWN or what the broker says. */
  ghost predicate InStep(id: string, local: OrderState, row: OrderState, held: map<string, PaperOrder>) {
    local == row && (local == UNKNOWN || (id in held && local == held[id].state))
  }

  /** As InStep, except that the broker may have made progress that has not been polled yet. */
  ghost predicate Lagging(id: string, local: OrderState, row: OrderState, held: map<string, PaperOrder>) {
    local == row && (local == UNKNOWN || (id in held && Progress(local, held[id].state)))
  }

  ghost predicate SameOrders(locals: Orders, rows: Rows, held: map<string, PaperOrder>) {
    locals.Keys == rows.Keys && held.Keys <= rows.Keys
  }

  /** Orders in `done` are in step, the others may lag behind the broker. */
  ghost predicate MirrorsFor(locals: Orders, rows: Rows, held: map<string, PaperOrder>, done: set<string>) {
    && SameOrders(locals, rows, held)
    && forall id :: id in rows ==>
         && Lagging(id, locals[id].state, rows[id].state, held)
         && (id in done ==> InStep(id, locals[id].state, rows[id].state, held))
  }

  ghost predicate Mirrors(locals: Orders, rows: Rows, held: map<string, PaperOrder>) {
    && SameOrders(locals, rows, held)
    && forall id :: id in rows ==> InStep(id, locals[id].state, rows[id].state, held)
  }

  ghost predicate Sim(m: Memory, w: World) {
    && Healthy(w)
    && Mirrors(m.machine.orders, w.rows, w.broker.orders)
    && m.submitted.Keys <= m.machine.orders.Keys
  }

  // ----- one order moves -----

  ghost function Resaved(rows: Rows, id: string, state: OrderState): Rows
    requires id in rows
  {
    rows[id := rows[id].(state := state)]
  }

  /** A legal move changes the local state and the row of one order, and nothing else. */
  ghost predicate MovesTo(m: Memory, w: World, id: string, state: OrderState, o: Outcome, after: World)
  {
    && id in m.machine.orders && id in w.rows
    && o.result == Returned(state) && o.memory.submitted == m.submitted
    && o.memory.machine.orders == m.machine.orders[id := Advanced(m.machine.orders[id], id, state)]
    && after.rows == Resaved(w.rows, id, state) && after.broker == w.broker
  }

  lemma LegalMove(m: Memory, w: World, id: string, state: OrderState, market: Market)
    requires id in m.machine.orders && id in w.rows && state in Allowed(m.machine.orders[id].state)
    ensures var o := MoveAndSave(m, w.rows, id, state);
            MovesTo(m, w, id, state, o, ApplyAll(w, o.trace, market)) && o.memory.risk == m.risk
  {
    FoldOne(Stepper(market), w, Saved(id, state));
    assert Stepper(market)(w, Saved(id, state)) == Apply(w, Saved(id, state), market);
  }

  /** Polling an order that may lag behind the broker brings it into step, legally. */
  lemma PollCatchesUp(m: Memory, w: World, id: string, market: Market)
    requires id in m.machine.orders && id in w.rows && id in w.broker.orders && market.fault != DISCONNECT
    requires Progress(m.machine.orders[id].state, w.broker.orders[id].state)
    ensures var o := Poll(m, w, id, market);
            && o.memory.submitted == m.submitted && !o.result.Raised?
            && (m.machine.orders[id].state == w.broker.orders[id].state ==> o.memory == m && o.trace == [])
            && (m.machine.orders[id].state != w.broker.orders[id].state ==>
                  MovesTo(m, w, id, w.broker.orders[id].state, o, ApplyAll(w, o.trace, market)))
  {
    var state := w.broker.orders[id].state;
    if m.machine.orders[id].state != state {
      LegalMove(m, w, id, state, market);
    }
  }

  // ----- polling one order -----

  lemma OneOrderInStep(m: Memory, w: World, id: string, state: OrderState, o: Outcome, after: World)
    requires Mirrors(m.machine.orders, w.rows, w.broker.orders) && MovesTo(m, w, id, state, o, after)
    requires state == UNKNOWN || (id in w.broker.orders && state == w.broker.orders[id].state)
    ensures Mirrors(o.memory.machine.orders, after.rows, after.broker.orders)
  {
  }

  lemma PollKeepsSim(m: Memory, w: World, id: string, market: Market)
    requires Sim(m, w)
    ensures var o := Poll(m, w, id, market);
            Sim(o.memory, ApplyAll(w, o.trace, market)) && o.result != Raised(IllegalTransition)
  {
    NoEffect(w, market);
    if market.fault != DISCONNECT && id in w.broker.orders {
      var o, state := Poll(m, w, id, market), w.broker.orders[id].state;
      assert InStep(id, m.machine.orders[id].state, w.rows[id].state, w.broker.orders);
      if m.machine.orders[id].state != state && TakenOver(state) {
        LegalMove(m, w, id, state, market);
        OneOrderInStep(m, w, id, state, o, ApplyAll(w, o.trace, market));
      }
    }
  }

  lemma ResolveKeepsSim(m: Memory, w: World, id: string, market: Market)
    requires Sim(m, w)
    ensures var o := ResolveUnknown(m, w, id, market);
            Sim(o.memory, ApplyAll(w, o.trace, market)) && o.result != Raised(IllegalTransition)
  {
    hide Wired, LongOnly;
    NoEffect(w, market);
    if market.fault != DISCONNECT && id in w.broker.orders && m.machine.orders[id].state == UNKNOWN {
      var o, state := ResolveUnknown(m, w, id, market), w.broker.orders[id].state;
      OrderOf(w.broker, id);
      LegalMove(m, w, id, state, market);
      OneOrderInStep(m, w, id, state, o, ApplyAll(w, o.trace, market));
    }
  }

  // ----- syncing: the broker moves first, then each order catches up -----

  lemma PolledBrokerLags(locals: Orders, rows: Rows, before: map<string, PaperOrder>, after: map<string, PaperOrder>)
    requires Mirrors(locals, rows, before) && OnlyProgress(before, after)
    ensures MirrorsFor(locals, rows, after, {})
  {
  }

  lemma VisitCatchesUp(m: Memory, w: World, id: string, market: Market, done: set<string>)
    requires MirrorsFor(m.machine.orders, w.rows, w.broker.orders, done) && id in m.machine.orders && market.fault != DISCONNECT
    ensures var o := Visit(PollIfWorking, m, w, id, market);
            var after := ApplyAll(w, o.trace, market);
            && !o.result.Raised? && o.memory.submitted == m.submitted && after.broker == w.broker
            && MirrorsFor(o.memory.machine.orders, after.rows, after.broker.orders, done + {id})
  {
    NoEffect(w, market);
    assert Lagging(id, m.machine.orders[id].state, w.rows[id].state, w.broker.orders);
    if Working(m.machine.orders[id].state) {
      PollCatchesUp(m, w, id, market);
    }
  }

  function Elements(ids: seq<string>): set<string> {
    set id | id in ids
  }

  lemma OneMoreElement(ids: seq<string>, j: nat)
    requires j < |ids|
    ensures ids[j] in ids && Elements(ids[..j + 1]) == Elements(ids[..j]) + {ids[j]}
  {
    assert ids[..j + 1] == ids[..j] + [ids[j]];
  }

  /** Where a loop stands after visiting the orders in `done`. */
  ghost predicate CaughtUp(m: Memory, w: World, done: set<string>, o: Outcome, after: World) {
    match o.result
    case Raised(_) => false
    case _ =>
      && o.memory.submitted == m.submitted && after.broker == w.broker
      && MirrorsFor(o.memory.machine.orders, after.rows, after.broker.orders, done)
      && o.memory.machine.orders.Keys == m.machine.orders.Keys
  }

  lemma CatchUpOne(
    m: Memory, w: World, id: string, market: Market, done: set<string>, before: Outcome, now: World, o: Outcome)
    requires CaughtUp(m, w, done, before, now) && id in m.machine.orders && market.fault != DISCONNECT
    requires o == Visit(PollIfWorking, before.memory, now, id, market)
    ensures CaughtUp(m, w, done + {id}, Extended(before, o), ApplyAll(now, o.trace, market))
  {
    VisitCatchesUp(before.memory, now, id, market, done);
  }

  lemma LoopCatchesUp(m: Memory, w: World, ids: seq<string>, k: nat, market: Market) returns (o: Outcome, now: World)
    requires MirrorsFor(m.machine.orders, w.rows, w.broker.orders, {}) && market.fault != DISCONNECT
    requires k <= |ids| && forall id :: id in ids ==> id in m.machine.orders
    ensures o == VisitFirst(PollIfWorking, m, w, ids, k, market) && now == ApplyAll(w, o.trace, market)
    ensures CaughtUp(m, w, Elements(ids[..k]), o, now)
  {
    o, now := Outcome(m, [], Finished), w;
    NoEffect(w, market);
    assert Elements(ids[..0]) == {};
    for j := 0 to k
      invariant o == VisitFirst(PollIfWorking, m, w, ids, j, market) && now == ApplyAll(w, o.trace, market)
      invariant CaughtUp(m, w, Elements(ids[..j]), o, now)
    {
      var v := Visit(PollIfWorking, o.memory, now, ids[j], market);
      OneMoreElement(ids, j);
      CatchUpOne(m, w, ids[j], market, Elements(ids[..j]), o, now, v);
      VisitOneMore(PollIfWorking, m, w, ids, j, market, o, now, v);
      o, now := Extended(o, v), ApplyAll(now, v.trace, market);
    }
  }

  lemma AllDoneIsMirrored(locals: Orders, rows: Rows, held: map<string, PaperOrder>, ids: seq<string>)
    requires MirrorsFor(locals, rows, held, Elements(ids)) && forall id :: id in locals ==> id in ids
    ensures Mirrors(locals, rows, held)
  {
  }

  lemma SyncKeepsSim(m: Memory, w: World, ids: seq<string>, market: Market)
    requires Sim(m, w) && market.Legal() && Lists(ids, m.machine.orders.Keys) && !RestingPollRaises(w.broker, market)
    ensures var o := SyncOpen(m, w, ids, market);
            Sim(o.memory, ApplyAll(w, o.trace, market)) && !o.result.Raised?
  {
    NoEffect(w, market);
    if market.fault != DISCONNECT {
      var polled := Apply(w, RestingPolled, market);
      RestingPollProgresses(w.broker, market);
      PolledBrokerLags(m.machine.orders, w.rows, w.broker.orders, polled.broker.orders);
      var o, after := LoopCatchesUp(m, polled, ids, |ids|, market);
      assert ids[..|ids|] == ids;
      FoldAppend(Stepper(market), w, [RestingPolled], o.trace);
      FoldOne(Stepper(market), w, RestingPolled);
      assert ApplyAll(w, [RestingPolled] + o.trace, market) == after;
      AllDoneIsMirrored(o.memory.machine.orders, after.rows, polled.broker.orders, ids);
    }
  }

  // ----- stale orders -----

  /** The cancel reaches the broker, the local order asks for it, and the poll brings both and the row together. */
  lemma CancelCatchesUp(m: Memory, w: World, requested: Memory, cancelled: World, id: string, p: Outcome, after: World)
    requires Mirrors(m.machine.orders, w.rows, w.broker.orders) && id in w.rows && id in w.broker.orders
    requires requested.machine.orders == m.machine.orders[id := Advanced(m.machine.orders[id], id, CANCEL_REQUESTED)]
    requires cancelled.rows == w.rows && cancelled.broker.orders == w.broker.orders[id := w.broker.orders[id].(state := CANCELLED)]
    requires MovesTo(requested, cancelled, id, CANCELLED, p, after)
    ensures Mirrors(p.memory.machine.orders, after.rows, after.broker.orders)
  {
  }

  lemma CancelTakesEffect(
    w: World, id: string, rest: seq<Effect>, market: Market) returns (cancelled: World)
    requires Healthy(w) && id in w.broker.orders && Working(w.broker.orders[id].state) && market.fault != DISCONNECT
    ensures Healthy(cancelled) && cancelled == w.(broker := Cancel(w.broker, id, market)) == Apply(w, CancelSent(id), market)
    ensures cancelled.broker.orders == w.broker.orders[id := w.broker.orders[id].(state := CANCELLED)]
    ensures ApplyAll(w, [CancelSent(id)] + rest, market) == ApplyAll(cancelled, rest, market)
  {
    cancelled := Apply(w, CancelSent(id), market);
    CancelStaysOrderly(w.broker, id, market);
    FoldAppend(Stepper(market), w, [CancelSent(id)], rest);
    FoldOne(Stepper(market), w, CancelSent(id));
  }

  lemma AcknowledgedInStep(m: Memory, w: World, id: string)
    requires Sim(m, w) && id in m.machine.orders && m.machine.orders[id].state == ACKNOWLEDGED
    ensures Healthy(w) && Mirrors(m.machine.orders, w.rows, w.broker.orders)
    ensures id in w.rows && id in w.broker.orders && w.broker.orders[id].state == ACKNOWLEDGED
  {
    assert InStep(id, ACKNOWLEDGED, w.rows[id].state, w.broker.orders);
  }

  lemma CancelledPoll(requested: Memory, cancelled: World, id: string, market: Market)
    requires market.fault != DISCONNECT && id in requested.machine.orders && requested.machine.orders[id].state == CANCEL_REQUESTED
    requires id in cancelled.broker.orders && cancelled.broker.orders[id].state == CANCELLED
    ensures Poll(requested, cancelled, id, market) == MoveAndSave(requested, cancelled.rows, id, CANCELLED)
  {
  }

  /** The three steps of cancelling a stale order. */
  lemma StaleOrderCancelled(
    m: Memory, w: World, id: string, market: Market) returns (p: Outcome, after: World)
    requires Sim(m, w) && id in m.machine.orders && m.machine.orders[id].state == ACKNOWLEDGED && market.fault != DISCONNECT
    ensures CancelOne(m, w, id, market) == p.(trace := [CancelSent(id)] + p.trace)
    ensures after == ApplyAll(w, [CancelSent(id)] + p.trace, market)
    ensures Sim(p.memory, after) && p.memory.submitted == m.submitted && !p.result.Raised?
  {
    hide Healthy, Mirrors, Cancel, Poll, CancelOne, MoveAndSave, Apply, ApplyAll;
    AcknowledgedInStep(m, w, id);
    var requested := m.(machine := Transition(m.machine, id, CANCEL_REQUESTED).machine);
    p := MoveAndSave(requested, w.rows, id, CANCELLED);
    var cancelled := CancelTakesEffect(w, id, p.trace, market);
    CancelledPoll(requested, cancelled, id, market);
    CancelThenPoll(m, w, id, requested, cancelled, p, market);
    LegalMove(requested, cancelled, id, CANCELLED, market);
    after := ApplyAll(cancelled, p.trace, market);
    CancelCatchesUp(m, w, requested, cancelled, id, p, after);
    HealthyBroker(cancelled, after);
  }

  lemma HealthyBroker(w: World, after: World)
    requires Healthy(w) && after.broker == w.broker
    ensures Healthy(after)
  {
  }

  lemma StaleVisitKeepsSim(
    m: Memory, w: World, id: string, now: real, limit: real, market: Market, o: Outcome)
    requires Sim(m, w) && id in m.submitted && o == Visit(CancelIfStale(now, limit), m, w, id, market)
    ensures Sim(o.memory, ApplyAll(w, o.trace, market)) && o.memory.submitted == m.submitted
    ensures o.result != Raised(IllegalTransition) && o.result != Raised(UnknownOrder)
  {
    NoEffect(w, market);
    if Stale(m, id, now, limit) && market.fault != DISCONNECT {
      var p, after := StaleOrderCancelled(m, w, id, market);
    } else {
      assert o.memory == m && o.trace == [];
    }
  }

  ghost predicate StaleSoFar(m: Memory, o: Outcome, now: World) {
    match o.result
    case Raised(error) => Sim(o.memory, now) && error != IllegalTransition && error != UnknownOrder
    case _ => Sim(o.memory, now) && o.memory.submitted == m.submitted
  }

  lemma StaleOneMore(
    m: Memory, id: string, t: real, limit: real, market: Market, before: Outcome, now: World, o: Outcome)
    requires StaleSoFar(m, before, now) && id in m.submitted && !before.result.Raised?
    requires o == Visit(CancelIfStale(t, limit), before.memory, now, id, market)
    ensures StaleSoFar(m, Extended(before, o), ApplyAll(now, o.trace, market))
  {
    StaleVisitKeepsSim(before.memory, now, id, t, limit, market, o);
  }

  /** One more order, or none when an error has ended the loop. */
  lemma StaleAdvance(
    m: Memory, w: World, ids: seq<string>, j: nat, t: real, limit: real, market: Market, before: Outcome, now: World)
    returns (o: Outcome, next: World)
    requires j < |ids| && forall id :: id in ids ==> id in m.submitted
    requires before == VisitFirst(CancelIfStale(t, limit), m, w, ids, j, market) && now == ApplyAll(w, before.trace, market)
    requires StaleSoFar(m, before, now)
    ensures o == VisitFirst(CancelIfStale(t, limit), m, w, ids, j + 1, market) && next == ApplyAll(w, o.trace, market)
    ensures StaleSoFar(m, o, next)
  {
    if before.result.Raised? {
      o, next := before, now;
    } else {
      var chore := CancelIfStale(t, limit);
      var v := Visit(chore, before.memory, now, ids[j], market);
      assert ids[j] in ids;
      StaleOneMore(m, ids[j], t, limit, market, before, now, v);
      VisitOneMore(chore, m, w, ids, j, market, before, now, v);
      o, next := Extended(before, v), ApplyAll(now, v.trace, market);
    }
  }

  lemma StaleLoopKeepsSim(m: Memory, w: World, ids: seq<string>, t: real, limit: real, market: Market)
    returns (o: Outcome, now: World)
    requires Sim(m, w) && forall id :: id in ids ==> id in m.submitted
    ensures o == VisitFirst(CancelIfStale(t, limit), m, w, ids, |ids|, market) && now == ApplyAll(w, o.trace, market)
    ensures StaleSoFar(m, o, now)
  {
    o, now := Outcome(m, [], Finished), w;
    NoEffect(w, market);
    for j := 0 to |ids|
      invariant o == VisitFirst(CancelIfStale(t, limit), m, w, ids, j, market) && now == ApplyAll(w, o.trace, market)
      invariant StaleSoFar(m, o, now)
    {
      o, now := StaleAdvance(m, w, ids, j, t, limit, market, o, now);
    }
  }

  // ----- submitting -----

  /** The local order is new, approved and submitted; its row says SUBMITTED; the request has gone out. */
  lemma SubmissionPrepared(m: Memory, w: World, order: ApprovedOrder, snapshot: Snapshot, market: Market)
    requires Sim(m, w) && market.Legal() && snapshot.Frozen() && snapshot.id == order.intent.id && snapshot.id !in w.rows
    ensures var id := snapshot.id;
            var sent := ApplyAll(w, [Inserted(id, snapshot), Sent(snapshot.RequestOf())], market);
            && Prepared(m.machine, id).Moved?
            && var locals := Prepared(m.machine, id).machine.orders;
            && locals.Keys == m.machine.orders.Keys + {id} && locals[id].state == SUBMITTED
            && (forall other :: other in m.machine.orders ==> locals[other] == m.machine.orders[other])
            && sent.rows == w.rows[id := Row(snapshot, SUBMITTED)]
            && sent.broker == SubmitAsCoded(w.broker, snapshot.RequestOf(), market).b
  {
    var id := snapshot.id;
    var insert, send := Inserted(id, snapshot), Sent(snapshot.RequestOf());
    assert [insert, send] == [insert] + [send];
    FoldAppend(Stepper(market), w, [insert], [send]);
    FoldOne(Stepper(market), w, insert);
    FoldOne(Stepper(market), Apply(w, insert, market), send);
  }

  /** The new order after the broker has answered. */
  ghost predicate NewOrderSettled(m: Memory, w: World, id: string, o: Outcome, after: World) {
    && o.result != Raised(IllegalTransition) && o.memory.submitted == m.submitted
    && o.memory.machine.orders.Keys == m.machine.orders.Keys && after.rows.Keys == w.rows.Keys && after.broker == w.broker
    && id in w.rows && id in m.machine.orders
    && (forall other :: other in m.machine.orders && other != id ==> o.memory.machine.orders[other] == m.machine.orders[other])
    && (forall other :: other in w.rows && other != id ==> after.rows[other] == w.rows[other])
    && InStep(id, o.memory.machine.orders[id].state, after.rows[id].state, w.broker.orders)
  }

  lemma ReplySettles(m: Memory, w: World, id: string, reply: Reply, market: Market)
    requires id in m.machine.orders && m.machine.orders[id].state == SUBMITTED && id in w.rows
    requires reply == Accepted ==> market.fault != DISCONNECT && id in w.broker.orders && Progress(ACKNOWLEDGED, w.broker.orders[id].state)
    requires reply in {Accepted, TimedOut, Disconnected}
    ensures var o := AfterReply(m, w, id, reply, market);
            NewOrderSettled(m, w, id, o, ApplyAll(w, o.trace, market))
  {
    if reply == Accepted {
      LegalMove(m, w, id, ACKNOWLEDGED, market);
      var acked := MoveAndSave(m, w.rows, id, ACKNOWLEDGED);
      var now := ApplyAll(w, acked.trace, market);
      PollCatchesUp(acked.memory, now, id, market);
      var p := Poll(acked.memory, now, id, market);
      assert p == Poll(acked.memory, w, id, market);
      FoldAppend(Stepper(market), w, acked.trace, p.trace);
      NoEffect(now, market);
    } else {
      LegalMove(m, w, id, UNKNOWN, market);
    }
  }

  lemma SubmitKeepsSim(
    m: Memory, w: World, cfg: Config, order: ApprovedOrder, snapshot: Option<Snapshot>, market: Market)
    requires Sim(m, w) && market.Legal() && (snapshot.Some? ==> snapshot.value.Frozen())
    requires Usable(w.broker) && !CallFaults(m, w, cfg, SubmitCall(order, snapshot), market)
    ensures var o := SubmitOrder(m, w, cfg.key, cfg.environment, order, snapshot, market);
            Sim(o.memory, ApplyAll(w, o.trace, market)) && o.result != Raised(IllegalTransition)
  {
    NoEffect(w, market);
    if Refusal(m, w.rows, cfg.key, cfg.environment, order, snapshot).None? {
      ReturnsIff(w.broker, SubmitOp(snapshot.value.RequestOf(), market));
      AcceptedKeepsSim(m, w, cfg, order, snapshot.value, market);
    }
  }

  lemma AcceptedKeepsSim(
    m: Memory, w: World, cfg: Config, order: ApprovedOrder, snapshot: Snapshot, market: Market)
    requires Sim(m, w) && market.Legal() && snapshot.Frozen() && !SendRaises(w.broker, snapshot.RequestOf(), market)
    requires Refusal(m, w.rows, cfg.key, cfg.environment, order, Some(snapshot)).None?
    ensures var o := SubmitOrder(m, w, cfg.key, cfg.environment, order, Some(snapshot), market);
            Sim(o.memory, ApplyAll(w, o.trace, market)) && o.result != Raised(IllegalTransition)
  {
    hide Orderly, AfterReply, Apply, Fold, Mirrors;
    var id, req := order.intent.id, snapshot.RequestOf();
    var first := [Inserted(id, snapshot), Sent(req)];
    var sent := ApplyAll(w, first, market);
    SubmissionPrepared(m, w, order, snapshot, market);
    var ready := m.(snapshots := m.snapshots[id := snapshot], machine := Prepared(m.machine, id).machine,
                    submitted := m.submitted[id := order]);
    var reply := ReplyOf(w.broker, id, market);
    var o := AfterReply(ready, sent, id, reply, market);
    NewOrderKeepsSim(m, w, ready, sent, id, reply, o, req, market);
    FoldAppend(Stepper(market), w, first, o.trace);
  }

  /** `now` is `before` with one more key. */
  ghost predicate OneMore<V(!new)>(before: map<string, V>, now: map<string, V>, id: string) {
    && id !in before && now.Keys == before.Keys + {id}
    && forall other :: other in before ==> now[other] == before[other]
  }

  /** The broker's orders after a submission: as before, and perhaps the new one, acknowledged or further. */
  ghost predicate Heard(before: map<string, PaperOrder>, now: map<string, PaperOrder>, id: string, reply: Reply) {
    && now.Keys <= before.Keys + {id} && before.Keys <= now.Keys
    && (forall other :: other in before ==> now[other] == before[other])
    && (reply == Accepted ==> id in now && Progress(ACKNOWLEDGED, now[id].state))
  }

  lemma SubmissionHeard(w: World, req: Request, market: Market)
    requires Healthy(w) && market.Legal() && req.qty > 0.0 && req.id !in w.broker.orders
    ensures var b := SubmitAsCoded(w.broker, req, market).b;
            Orderly(b) && Heard(w.broker.orders, b.orders, req.id, ReplyOf(w.broker, req.id, market))
  {
    hide Wired, LongOnly, OrderSound, ExecuteAsCoded;
    SubmitProgresses(w.broker, req, market);
  }

  lemma NewOrderKeepsSim(
    m: Memory, w: World, ready: Memory, sent: World, id: string, reply: Reply, o: Outcome, req: Request, market: Market)
    requires Sim(m, w) && market.Legal() && req.qty > 0.0 && req.id == id && id !in w.rows
    requires OneMore(m.machine.orders, ready.machine.orders, id) && ready.machine.orders[id].state == SUBMITTED
    requires ready.submitted.Keys == m.submitted.Keys + {id}
    requires OneMore(w.rows, sent.rows, id) && sent.broker == SubmitAsCoded(w.broker, req, market).b
    requires reply == ReplyOf(w.broker, id, market) && o == AfterReply(ready, sent, id, reply, market)
    ensures Sim(o.memory, ApplyAll(sent, o.trace, market)) && o.result != Raised(IllegalTransition)
  {
    SubmissionHeard(w, req, market);
    ReplySettles(ready, sent, id, reply, market);
    NewOrderMirrored(m, w, ready, sent, id, reply, o, ApplyAll(sent, o.trace, market));
  }

  lemma OldOrderInStep(
    m: Memory, w: World, ready: Memory, sent: World, id: string, reply: Reply, o: Outcome, after: World, other: string)
    requires Mirrors(m.machine.orders, w.rows, w.broker.orders) && other in w.rows && other != id
    requires OneMore(m.machine.orders, ready.machine.orders, id) && OneMore(w.rows, sent.rows, id)
    requires Heard(w.broker.orders, sent.broker.orders, id, reply) && NewOrderSettled(ready, sent, id, o, after)
    ensures other in o.memory.machine.orders && other in after.rows
    ensures InStep(other, o.memory.machine.orders[other].state, after.rows[other].state, after.broker.orders)
  {
    assert InStep(other, m.machine.orders[other].state, w.rows[other].state, w.broker.orders);
  }

  lemma NewOrderMirrored(
    m: Memory, w: World, ready: Memory, sent: World, id: string, reply: Reply, o: Outcome, after: World)
    requires Mirrors(m.machine.orders, w.rows, w.broker.orders) && m.submitted.Keys <= m.machine.orders.Keys
    requires OneMore(m.machine.orders, ready.machine.orders, id) && OneMore(w.rows, sent.rows, id)
    requires ready.submitted.Keys == m.submitted.Keys + {id} && Heard(w.broker.orders, sent.broker.orders, id, reply)
    requires NewOrderSettled(ready, sent, id, o, after)
    ensures Mirrors(o.memory.machine.orders, after.rows, after.broker.orders)
    ensures o.memory.submitted.Keys <= o.memory.machine.orders.Keys
  {
    hide InStep;
    forall other | other in after.rows
      ensures other in o.memory.machine.orders
      ensures InStep(other, o.memory.machine.orders[other].state, after.rows[other].state, after.broker.orders)
    {
      if other != id {
        OldOrderInStep(m, w, ready, sent, id, reply, o, after, other);
      }
    }
  }

  // ----- any call, any run -----

  lemma CallKeepsSim(m: Memory, w: World, cfg: Config, c: Call, market: Market)
    requires Sim(m, w) && market.Legal() && ProperCall(m, c) && Usable(w.broker) && !CallFaults(m, w, cfg, c, market)
    ensures var o := Run(m, w, cfg, c, market);
            Sim(o.memory, ApplyAll(w, o.trace, market)) && o.result != Raised(IllegalTransition)
  {
    hide Orderly, Mirrors, SubmitRounds, CallRounds;
    match c
    case SubmitCall(order, snapshot) => SubmitKeepsSim(m, w, cfg, order, snapshot, market);
    case PollCall(id) => PollKeepsSim(m, w, id, market);
    case ResolveCall(id) => ResolveKeepsSim(m, w, id, market);
    case SyncCall(ids) =>
      ReturnsIff(w.broker, PollOp(market));
      SyncKeepsSim(m, w, ids, market);
    case StaleCall(ids, now, limit) => var o, after := StaleLoopKeepsSim(m, w, ids, now, limit, market);
    case RecoverCall =>
      NoEffect(w, market);
      RecoverKeepsSim(m, w);
  }

  /** Every order the engine knows the state of is where it was at the broker. */
  ghost predicate NothingMoved(locals: Orders, before: map<string, PaperOrder>, after: map<string, PaperOrder>) {
    forall id :: id in locals && locals[id].state != UNKNOWN && id in before && id in after ==> after[id].state == before[id].state
  }

  /** A submission that faults leaves the order SUBMITTED here and acknowledged there. */
  lemma FaultySubmitParts(m: Memory, w: World, cfg: Config, order: ApprovedOrder, snapshot: Option<Snapshot>, market: Market)
    requires Sim(m, w) && market.Legal() && (snapshot.Some? ==> snapshot.value.Frozen())
    requires Usable(w.broker) && CallFaults(m, w, cfg, SubmitCall(order, snapshot), market)
    ensures var o := SubmitOrder(m, w, cfg.key, cfg.environment, order, snapshot, market);
            !Sim(o.memory, ApplyAll(w, o.trace, market)) && o.result == Raised(BrokerFault)
  {
    hide Orderly, Apply, Fold, AfterReply;
    var id, req := order.intent.id, snapshot.value.RequestOf();
    FaultsIff(m, w, cfg, SubmitCall(order, snapshot), market);
    ReturnsIff(w.broker, SubmitOp(req, market));
    SubmissionPrepared(m, w, order, snapshot.value, market);
    SubmitProgresses(w.broker, req, market);
    var o := SubmitOrder(m, w, cfg.key, cfg.environment, order, snapshot, market);
    var after := ApplyAll(w, o.trace, market);
    assert id in after.rows && !InStep(id, o.memory.machine.orders[id].state, after.rows[id].state, after.broker.orders);
  }

  lemma FaultySyncParts(m: Memory, w: World, cfg: Config, ids: seq<string>, market: Market)
    requires Sim(m, w) && market.Legal() && Usable(w.broker) && CallFaults(m, w, cfg, SyncCall(ids), market)
    ensures var o := SyncOpen(m, w, ids, market);
            && o.result == Raised(BrokerFault)
            && (Sim(o.memory, ApplyAll(w, o.trace, market)) <==>
                  NothingMoved(m.machine.orders, w.broker.orders, HandleAsCoded(w.broker, PollOp(market)).b.orders))
  {
    hide Orderly, PollAsCoded;
    ReturnsIff(w.broker, PollOp(market));
    RestingPollProgresses(w.broker, market);
    OneEffect(w, RestingPolled, market);
    var polled := Apply(w, RestingPolled, market);
    MirrorsIffNothingMoved(m.machine.orders, w.rows, w.broker.orders, polled.broker.orders);
  }

  lemma MirrorsIffNothingMoved(locals: Orders, rows: Rows, before: map<string, PaperOrder>, after: map<string, PaperOrder>)
    requires Mirrors(locals, rows, before) && before.Keys == after.Keys
    ensures Mirrors(locals, rows, after) <==> NothingMoved(locals, before, after)
  {
    if Mirrors(locals, rows, after) {
      forall id | id in locals && locals[id].state != UNKNOWN && id in before && id in after
        ensures after[id].state == before[id].state
      {
        assert InStep(id, locals[id].state, rows[id].state, before) && InStep(id, locals[id].state, rows[id].state, after);
      }
    }
  }

  /**
   Exactly when a call leaves everything in step: unless the broker meets a fill whose price
   rounds to nothing, and even then if it does so in a sync before any known order has moved.
   In no case does the call attempt an illegal transition.
   */
  lemma CallKeepsSimIff(m: Memory, w: World, cfg: Config, c: Call, market: Market)
    requires Sim(m, w) && market.Legal() && ProperCall(m, c) && Usable(w.broker)
    ensures var o := Run(m, w, cfg, c, market);
            && o.result != Raised(IllegalTransition)
            && (Sim(o.memory, ApplyAll(w, o.trace, market)) <==>
                  (CallFaults(m, w, cfg, c, market) ==>
                     c.SyncCall? && NothingMoved(m.machine.orders, w.broker.orders, HandleAsCoded(w.broker, PollOp(market)).b.orders)))
  {
    hide Sim, CallFaults, NothingMoved;
    if !CallFaults(m, w, cfg, c, market) {
      CallKeepsSim(m, w, cfg, c, market);
    } else {
      FaultyCall(m, w, cfg, c, market);
    }
  }

  lemma FaultyCall(m: Memory, w: World, cfg: Config, c: Call, market: Market)
    requires Sim(m, w) && market.Legal() && ProperCall(m, c) && Usable(w.broker) && CallFaults(m, w, cfg, c, market)
    ensures var o := Run(m, w, cfg, c, market);
            && o.result == Raised(BrokerFault)
            && (Sim(o.memory, ApplyAll(w, o.trace, market)) <==>
                  c.SyncCall? && NothingMoved(m.machine.orders, w.broker.orders, HandleAsCoded(w.broker, PollOp(market)).b.orders))
  {
    hide Sim, NothingMoved, SubmitRounds, CallRounds, Refusal, Prepared;
    match c
    case SubmitCall(order, snapshot) => FaultySubmitParts(m, w, cfg, order, snapshot, market);
    case SyncCall(ids) => FaultySyncParts(m, w, cfg, ids, market);
    case _ =>
  }

  lemma RecoverKeepsSim(m: Memory, w: World)
    requires Sim(m, w)
    ensures Sim(Recover(m, w.rows), w)
  {
    assert w.rows.Keys - m.machine.orders.Keys == {};
  }

  /** A new process that first recovers from the store finds everything in step. */
  lemma RebootKeepsSim(m: Memory, w: World)
    requires Sim(m, w)
    ensures Sim(Recover(FRESH, w.rows), w)
  {
    var now := Recover(FRESH, w.rows).machine.orders;
    assert now.Keys == w.rows.Keys;
    forall id | id in w.rows
      ensures InStep(id, now[id].state, w.rows[id].state, w.broker.orders)
    {
      assert InStep(id, m.machine.orders[id].state, w.rows[id].state, w.broker.orders);
    }
  }

  datatype CleanStep = Called(call: Call, market: Market) | Rebooted | Ticked

  /** In a clean run no call faults. */
  ghost predicate CleanFollows(s: Sys, cfg: Config, step: CleanStep, t: Sys) {
    match step
    case Called(call, market) =>
      && Follows(s, cfg, Completed(call, market), t)
      && Usable(s.world.broker) && !CallFaults(s.memory, s.world, cfg, call, market)
    case Rebooted => t == Sys(Recover(FRESH, s.world.rows), s.world)
    case Ticked => Follows(s, cfg, Tick, t)
  }

  ghost predicate IsCleanRun(states: seq<Sys>, cfg: Config, steps: seq<CleanStep>) {
    && |states| == |steps| + 1
    && forall i :: 0 <= i < |steps| ==> CleanFollows(states[i], cfg, steps[i], states[i + 1])
  }

  lemma CleanStepKeepsSim(s: Sys, cfg: Config, step: CleanStep, t: Sys)
    requires Sim(s.memory, s.world) && CleanFollows(s, cfg, step, t)
    ensures Sim(t.memory, t.world)
    ensures step.Called? ==> Run(s.memory, s.world, cfg, step.call, step.market).result != Raised(IllegalTransition)
  {
    hide Mirrors, Orderly, CallFaults, Run, Fold, Apply;
    match step
    case Called(call, market) => CallKeepsSim(s.memory, s.world, cfg, call, market);
    case Rebooted => RebootKeepsSim(s.memory, s.world);
    case Ticked => SettleStaysOrderly(s.world.broker);
  }

  /**
   Simulation. Over any run of calls, each under one fixed fault and none meeting a fill
   whose price rounds to nothing, of settlements, and of restarts between calls that begin
   with a recovery: after every step each order's row equals its local state, which equals
   the broker's state or is UNKNOWN; and no call raises an illegal transition.
   */
  lemma {:induction false} LocalStatesSimulateTheBroker(
    states: seq<Sys>, cfg: Config, steps: seq<CleanStep>, i: nat)
    requires IsCleanRun(states, cfg, steps) && i < |states|
    requires Sim(states[0].memory, states[0].world)
    ensures Sim(states[i].memory, states[i].world)
    ensures i < |steps| && steps[i].Called? ==>
              Run(states[i].memory, states[i].world, cfg, steps[i].call, steps[i].market).result != Raised(IllegalTransition)
  {
    hide Sim, Run, CleanFollows;
    if i > 0 {
      LocalStatesSimulateTheBroker(states, cfg, steps, i - 1);
      assert CleanFollows(states[i - 1], cfg, steps[i - 1], states[i]);
      CleanStepKeepsSim(states[i - 1], cfg, steps[i - 1], states[i]);
    }
    if i < |steps| {
      assert CleanFollows(states[i], cfg, steps[i], states[i + 1]);
      CleanStepKeepsSim(states[i], cfg, steps[i], states[i + 1]);
    }
  }

  lemma FreshIsInStep(opening: real, feeBps: real, slipBps: real)
    requires ProperRates(feeBps, slipBps)
    ensures Sim(FRESH, World(map[], Opened(opening, feeBps, slipBps)))
  {
    OpenedIsOrderly(opening, feeBps, slipBps);
  }
}
