/**
 The execution engine as an object over the state machine, the order table and the broker
 (services/execution/engine.py). Each method is proved to do what module Execution says of
 the call, and to take its durable steps in exactly that order.
 */
module ExecutionEngines {
  import opened OrderStates
  import opened DurableStore
  import opened Intents
  import opened PaperBrokers
  import opened FillSchema
  import opened BrokerOrders
  import opened BrokerObjects
  import opened Execution
  import opened RiskStates
  import opened Wrappers

  /** One call after another: their durable steps, and the journal, one after the other. */
  lemma Sequence<S, E>(
    step: (S, E) -> S, w: S, log: seq<E>, first: seq<E>, now: S, middle: seq<E>, second: seq<E>, after: S, end: seq<E>)
    requires now == Fold(step, w, first) && after == Fold(step, now, second)
    requires middle == log + first && end == middle + second
    ensures after == Fold(step, w, first + second) && end == log + (first + second)
  {
    FoldAppend(step, w, first, second);
  }

  lemma TwoEffects(w: World, log: seq<Effect>, first: Effect, second: Effect, market: Market)
    ensures ApplyAll(w, [first, second], market) == Apply(Apply(w, first, market), second, market)
    ensures log + [first] + [second] == log + [first, second]
  {
    OneEffect(w, first, market);
    OneEffect(Apply(w, first, market), second, market);
    FoldAppend(Stepper(market), w, [first], [second]);
    assert [first, second] == [first] + [second];
  }

  /** A poll looks at the broker and at which rows there are, not at what they say. */
  lemma SameKeysSamePoll(m: Memory, a: World, b: World, id: string, market: Market)
    requires a.broker == b.broker && a.rows.Keys == b.rows.Keys
    ensures Poll(m, a, id, market) == Poll(m, b, id, market)
  {
  }

  /** An accepted order is acknowledged and then polled. */
  lemma AcceptedThenPolled(m: Memory, w: World, id: string, acked: Outcome, now: World, p: Outcome, market: Market)
    requires acked == MoveAndSave(m, w.rows, id, ACKNOWLEDGED) && !acked.result.Raised?
    requires now == ApplyAll(w, acked.trace, market) && p == Poll(acked.memory, now, id, market)
    ensures AfterReply(m, w, id, Accepted, market) == p.(trace := acked.trace + p.trace)
  {
    OneEffect(w, Saved(id, ACKNOWLEDGED), market);
    SameKeysSamePoll(acked.memory, w, now, id, market);
  }

  /** An error ends a loop. */
  lemma {:induction false} VisitsEnd(
    chore: Chore, m: Memory, w: World, ids: seq<string>, j: nat, k: nat, market: Market)
    requires j <= k <= |ids| && VisitFirst(chore, m, w, ids, j, market).result.Raised?
    ensures VisitFirst(chore, m, w, ids, k, market) == VisitFirst(chore, m, w, ids, j, market)
    decreases k
  {
    hide Visit, ApplyAll;
    if j < k {
      VisitsEnd(chore, m, w, ids, j, k - 1, market);
      var before := VisitFirst(chore, m, w, ids, k - 1, market);
      assert before.result.Raised?;
    }
  }

  /** Which orders a loop cancels. */
  ghost predicate Cancels(chore: Chore, m: Memory, id: string) {
    chore.CancelIfStale? && Stale(m, id, chore.now, chore.limit)
  }

  ghost function CancelledIds(chore: Chore, m: Memory, ids: seq<string>): seq<string> {
    match chore
    case PollIfWorking => []
    case CancelIfStale(now, limit) => StaleIds(m, ids, now, limit)
  }

  /** Whether the loop cancels its next order can be told from the memory it started with. */
  lemma CancelsAsBefore(
    chore: Chore, m: Memory, w: World, ids: seq<string>, j: nat, market: Market, o: Outcome)
    requires j < |ids| && NoRepeats(ids) && o == VisitFirst(chore, m, w, ids, j, market)
    ensures Cancels(chore, o.memory, ids[j]) <==> Cancels(chore, m, ids[j])
    ensures CancelledIds(chore, m, ids[..j + 1]) ==
            CancelledIds(chore, m, ids[..j]) + if Cancels(chore, m, ids[j]) then [ids[j]] else []
  {
    hide VisitFirst, Visit;
    VisitsTouchOnly(chore, m, w, ids, j, market);
    assert ids[j] !in ids[..j];
    assert ids[..j + 1][..j] == ids[..j];
  }

  lemma CancelledAreStale(m: Memory, ids: seq<string>, now: real, limit: real)
    ensures CancelledIds(CancelIfStale(now, limit), m, ids) == StaleIds(m, ids, now, limit)
  {
  }

  lemma PollVisitKeepsTheBroker(m: Memory, w: World, id: string, market: Market)
    ensures ApplyAll(w, Visit(PollIfWorking, m, w, id, market).trace, market).broker == w.broker
  {
    var trace := Visit(PollIfWorking, m, w, id, market).trace;
    if trace != [] {
      OneEffect(w, trace[0], market);
      assert trace == [trace[0]];
    }
  }

  lemma {:induction false} PollingKeepsTheBroker(m: Memory, w: World, ids: seq<string>, k: nat, market: Market)
    requires k <= |ids|
    ensures ApplyAll(w, VisitFirst(PollIfWorking, m, w, ids, k, market).trace, market).broker == w.broker
  {
    hide Visit, Apply;
    if k > 0 {
      PollingKeepsTheBroker(m, w, ids, k - 1, market);
      var before := VisitFirst(PollIfWorking, m, w, ids, k - 1, market);
      if !before.result.Raised? {
        var now := ApplyAll(w, before.trace, market);
        var o := Visit(PollIfWorking, before.memory, now, ids[k - 1], market);
        PollVisitKeepsTheBroker(before.memory, now, ids[k - 1], market);
        VisitOneMore(PollIfWorking, m, w, ids, k - 1, market, before, now, o);
      }
    }
  }

  /** The orders in `done` have been restored from their rows, the others are as before. */
  ghost predicate RestoredUpTo(before: Orders, now: Orders, done: set<string>, rows: Rows) {
    && done <= rows.Keys && done !! before.Keys && now.Keys == before.Keys + done
    && (forall id :: id in before ==> now[id] == before[id])
    && (forall id :: id in done ==> now[id] == OrderRecord(rows[id].state, 1, []))
  }

  ghost predicate FrozenUpTo(before: map<string, Snapshot>, now: map<string, Snapshot>, done: set<string>, rows: Rows) {
    && done <= rows.Keys && now.Keys == before.Keys + done
    && (forall id :: id in before && id !in done ==> now[id] == before[id])
    && (forall id :: id in done ==> now[id] == rows[id].snapshot)
  }

  lemma RestoreOneMore(before: Orders, now: Orders, done: set<string>, rows: Rows, id: string)
    requires RestoredUpTo(before, now, done, rows) && id in rows && id !in before && id !in done
    ensures id !in now && RestoredUpTo(before, now[id := OrderRecord(rows[id].state, 1, [])], done + {id}, rows)
  {
  }

  lemma FreezeOneMore(
    before: map<string, Snapshot>, now: map<string, Snapshot>, done: set<string>, rows: Rows, id: string)
    requires FrozenUpTo(before, now, done, rows) && id in rows
    ensures FrozenUpTo(before, now[id := rows[id].snapshot], done + {id}, rows)
  {
  }

  lemma OneFewer(all: set<string>, done: set<string>, rest: set<string>, id: string)
    requires done + rest == all && done !! rest && id in rest
    ensures (done + {id}) + (rest - {id}) == all && (done + {id}) !! (rest - {id}) && |done + {id}| == |done| + 1
  {
  }

  lemma RestoredOrders(m: Memory, rows: Rows, orders: Orders)
    requires RestoredUpTo(m.machine.orders, orders, rows.Keys - m.machine.orders.Keys, rows)
    ensures orders == Recover(m, rows).machine.orders
  {
    var missing := rows.Keys - m.machine.orders.Keys;
    var added := map id | id in missing :: OrderRecord(rows[id].state, 1, []);
    assert added.Keys == missing;
    assert orders == m.machine.orders + added;
  }

  lemma RestoredSnapshots(m: Memory, rows: Rows, snapshots: map<string, Snapshot>)
    requires FrozenUpTo(m.snapshots, snapshots, rows.Keys - m.machine.orders.Keys, rows)
    ensures snapshots == Recover(m, rows).snapshots
  {
    var missing := rows.Keys - m.machine.orders.Keys;
    var added := map id | id in missing :: rows[id].snapshot;
    assert added.Keys == missing;
    assert snapshots == m.snapshots + added;
  }

  class ExecutionEngine {
    const broker: PaperBroker
    const store: DurableOrderStore<Snapshot>
    const machine: OrderStateMachine
    const key: string
    const environment: string
    var submitted: map<string, ApprovedOrder>
    var snapshots: map<string, Snapshot>
    var risk: RiskState
    // The durable steps taken so far, in order.
    ghost var journal: seq<Effect>

    ghost function Mem(): Memory
      reads this, machine
    {
      Memory(machine.State(), submitted, snapshots, risk)
    }

    ghost function Durables(): World
      reads store, broker
    {
      World(store.rows, broker.State())
    }

    /** All that calls which leave the broker alone rely on. */
    ghost predicate Tracking()
      reads machine
    {
      Faithful(machine.State())
    }

    ghost predicate Valid()
      reads machine, broker
    {
      broker.Valid() && Tracking()
    }

    /** The state after a call is that of `o`, and the journal has grown by its durable steps. */
    twostate predicate Did(o: Outcome, market: Market)
      reads this, machine, store, broker
    {
      && Mem() == o.memory && Durables() == ApplyAll(old(Durables()), o.trace, market)
      && journal == old(journal) + o.trace
    }

    constructor (broker: PaperBroker, store: DurableOrderStore<Snapshot>, machine: OrderStateMachine, key: string, environment: string)
      requires broker.Valid() && Faithful(machine.State())
      ensures Valid() && this.broker == broker && this.store == store && this.machine == machine
      ensures this.key == key && this.environment == environment && journal == []
      ensures Mem() == Memory(machine.State(), map[], map[], NORMAL)
    {
      this.broker, this.store, this.machine, this.key, this.environment := broker, store, machine, key, environment;
      submitted, snapshots, risk, journal := map[], map[], NORMAL, [];
    }

    // ----- single durable steps -----

    method Insert(id: string, snapshot: Snapshot, market: Market) returns (ok: bool)
      requires Valid()
      modifies store, `journal
      ensures Valid() && Mem() == old(Mem()) && (ok <==> id !in old(store.rows))
      ensures Durables() == Apply(old(Durables()), Inserted(id, snapshot), market)
      ensures journal == old(journal) + [Inserted(id, snapshot)]
    {
      ok := store.RecordSubmission(id, snapshot, SUBMITTED);
      journal := journal + [Inserted(id, snapshot)];
    }

    method Send(req: Request, market: Market) returns (reply: Reply, raised: bool)
      requires Valid() && req.qty > 0.0 && market.Legal()
      modifies broker, `journal
      ensures Valid() && Mem() == old(Mem()) && (raised <==> SendRaises(old(broker.State()), req, market))
      ensures !raised ==> reply == ReplyOf(old(broker.State()), req.id, market)
      ensures Durables() == Apply(old(Durables()), Sent(req), market)
      ensures journal == old(journal) + [Sent(req)]
    {
      hide SubmitAsCoded, OrderSound, Wired, LongOnly;
      reply, raised := broker.SubmitOrder(req, market);
      journal := journal + [Sent(req)];
    }

    method TellCancel(id: string, market: Market) returns (reply: CancelReply)
      requires Valid() && market.fault != DISCONNECT
      modifies broker, `journal
      ensures Valid() && Mem() == old(Mem())
      ensures Durables() == Apply(old(Durables()), CancelSent(id), market)
      ensures journal == old(journal) + [CancelSent(id)]
    {
      reply := broker.CancelOrder(id, market);
      journal := journal + [CancelSent(id)];
    }

    method TellPoll(market: Market) returns (newFills: seq<Fill>, raised: bool)
      requires Valid() && market.fault != DISCONNECT && market.Legal()
      modifies broker, `journal
      ensures Valid() && Mem() == old(Mem()) && (raised <==> RestingPollRaises(old(broker.State()), market))
      ensures !raised ==> broker.fills == old(broker.fills) + newFills
      ensures Durables() == Apply(old(Durables()), RestingPolled, market)
      ensures journal == old(journal) + [RestingPolled]
    {
      hide HandleAsCoded, OrderSound, Wired, LongOnly;
      var gone;
      newFills, gone, raised := broker.PollRestingOrders(market);
      journal := journal + [RestingPolled];
    }

    method SaveState(id: string, state: OrderState, market: Market) returns (known: bool)
      modifies store, `journal
      ensures (known <==> id in old(store.rows)) && Mem() == old(Mem())
      ensures !known ==> store.rows == old(store.rows) && journal == old(journal)
      ensures known ==>
                && Durables() == ApplyAll(old(Durables()), [Saved(id, state)], market)
                && journal == old(journal) + [Saved(id, state)]
    {
      OneEffect(Durables(), Saved(id, state), market);
      known := store.UpdateState(id, state);
      if known {
        journal := journal + [Saved(id, state)];
      }
    }

    /** Moves the local order and mirrors the move into the table. */
    method MoveOrder(id: string, state: OrderState, market: Market) returns (result: Result)
      requires Tracking()
      modifies machine, store, `journal
      ensures Tracking() && broker.State() == old(broker.State())
      ensures Did(MoveAndSave(old(Mem()), old(store.rows), id, state), market)
      ensures result == MoveAndSave(old(Mem()), old(store.rows), id, state).result
    {
      var legal, here := machine.Advance(id, state);
      if !legal {
        return Raised(if here then IllegalTransition else UnknownOrder);
      }
      var known := SaveState(id, state, market);
      result := if known then Returned(state) else Raised(UnknownOrder);
    }

    // ----- one order -----

    method PollOrder(id: string, market: Market) returns (result: Result)
      requires Tracking()
      modifies machine, store, `journal
      ensures Tracking() && broker.State() == old(broker.State())
      ensures Did(Poll(old(Mem()), old(Durables()), id, market), market)
      ensures result == Poll(old(Mem()), old(Durables()), id, market).result
    {
      var status := broker.GetOrderStatus(id, market);
      if status.StatusDisconnected? {
        return Raised(BrokerGone);
      }
      if status.StatusUnknownOrder? || id !in machine.orders {
        return Raised(UnknownOrder);
      }
      var current := machine.orders[id].state;
      if status.state != current && TakenOver(status.state) {
        result := MoveOrder(id, status.state, market);
      } else {
        result := Returned(current);
      }
    }

    method ResolveUnknownOrder(id: string, market: Market) returns (result: Result)
      requires Tracking()
      modifies machine, store, `journal
      ensures Tracking() && broker.State() == old(broker.State())
      ensures Did(ResolveUnknown(old(Mem()), old(Durables()), id, market), market)
      ensures result == ResolveUnknown(old(Mem()), old(Durables()), id, market).result
    {
      var status := broker.GetOrderStatus(id, market);
      if status.StatusDisconnected? || status.StatusUnknownOrder? {
        return Returned(UNKNOWN);
      }
      if id !in machine.orders {
        return Raised(UnknownOrder);
      }
      if machine.orders[id].state == UNKNOWN {
        result := MoveOrder(id, status.state, market);
      } else {
        result := Returned(machine.orders[id].state);
      }
    }

    // ----- submitting -----

    /** Creates the order locally and takes it to SUBMITTED. */
    method Prepare(id: string) returns (ok: bool)
      requires Tracking()
      modifies machine
      ensures Tracking() && (ok <==> Prepared(old(machine.State()), id).Moved?)
      ensures ok ==> machine.State() == Prepared(old(machine.State()), id).machine
      ensures !ok ==> machine.State() == old(machine.State())
    {
      ok := machine.Create(id);
      if ok {
        var here;
        ok, here := machine.Advance(id, RISK_APPROVED);
        ok, here := machine.Advance(id, SUBMITTED);
      }
    }

    /** The order was accepted: acknowledge it and ask how far it has got. */
    method Acknowledge(id: string, market: Market) returns (result: Result)
      requires Tracking()
      modifies machine, store, `journal
      ensures Tracking() && broker.State() == old(broker.State())
      ensures Did(AfterReply(old(Mem()), old(Durables()), id, Accepted, market), market)
      ensures result == AfterReply(old(Mem()), old(Durables()), id, Accepted, market).result
    {
      ghost var m, w, log := Mem(), Durables(), journal;
      ghost var acked := MoveAndSave(m, w.rows, id, ACKNOWLEDGED);
      result := MoveOrder(id, ACKNOWLEDGED, market);
      if result.Raised? {
        return;
      }
      ghost var now, middle := Durables(), journal;
      ghost var p := Poll(acked.memory, now, id, market);
      AcceptedThenPolled(m, w, id, acked, now, p, market);
      result := PollOrder(id, market);
      Sequence(Stepper(market), w, log, acked.trace, now, middle, p.trace, Durables(), journal);
    }

    /** Acts on the broker's answer. */
    method ActOnReply(id: string, reply: Reply, market: Market) returns (result: Result)
      requires Tracking()
      modifies this, machine, store
      ensures Tracking()
      ensures Did(AfterReply(old(Mem()), old(Durables()), id, reply, market), market)
      ensures result == AfterReply(old(Mem()), old(Durables()), id, reply, market).result
    {
      match reply
      case TimedOut =>
        result := MoveOrder(id, UNKNOWN, market);
        if !result.Raised? {
          risk := HALT_NEW_ENTRIES;
        }
      case Disconnected =>
        result := MoveOrder(id, UNKNOWN, market);
        if !result.Raised? {
          risk := FULL_BROKER_DISCONNECT;
        }
      case Duplicate =>
        result := Raised(DuplicateOrder);
      case NotAccepted =>
        result := MoveOrder(id, REJECTED, market);
      case Accepted =>
        result := Acknowledge(id, market);
    }

    /** The checks before anything is touched. */
    method Check(order: ApprovedOrder, snapshot: Option<Snapshot>) returns (refusal: Option<Error>)
      ensures refusal == Refusal(Mem(), store.rows, key, environment, order, snapshot)
    {
      var id := order.intent.id;
      if !Verifies(key, order.approval) || order.intent.environment != environment {
        return Some(Unauthorized);
      }
      if id in submitted || store.IsKnown(id) {
        return Some(DuplicateOrder);
      }
      if snapshot.None? || snapshot.value.approvalId != order.approval.approvalId || !snapshot.value.Matches(order.intent) {
        return Some(Tampered);
      }
      refusal := None;
    }

    /** The row is written before the broker is called. */
    method SubmitApproved(order: ApprovedOrder, snapshot: Option<Snapshot>, market: Market) returns (result: Result)
      requires Valid() && market.Legal() && (snapshot.Some? ==> snapshot.value.qty > 0.0)
      modifies this, machine, store, broker
      ensures Valid()
      ensures Did(SubmitOrder(old(Mem()), old(Durables()), key, environment, order, snapshot, market), market)
      ensures result == SubmitOrder(old(Mem()), old(Durables()), key, environment, order, snapshot, market).result
    {
      hide Orderly, Dispatched, ApplyAll, Verifies;
      NoEffect(Durables(), market);
      var refusal := Check(order, snapshot);
      if refusal.Some? {
        return Raised(refusal.value);
      }
      var id, frozen := order.intent.id, snapshot.value;
      snapshots := snapshots[id := frozen];
      var ok := Prepare(id);
      if !ok {
        return Raised(IllegalTransition);
      }
      submitted := submitted[id := order];
      result := Dispatch(id, frozen, market);
    }

    method Dispatch(id: string, snapshot: Snapshot, market: Market) returns (result: Result)
      requires Valid() && market.Legal() && snapshot.qty > 0.0 && id !in store.rows
      modifies this, machine, store, broker
      ensures Valid()
      ensures Did(Dispatched(old(Mem()), old(Durables()), id, snapshot, market), market)
      ensures result == Dispatched(old(Mem()), old(Durables()), id, snapshot, market).result
    {
      hide SubmitAsCoded, Orderly;
      ghost var start, log := Durables(), journal;
      var req := snapshot.RequestOf();
      ghost var insert, send := Inserted(id, snapshot), Sent(req);
      TwoEffects(start, log, insert, send, market);
      var inserted := Insert(id, snapshot, market);
      var reply, raised := Send(req, market);
      if raised {
        return Raised(BrokerFault);
      }
      ghost var sent, middle := Durables(), journal;
      ghost var o := AfterReply(Mem(), sent, id, reply, market);
      result := ActOnReply(id, reply, market);
      Sequence(Stepper(market), start, log, [insert, send], sent, middle, o.trace, Durables(), journal);
    }

    // ----- many orders -----

    /** Cancels one order, if it is a stale entry, or polls one, if it is working. */
    method VisitOrder(chore: Chore, id: string, market: Market) returns (result: Result, cancelled: bool)
      requires Valid()
      modifies this, machine, store, broker
      ensures Valid()
      ensures Did(Visit(chore, old(Mem()), old(Durables()), id, market), market)
      ensures result == Visit(chore, old(Mem()), old(Durables()), id, market).result
      ensures cancelled <==> !result.Raised? && Cancels(chore, old(Mem()), id)
    {
      cancelled := false;
      if id !in machine.orders {
        return Raised(UnknownOrder), false;
      }
      var state := machine.orders[id].state;
      match chore
      case PollIfWorking =>
        if Working(state) {
          result := PollOrder(id, market);
        } else {
          result := Finished;
        }
      case CancelIfStale(now, limit) =>
        if state == ACKNOWLEDGED && id in submitted && !submitted[id].intent.protective
           && now - submitted[id].intent.createdAt > limit {
          result := CancelStale(id, market);
          cancelled := !result.Raised?;
        } else {
          result := Finished;
        }
    }

    /** The broker is told first, then the local order moves, then the outcome is polled. */
    method CancelStale(id: string, market: Market) returns (result: Result)
      requires Valid() && id in machine.orders && machine.orders[id].state == ACKNOWLEDGED
      modifies this, machine, store, broker
      ensures Valid()
      ensures Did(CancelOne(old(Mem()), old(Durables()), id, market), market)
      ensures result == CancelOne(old(Mem()), old(Durables()), id, market).result
    {
      if market.fault == DISCONNECT {
        return Raised(BrokerGone);
      }
      ghost var m, start, log := Mem(), Durables(), journal;
      OneEffect(start, CancelSent(id), market);
      var reply := TellCancel(id, market);
      var legal, here := machine.Advance(id, CANCEL_REQUESTED);
      ghost var now, middle := Durables(), journal;
      ghost var p := Poll(Mem(), now, id, market);
      CancelThenPoll(m, start, id, Mem(), now, p, market);
      result := PollOrder(id, market);
      Sequence(Stepper(market), start, log, [CancelSent(id)], now, middle, p.trace, Durables(), journal);
    }

    /** Visits the orders in turn, stops at the first error, and says which it cancelled. */
    method VisitAll(chore: Chore, ids: seq<string>, market: Market) returns (result: Result, cancelled: seq<string>)
      requires Valid() && NoRepeats(ids)
      modifies this, machine, store, broker
      ensures Valid()
      ensures Did(VisitFirst(chore, old(Mem()), old(Durables()), ids, |ids|, market), market)
      ensures result == VisitFirst(chore, old(Mem()), old(Durables()), ids, |ids|, market).result
      ensures !result.Raised? ==> cancelled == CancelledIds(chore, old(Mem()), ids)
    {
      hide Elsewhere, Visit, Cancels;
      ghost var m, start, log := Mem(), Durables(), journal;
      ghost var o := Outcome(m, [], Finished);
      result, cancelled := Finished, [];
      for j := 0 to |ids|
        invariant Valid() && o == VisitFirst(chore, m, start, ids, j, market)
        invariant Mem() == o.memory && Durables() == ApplyAll(start, o.trace, market) && journal == log + o.trace
        invariant result == o.result && !result.Raised? && cancelled == CancelledIds(chore, m, ids[..j])
      {
        ghost var now, middle := Durables(), journal;
        ghost var v := Visit(chore, o.memory, now, ids[j], market);
        VisitOneMore(chore, m, start, ids, j, market, o, now, v);
        CancelsAsBefore(chore, m, start, ids, j, market, o);
        var cancels;
        result, cancels := VisitOrder(chore, ids[j], market);
        Sequence(Stepper(market), start, log, o.trace, now, middle, v.trace, Durables(), journal);
        o := Extended(o, v);
        if result.Raised? {
          VisitsEnd(chore, m, start, ids, j + 1, |ids|, market);
          return;
        }
        result := Finished;
        if cancels {
          cancelled := cancelled + [ids[j]];
        }
      }
      assert ids[..|ids|] == ids;
    }

    /** Lets resting orders trigger, takes over what happened to them, and reports the new fills. */
    method SyncOpenOrders(market: Market) returns (result: Result, newFills: seq<Fill>, ghost ids: seq<string>)
      requires Valid() && market.Legal()
      modifies this, machine, store, broker
      ensures Valid() && Lists(ids, old(machine.orders).Keys)
      ensures Did(SyncOpen(old(Mem()), old(Durables()), ids, market), market)
      ensures result == SyncOpen(old(Mem()), old(Durables()), ids, market).result
      ensures !result.Raised? ==> broker.fills == old(broker.fills) + newFills
    {
      hide HandleAsCoded, Orderly;
      ghost var start, log := Durables(), journal;
      var order := KeysInOrder(machine.orders.Keys);
      ids := order;
      if market.fault == DISCONNECT {
        risk := FULL_BROKER_DISCONNECT;
        return Finished, [], ids;
      }
      OneEffect(start, RestingPolled, market);
      var raised;
      newFills, raised := TellPoll(market);
      if raised {
        return Raised(BrokerFault), [], ids;
      }
      ghost var polled, middle := Durables(), journal;
      ghost var o := VisitFirst(PollIfWorking, Mem(), polled, ids, |ids|, market);
      PollingKeepsTheBroker(Mem(), polled, ids, |ids|, market);
      var cancelled;
      result, cancelled := VisitAll(PollIfWorking, order, market);
      Sequence(Stepper(market), start, log, [RestingPolled], polled, middle, o.trace, Durables(), journal);
    }

    /** Cancels the stale entries and reports which they were. */
    method CheckStaleOrders(now: real, limit: real, market: Market)
      returns (result: Result, stale: seq<string>, ghost ids: seq<string>)
      requires Valid()
      modifies this, machine, store, broker
      ensures Valid() && Lists(ids, old(submitted).Keys)
      ensures Did(CheckStale(old(Mem()), old(Durables()), ids, now, limit, market), market)
      ensures result == CheckStale(old(Mem()), old(Durables()), ids, now, limit, market).result
      ensures !result.Raised? ==> stale == StaleIds(old(Mem()), ids, now, limit)
    {
      var order := KeysInOrder(submitted.Keys);
      ids := order;
      CancelledAreStale(Mem(), ids, now, limit);
      result, stale := VisitAll(CancelIfStale(now, limit), order, market);
    }

    /** Some order of a set of keys. */
    static method KeysInOrder(keys: set<string>) returns (ids: seq<string>)
      ensures Lists(ids, keys)
    {
      ids := [];
      var rest := keys;
      while rest != {}
        invariant rest <= keys && NoRepeats(ids)
        invariant forall id :: id in ids <==> id in keys && id !in rest
      {
        var id :| id in rest;
        ids := ids + [id];
        rest := rest - {id};
      }
    }

    /** Restores one more order from its row. */
    method RestoreOrder(id: string, ghost before: Memory, ghost done: set<string>)
      requires Tracking() && id in store.rows && id !in before.machine.orders && id !in done
      requires RestoredUpTo(before.machine.orders, machine.orders, done, store.rows)
      requires FrozenUpTo(before.snapshots, snapshots, done, store.rows)
      modifies machine, `snapshots
      ensures Tracking() && machine.eventLog == old(machine.eventLog)
      ensures RestoredUpTo(before.machine.orders, machine.orders, done + {id}, store.rows)
      ensures FrozenUpTo(before.snapshots, snapshots, done + {id}, store.rows)
    {
      RestoreOneMore(before.machine.orders, machine.orders, done, store.rows, id);
      FreezeOneMore(before.snapshots, snapshots, done, store.rows, id);
      var isNew := machine.Restore(id, store.rows[id].state);
      snapshots := snapshots[id := store.rows[id].snapshot];
    }

    /** Restores the durable orders this process does not know, and says how many. */
    method RecoverFromStore() returns (recovered: nat)
      requires Tracking()
      modifies machine, `snapshots
      ensures Tracking() && machine.eventLog == old(machine.eventLog)
      ensures machine.orders == Recover(old(Mem()), store.rows).machine.orders
      ensures snapshots == Recover(old(Mem()), store.rows).snapshots
      ensures recovered == |store.rows.Keys - old(machine.orders).Keys|
    {
      ghost var before := Mem();
      var rest := store.rows.Keys - machine.orders.Keys;
      ghost var missing, done: set<string> := rest, {};
      recovered := 0;
      while rest != {}
        invariant Tracking() && machine.eventLog == before.machine.log
        invariant done + rest == missing && done !! rest && recovered == |done|
        invariant RestoredUpTo(before.machine.orders, machine.orders, done, store.rows)
        invariant FrozenUpTo(before.snapshots, snapshots, done, store.rows)
      {
        var id :| id in rest;
        OneFewer(missing, done, rest, id);
        RestoreOrder(id, before, done);
        rest, done := rest - {id}, done + {id};
        recovered := recovered + 1;
      }
      RestoredOrders(before, store.rows, machine.orders);
      RestoredSnapshots(before, store.rows, snapshots);
    }
  }
}
