/**
 The execution engine's calls (services/execution/engine.py), each described by what it
 does to its own memory, by the durable steps it takes in order (writes to the order table
 and calls to the broker), and by its result. A crash keeps a prefix of the durable steps
 and loses the memory.
 */
module Execution {
  import opened OrderStates
  import opened DurableStore
  import opened Intents
  import opened PaperBrokers
  import opened FillSchema
  import opened BrokerOrders
  import opened RiskStates
  import opened Wrappers

  // ----- orders, approvals, snapshots -----

  /** Everything that determines what the broker does; stands for its hash. */
  datatype Payload = Payload(
    symbol: string, side: Side, qty: real, kind: OrderKind, takeProfit: Option<real>, timeInForce: string, id: string)

  datatype OrderIntent = OrderIntent(
    id: string, symbol: string, side: Side, qty: real, kind: OrderKind, environment: string, protective: bool, createdAt: real)

  /** The signature is an injective function of the signing key and of what is signed. */
  datatype Signature = Signature(key: string, approvalId: string, id: string, symbol: string, side: Side, qty: real, hash: Payload)

  datatype Approval = Approval(
    approvalId: string, id: string, symbol: string, side: Side, qty: real, hash: Payload, signature: Signature)

  datatype ApprovedOrder = ApprovedOrder(intent: OrderIntent, approval: Approval)

  datatype Snapshot = Snapshot(
    id: string, symbol: string, side: Side, qty: real, kind: OrderKind, takeProfit: Option<real>, timeInForce: string,
    approvalId: string, hash: Payload)
  {
    function OwnPayload(): Payload {
      Payload(symbol, side, qty, kind, takeProfit, timeInForce, id)
    }

    /** Its hash is that of its own fields, as every frozen snapshot's is. */
    predicate Frozen() {
      hash == OwnPayload() && qty > 0.0
    }

    function RequestOf(): Request {
      Request(id, symbol, side, qty, kind)
    }

    predicate Matches(i: OrderIntent) {
      Payload(i.symbol, i.side, i.qty, i.kind, takeProfit, timeInForce, i.id) == hash
    }
  }

  predicate Verifies(key: string, a: Approval) {
    a.signature == Signature(key, a.approvalId, a.id, a.symbol, a.side, a.qty, a.hash)
  }

  // ----- state -----

  /** What a process loses when it dies. */
  datatype Memory = Memory(
    machine: Machine, submitted: map<string, ApprovedOrder>, snapshots: map<string, Snapshot>, risk: RiskState)

  const FRESH := Memory(Machine(map[], []), map[], map[], NORMAL)

  type Rows = map<string, Row<Snapshot>>

  /** What outlives it: the order table and the broker. */
  datatype World = World(rows: Rows, broker: Broker)

  /** A running process together with it. */
  datatype Sys = Sys(memory: Memory, world: World)

  ghost predicate Healthy(w: World) {
    Orderly(w.broker)
  }

  /** One durable step. */
  datatype Effect =
    | Inserted(id: string, snapshot: Snapshot)
    | Sent(req: Request)
    | Saved(id: string, state: OrderState)
    | CancelSent(id: string)
    | RestingPolled

  ghost predicate Usable(b: Broker) {
    Wired(b.ids, b.orders) && LongOnly(b.positions)
  }

  /** A broker call that raises has done what it had done by then. Every broker ever reached is usable. */
  ghost function Apply(w: World, e: Effect, m: Market): World {
    match e
    case Inserted(id, snapshot) => if id in w.rows then w else w.(rows := w.rows[id := Row(snapshot, SUBMITTED)])
    case Saved(id, state) => if id in w.rows then w.(rows := w.rows[id := w.rows[id].(state := state)]) else w
    case Sent(req) => if Usable(w.broker) then w.(broker := SubmitAsCoded(w.broker, req, m).b) else w
    case CancelSent(id) => w.(broker := Cancel(w.broker, id, m))
    case RestingPolled => if Usable(w.broker) then w.(broker := HandleAsCoded(w.broker, PollOp(m)).b) else w
  }

  /** Steps applied one after another. */
  ghost function Fold<S, E>(step: (S, E) -> S, s: S, es: seq<E>): S {
    if es == [] then s else step(Fold(step, s, es[..|es| - 1]), es[|es| - 1])
  }

  lemma {:induction false} FoldAppend<S, E>(step: (S, E) -> S, s: S, a: seq<E>, b: seq<E>)
    ensures Fold(step, s, a + b) == Fold(step, Fold(step, s, a), b)
    decreases |b|
  {
    if b == [] {
      assert a + b == a;
    } else {
      var n := |b| - 1;
      assert (a + b)[..|a| + n] == a + b[..n];
      FoldAppend(step, s, a, b[..n]);
    }
  }

  lemma FoldOne<S, E>(step: (S, E) -> S, s: S, e: E)
    ensures Fold(step, s, [e]) == step(s, e)
  {
    assert [e][..0] == [];
  }

  lemma OneEffect(w: World, e: Effect, market: Market)
    ensures ApplyAll(w, [e], market) == Apply(w, e, market)
  {
    FoldOne(Stepper(market), w, e);
  }

  ghost function Stepper(m: Market): (World, Effect) -> World {
    (w: World, e: Effect) => Apply(w, e, m)
  }

  ghost function ApplyAll(w: World, trace: seq<Effect>, m: Market): World {
    Fold(Stepper(m), w, trace)
  }

  lemma NoEffect(w: World, market: Market)
    ensures ApplyAll(w, [], market) == w
  {
  }

  // ----- results -----

  /** BrokerFault is the broker's own error, when it cannot build a fill it has carried out. */
  datatype Error = Unauthorized | DuplicateOrder | Tampered | IllegalTransition | UnknownOrder | BrokerGone | BrokerFault

  datatype Result = Returned(state: OrderState) | Finished | Raised(error: Error)

  datatype Outcome = Outcome(memory: Memory, trace: seq<Effect>, result: Result)

  // ----- polling one order -----

  /** The broker states a poll takes over. */
  predicate TakenOver(s: OrderState) {
    s in {PARTIALLY_FILLED, FILLED, CANCELLED, REJECTED, EXPIRED}
  }

  /** Moves the local order to `state` and saves it; the save fails when there is no row. */
  function MoveAndSave(m: Memory, rows: Rows, id: string, state: OrderState): Outcome {
    match Transition(m.machine, id, state)
    case NoSuchOrder => Outcome(m, [], Raised(UnknownOrder))
    case Illegal => Outcome(m, [], Raised(IllegalTransition))
    case Moved(machine) =>
      if id in rows then Outcome(m.(machine := machine), [Saved(id, state)], Returned(state))
      else Outcome(m.(machine := machine), [], Raised(UnknownOrder))
  }

  function Poll(m: Memory, w: World, id: string, market: Market): Outcome {
    match StatusOf(w.broker, id, market)
    case StatusDisconnected => Outcome(m, [], Raised(BrokerGone))
    case StatusUnknownOrder => Outcome(m, [], Raised(UnknownOrder))
    case Known(state) =>
      if id !in m.machine.orders then Outcome(m, [], Raised(UnknownOrder))
      else if state != m.machine.orders[id].state && TakenOver(state) then MoveAndSave(m, w.rows, id, state)
      else Outcome(m, [], Returned(m.machine.orders[id].state))
  }

  /** Asks the broker about an order in UNKNOWN and settles on its answer. */
  function ResolveUnknown(m: Memory, w: World, id: string, market: Market): Outcome {
    match StatusOf(w.broker, id, market)
    case StatusDisconnected => Outcome(m, [], Returned(UNKNOWN))
    case StatusUnknownOrder => Outcome(m, [], Returned(UNKNOWN))
    case Known(state) =>
      if id !in m.machine.orders then Outcome(m, [], Raised(UnknownOrder))
      else if m.machine.orders[id].state == UNKNOWN then MoveAndSave(m, w.rows, id, state)
      else Outcome(m, [], Returned(m.machine.orders[id].state))
  }

  // ----- submitting -----

  /** The checks made before anything is touched, in order. */
  function Refusal(
    m: Memory, rows: Rows, key: string, environment: string, order: ApprovedOrder,
    snapshot: Option<Snapshot>): Option<Error> {
    var id := order.intent.id;
    if !Verifies(key, order.approval) then Some(Unauthorized)
    else if order.intent.environment != environment then Some(Unauthorized)
    else if id in m.submitted || id in rows then Some(DuplicateOrder)
    else if snapshot.None? then Some(Tampered)
    else if snapshot.value.approvalId != order.approval.approvalId then Some(Tampered)
    else if !snapshot.value.Matches(order.intent) then Some(Tampered)
    else None
  }

  /** Create, approve, submit: the local machine before the row is written. */
  function Prepared(machine: Machine, id: string): MachineResult {
    match Open(machine, id, CREATED)
    case Moved(created) =>
      (match Transition(created, id, RISK_APPROVED)
       case Moved(approved) => Transition(approved, id, SUBMITTED)
       case other => other)
    case other => other
  }

  /** What the engine makes of the broker's answer. */
  function AfterReply(m: Memory, w: World, id: string, reply: Reply, market: Market): Outcome {
    match reply
    case TimedOut =>
      var o := MoveAndSave(m, w.rows, id, UNKNOWN);
      if o.result.Raised? then o else o.(memory := o.memory.(risk := HALT_NEW_ENTRIES))
    case Disconnected =>
      var o := MoveAndSave(m, w.rows, id, UNKNOWN);
      if o.result.Raised? then o else o.(memory := o.memory.(risk := FULL_BROKER_DISCONNECT))
    case Duplicate => Outcome(m, [], Raised(DuplicateOrder))
    case NotAccepted => MoveAndSave(m, w.rows, id, REJECTED)
    case Accepted =>
      var o := MoveAndSave(m, w.rows, id, ACKNOWLEDGED);
      if o.result.Raised? then o
      else
        var p := Poll(o.memory, w, id, market);
        p.(trace := o.trace + p.trace)
  }

  ghost predicate SendRaises(b: Broker, req: Request, m: Market) {
    Usable(b) && SubmitAsCoded(b, req, m).Failed?
  }

  ghost predicate RestingPollRaises(b: Broker, m: Market) {
    Usable(b) && HandleAsCoded(b, PollOp(m)).Failed?
  }

  /** Writes the row, calls the broker and acts on its answer. */
  ghost function Dispatched(m: Memory, w: World, id: string, snapshot: Snapshot, market: Market): Outcome {
    var req := snapshot.RequestOf();
    var first := [Inserted(id, snapshot), Sent(req)];
    if SendRaises(w.broker, req, market) then Outcome(m, first, Raised(BrokerFault))
    else
      var o := AfterReply(m, ApplyAll(w, first, market), id, ReplyOf(w.broker, req.id, market), market);
      o.(trace := first + o.trace)
  }

  ghost function SubmitOrder(
    m: Memory, w: World, key: string, environment: string, order: ApprovedOrder, snapshot: Option<Snapshot>, market: Market): Outcome {
    var id := order.intent.id;
    match Refusal(m, w.rows, key, environment, order, snapshot)
    case Some(error) => Outcome(m, [], Raised(error))
    case None =>
      var kept := m.(snapshots := m.snapshots[id := snapshot.value]);
      (match Prepared(m.machine, id)
       case Moved(machine) =>
         Dispatched(kept.(machine := machine, submitted := m.submitted[id := order]), w, id, snapshot.value, market)
       case _ => Outcome(kept, [], Raised(IllegalTransition)))
  }

  // ----- the loops over many orders -----

  datatype Chore = PollIfWorking | CancelIfStale(now: real, limit: real)

  /** Tells the broker to cancel, then moves the local order, then polls it. */
  function CancelOne(m: Memory, w: World, id: string, market: Market): Outcome {
    if market.fault == DISCONNECT then Outcome(m, [], Raised(BrokerGone))
    else
      match Transition(m.machine, id, CANCEL_REQUESTED)
      case Moved(machine) =>
        var o := Poll(m.(machine := machine), w.(broker := Cancel(w.broker, id, market)), id, market);
        o.(trace := [CancelSent(id)] + o.trace)
      case _ => Outcome(m, [CancelSent(id)], Raised(IllegalTransition))
  }

  lemma CancelThenPoll(m: Memory, w: World, id: string, requested: Memory, now: World, p: Outcome, market: Market)
    requires market.fault != DISCONNECT && Transition(m.machine, id, CANCEL_REQUESTED).Moved?
    requires requested == m.(machine := Transition(m.machine, id, CANCEL_REQUESTED).machine)
    requires now == Apply(w, CancelSent(id), market) && p == Poll(requested, now, id, market)
    ensures CancelOne(m, w, id, market) == p.(trace := [CancelSent(id)] + p.trace)
  {
  }

  /** An entry that has rested for too long; protective orders are never stale. */
  predicate Stale(m: Memory, id: string, now: real, limit: real) {
    && id in m.machine.orders && m.machine.orders[id].state == ACKNOWLEDGED
    && id in m.submitted && !m.submitted[id].intent.protective
    && now - m.submitted[id].intent.createdAt > limit
  }

  /** The stale ones among `ids`, in their order. */
  function StaleIds(m: Memory, ids: seq<string>, now: real, limit: real): (stale: seq<string>)
    ensures forall id :: id in stale <==> id in ids && Stale(m, id, now, limit)
  {
    if ids == [] then []
    else
      var n := |ids| - 1;
      assert ids == ids[..n] + [ids[n]];
      StaleIds(m, ids[..n], now, limit) + if Stale(m, ids[n], now, limit) then [ids[n]] else []
  }

  /** What a loop does for one order. */
  function Visit(chore: Chore, m: Memory, w: World, id: string, market: Market): Outcome {
    if id !in m.machine.orders then Outcome(m, [], Raised(UnknownOrder))
    else
      var state := m.machine.orders[id].state;
      match chore
      case PollIfWorking =>
        if Working(state) then Poll(m, w, id, market) else Outcome(m, [], Finished)
      case CancelIfStale(now, limit) =>
        if Stale(m, id, now, limit) then CancelOne(m, w, id, market) else Outcome(m, [], Finished)
  }

  /** Visits the first `k` of the orders in turn; the first error ends the loop. */
  ghost function VisitFirst(chore: Chore, m: Memory, w: World, ids: seq<string>, k: nat, market: Market): Outcome
    requires k <= |ids|
  {
    if k == 0 then Outcome(m, [], Finished)
    else
      var before := VisitFirst(chore, m, w, ids, k - 1, market);
      if before.result.Raised? then before
      else
        var o := Visit(chore, before.memory, ApplyAll(w, before.trace, market), ids[k - 1], market);
        Outcome(o.memory, before.trace + o.trace, if o.result.Raised? then o.result else Finished)
  }

  /** What a loop has done after one more order. */
  function Extended(before: Outcome, o: Outcome): Outcome {
    Outcome(o.memory, before.trace + o.trace, if o.result.Raised? then o.result else Finished)
  }

  lemma VisitOneMore(
    chore: Chore, m: Memory, w: World, ids: seq<string>, k: nat, market: Market, before: Outcome, now: World,
    o: Outcome)
    requires k < |ids| && before == VisitFirst(chore, m, w, ids, k, market) && !before.result.Raised?
    requires now == ApplyAll(w, before.trace, market) && o == Visit(chore, before.memory, now, ids[k], market)
    ensures VisitFirst(chore, m, w, ids, k + 1, market) == Extended(before, o)
    ensures ApplyAll(w, Extended(before, o).trace, market) == ApplyAll(now, o.trace, market)
  {
    FoldAppend(Stepper(market), w, before.trace, o.trace);
  }

  /** What a step of a loop leaves alone: every other order, here and at the broker. */
  ghost predicate Elsewhere(m: Memory, w: World, o: Memory, after: World, ids: seq<string>) {
    && o.submitted == m.submitted
    && o.machine.orders.Keys == m.machine.orders.Keys && after.broker.orders.Keys == w.broker.orders.Keys
    && (forall id :: id in m.machine.orders && id !in ids ==> o.machine.orders[id] == m.machine.orders[id])
    && (forall id :: id in w.broker.orders && id !in ids ==> after.broker.orders[id] == w.broker.orders[id])
  }

  lemma PollTouchesOne(m: Memory, w: World, id: string, market: Market)
    ensures var o := Poll(m, w, id, market); Elsewhere(m, w, o.memory, ApplyAll(w, o.trace, market), [id])
  {
    hide Fold;
    var trace := Poll(m, w, id, market).trace;
    NoEffect(w, market);
    if trace != [] {
      assert trace == [trace[0]];
      OneEffect(w, trace[0], market);
    }
  }

  lemma ElsewhereTwice(m: Memory, w: World, m1: Memory, w1: World, m2: Memory, w2: World, ids: seq<string>)
    requires Elsewhere(m, w, m1, w1, ids) && Elsewhere(m1, w1, m2, w2, ids)
    ensures Elsewhere(m, w, m2, w2, ids)
  {
  }

  lemma RequestTouchesOne(m: Memory, w: World, id: string, market: Market)
    requires Transition(m.machine, id, CANCEL_REQUESTED).Moved?
    ensures Elsewhere(m, w, m.(machine := Transition(m.machine, id, CANCEL_REQUESTED).machine), Apply(w, CancelSent(id), market), [id])
  {
  }

  lemma CancelTouchesOne(m: Memory, w: World, id: string, market: Market)
    requires id in m.machine.orders && m.machine.orders[id].state == ACKNOWLEDGED
    ensures var o := CancelOne(m, w, id, market); Elsewhere(m, w, o.memory, ApplyAll(w, o.trace, market), [id])
  {
    hide Fold, Apply, Elsewhere, Poll, CancelOne;
    if market.fault == DISCONNECT {
      GoneTouchesNothing(m, w, id, market);
    } else {
      var requested := m.(machine := Transition(m.machine, id, CANCEL_REQUESTED).machine);
      var now := Apply(w, CancelSent(id), market);
      var p := Poll(requested, now, id, market);
      CancelThenPoll(m, w, id, requested, now, p, market);
      RequestTouchesOne(m, w, id, market);
      PollTouchesOne(requested, now, id, market);
      FoldAppend(Stepper(market), w, [CancelSent(id)], p.trace);
      OneEffect(w, CancelSent(id), market);
      ElsewhereTwice(m, w, requested, now, p.memory, ApplyAll(now, p.trace, market), [id]);
    }
  }

  lemma GoneTouchesNothing(m: Memory, w: World, id: string, market: Market)
    requires market.fault == DISCONNECT
    ensures var o := CancelOne(m, w, id, market); Elsewhere(m, w, o.memory, ApplyAll(w, o.trace, market), [id])
  {
  }

  lemma NothingTouched(m: Memory, w: World, market: Market, ids: seq<string>)
    ensures Elsewhere(m, w, m, ApplyAll(w, [], market), ids)
  {
  }

  lemma VisitTouchesOne(chore: Chore, m: Memory, w: World, id: string, market: Market)
    ensures var o := Visit(chore, m, w, id, market); Elsewhere(m, w, o.memory, ApplyAll(w, o.trace, market), [id])
  {
    hide Fold, Apply, Elsewhere, Poll, CancelOne;
    NothingTouched(m, w, market, [id]);
    if id in m.machine.orders {
      match chore
      case PollIfWorking => PollTouchesOne(m, w, id, market);
      case CancelIfStale(now, limit) =>
        if Stale(m, id, now, limit) {
          CancelTouchesOne(m, w, id, market);
        }
    }
  }

  lemma ElsewhereAddsUp(
    m: Memory, w: World, before: Memory, now: World, o: Memory, after: World, ids: seq<string>, k: nat)
    requires k < |ids| && Elsewhere(m, w, before, now, ids[..k]) && Elsewhere(before, now, o, after, [ids[k]])
    ensures Elsewhere(m, w, o, after, ids[..k + 1])
  {
    assert ids[..k + 1] == ids[..k] + [ids[k]];
  }

  /** The orders a loop has not reached yet are as they were. */
  lemma {:induction false} VisitsTouchOnly(chore: Chore, m: Memory, w: World, ids: seq<string>, k: nat, market: Market)
    requires k <= |ids|
    ensures var o := VisitFirst(chore, m, w, ids, k, market); Elsewhere(m, w, o.memory, ApplyAll(w, o.trace, market), ids[..k])
  {
    hide Visit, Apply, Fold, Elsewhere;
    if k == 0 {
      NothingTouched(m, w, market, ids[..0]);
    } else {
      VisitsTouchOnly(chore, m, w, ids, k - 1, market);
      var before := VisitFirst(chore, m, w, ids, k - 1, market);
      var now := ApplyAll(w, before.trace, market);
      if before.result.Raised? {
        MoreElsewhere(m, w, before.memory, now, ids, k - 1);
      } else {
        var o := Visit(chore, before.memory, now, ids[k - 1], market);
        VisitTouchesOne(chore, before.memory, now, ids[k - 1], market);
        VisitOneMore(chore, m, w, ids, k - 1, market, before, now, o);
        ElsewhereAddsUp(m, w, before.memory, now, o.memory, ApplyAll(now, o.trace, market), ids, k - 1);
      }
    }
  }

  lemma MoreElsewhere(m: Memory, w: World, o: Memory, after: World, ids: seq<string>, k: nat)
    requires k < |ids| && Elsewhere(m, w, o, after, ids[..k])
    ensures Elsewhere(m, w, o, after, ids[..k + 1])
  {
    assert ids[..k + 1] == ids[..k] + [ids[k]];
  }

  /** Lets the broker re-evaluate resting orders, then polls every working one. */
  ghost function SyncOpen(m: Memory, w: World, ids: seq<string>, market: Market): Outcome {
    if market.fault == DISCONNECT then Outcome(m.(risk := FULL_BROKER_DISCONNECT), [], Finished)
    else if RestingPollRaises(w.broker, market) then Outcome(m, [RestingPolled], Raised(BrokerFault))
    else
      var o := VisitFirst(PollIfWorking, m, Apply(w, RestingPolled, market), ids, |ids|, market);
      o.(trace := [RestingPolled] + o.trace)
  }

  ghost function CheckStale(m: Memory, w: World, ids: seq<string>, now: real, limit: real, market: Market): Outcome {
    VisitFirst(CancelIfStale(now, limit), m, w, ids, |ids|, market)
  }

  /** Restores every durable order the memory does not know. */
  function Recover(m: Memory, rows: Rows): Memory {
    var missing := rows.Keys - m.machine.orders.Keys;
    m.(machine := m.machine.(orders := m.machine.orders + map id | id in missing :: OrderRecord(rows[id].state, 1, [])),
       snapshots := m.snapshots + map id | id in missing :: rows[id].snapshot)
  }

  // ----- calls -----

  /** `ids` is the order in which a loop happens to visit its orders. */
  datatype Call =
    | SubmitCall(order: ApprovedOrder, snapshot: Option<Snapshot>)
    | PollCall(id: string)
    | ResolveCall(id: string)
    | SyncCall(ids: seq<string>)
    | StaleCall(ids: seq<string>, now: real, limit: real)
    | RecoverCall

  ghost predicate Lists(ids: seq<string>, keys: set<string>) {
    NoRepeats(ids) && forall id :: id in ids <==> id in keys
  }

  /** Snapshots are frozen, and a loop visits exactly the orders there are. */
  ghost predicate ProperCall(m: Memory, c: Call) {
    match c
    case SubmitCall(_, snapshot) => snapshot.Some? ==> snapshot.value.Frozen()
    case SyncCall(ids) => Lists(ids, m.machine.orders.Keys)
    case StaleCall(ids, _, _) => Lists(ids, m.submitted.Keys)
    case _ => true
  }

  /** The engine's signing key and environment. */
  datatype Config = Config(key: string, environment: string)

  ghost function Run(m: Memory, w: World, cfg: Config, c: Call, market: Market): Outcome {
    match c
    case SubmitCall(order, snapshot) => SubmitOrder(m, w, cfg.key, cfg.environment, order, snapshot, market)
    case PollCall(id) => Poll(m, w, id, market)
    case ResolveCall(id) => ResolveUnknown(m, w, id, market)
    case SyncCall(ids) => SyncOpen(m, w, ids, market)
    case StaleCall(ids, now, limit) => CheckStale(m, w, ids, now, limit, market)
    case RecoverCall => Outcome(Recover(m, w.rows), [], Finished)
  }

  // ----- what reaches the broker is what was approved -----

  lemma ReplySendsNothing(m: Memory, w: World, id: string, reply: Reply, market: Market, e: Effect)
    requires e in AfterReply(m, w, id, reply, market).trace
    ensures !e.Sent? && !e.Inserted?
  {
  }

  /** The request sent for an accepted order is the approved intent, field by field. */
  lemma RequestIsTheApprovedOrder(
    m: Memory, w: World, key: string, environment: string, order: ApprovedOrder, snapshot: Option<Snapshot>, market: Market, e: Effect)
    requires snapshot.Some? ==> snapshot.value.Frozen()
    requires e in SubmitOrder(m, w, key, environment, order, snapshot, market).trace && e.Sent?
    ensures var i := order.intent; e.req == Request(i.id, i.symbol, i.side, i.qty, i.kind)
    ensures Verifies(key, order.approval) && order.intent.environment == environment
    ensures snapshot.Some? && snapshot.value.approvalId == order.approval.approvalId
    ensures order.intent.id !in m.submitted && order.intent.id !in w.rows
  {
    hide AfterReply, ApplyAll, ReplyOf, Prepared;
    var id, frozen := order.intent.id, snapshot.value;
    if e != Sent(frozen.RequestOf()) {
      var ready := m.(snapshots := m.snapshots[id := frozen], machine := Prepared(m.machine, id).machine,
                      submitted := m.submitted[id := order]);
      var sent := ApplyAll(w, [Inserted(id, frozen), Sent(frozen.RequestOf())], market);
      ReplySendsNothing(ready, sent, id, ReplyOf(w.broker, frozen.id, market), market, e);
    }
  }
}
