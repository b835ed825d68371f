/** The order state machine and its event log (services/execution/state_machine.py). */
module OrderStates {

  datatype OrderState =
    | CREATED | RISK_APPROVED | SUBMITTED | ACKNOWLEDGED | PARTIALLY_FILLED | FILLED
    | CANCEL_REQUESTED | CANCELLED | REJECTED | EXPIRED | UNKNOWN

  /** The whitelist. */
  function Allowed(s: OrderState): set<OrderState> {
    match s
    case CREATED => {RISK_APPROVED, REJECTED}
    case RISK_APPROVED => {SUBMITTED, EXPIRED, REJECTED}
    case SUBMITTED => {ACKNOWLEDGED, REJECTED, UNKNOWN}
    case ACKNOWLEDGED => {PARTIALLY_FILLED, FILLED, CANCEL_REQUESTED, EXPIRED, REJECTED, UNKNOWN}
    case PARTIALLY_FILLED => {FILLED, CANCEL_REQUESTED, UNKNOWN}
    case CANCEL_REQUESTED => {CANCELLED, FILLED, PARTIALLY_FILLED, UNKNOWN}
    case UNKNOWN => {ACKNOWLEDGED, PARTIALLY_FILLED, FILLED, CANCELLED, REJECTED, EXPIRED}
    case _ => {}
  }

  predicate Terminal(s: OrderState) {
    s in {FILLED, CANCELLED, REJECTED, EXPIRED}
  }

  datatype Move = Move(id: string, from: OrderState, to: OrderState)

  datatype OrderRecord = OrderRecord(state: OrderState, version: nat, moves: seq<Move>)

  type Orders = map<string, OrderRecord>

  datatype Machine = Machine(orders: Orders, log: seq<Move>)

  datatype MachineResult = Moved(machine: Machine) | Illegal | NoSuchOrder

  /** A new order at `state`: CREATED for a fresh one, the durable state for a restored one. */
  function Open(m: Machine, id: string, state: OrderState): MachineResult {
    if id in m.orders then Illegal
    else Moved(m.(orders := m.orders[id := OrderRecord(state, 1, [])]))
  }

  function Advanced(r: OrderRecord, id: string, to: OrderState): OrderRecord {
    OrderRecord(to, r.version + 1, r.moves + [Move(id, r.state, to)])
  }

  function Transition(m: Machine, id: string, to: OrderState): MachineResult {
    if id !in m.orders then NoSuchOrder
    else if to !in Allowed(m.orders[id].state) then Illegal
    else Moved(Machine(m.orders[id := Advanced(m.orders[id], id, to)], m.log + [Move(id, m.orders[id].state, to)]))
  }

  // ----- what every record's history looks like -----

  /** The moves are legal, each starts where the one before it ended, and the last one ends at `state`. */
  ghost predicate LegalWalk(r: OrderRecord, id: string) {
    && (forall i :: 0 <= i < |r.moves| ==> r.moves[i].id == id && r.moves[i].to in Allowed(r.moves[i].from))
    && (forall i :: 0 < i < |r.moves| ==> r.moves[i].from == r.moves[i - 1].to)
    && (r.moves != [] ==> r.state == r.moves[|r.moves| - 1].to)
    && r.version == |r.moves| + 1
  }

  function MovesOf(log: seq<Move>, id: string): seq<Move> {
    if log == [] then []
    else
      var n := |log| - 1;
      MovesOf(log[..n], id) + if log[n].id == id then [log[n]] else []
  }

  /** An order's record is a legal walk, and the event log, read for that order, is its history. */
  ghost predicate Recorded(m: Machine, id: string) {
    if id in m.orders then LegalWalk(m.orders[id], id) && MovesOf(m.log, id) == m.orders[id].moves
    else MovesOf(m.log, id) == []
  }

  ghost predicate Faithful(m: Machine) {
    forall id :: Recorded(m, id)
  }

  lemma MovesOfSnoc(log: seq<Move>, m: Move, id: string)
    ensures MovesOf(log + [m], id) == if m.id == id then MovesOf(log, id) + [m] else MovesOf(log, id)
  {
    assert (log + [m])[..|log|] == log;
  }

  lemma OpenKeepsFaithful(m: Machine, id: string, state: OrderState)
    requires Faithful(m)
    ensures Open(m, id, state).Moved? ==> Faithful(Open(m, id, state).machine)
  {
    if id !in m.orders {
      var after := Open(m, id, state).machine;
      forall other
        ensures Recorded(after, other)
      {
        assert Recorded(m, other);
      }
    }
  }

  lemma AdvancedWalksOn(r: OrderRecord, id: string, to: OrderState)
    requires LegalWalk(r, id) && to in Allowed(r.state)
    ensures LegalWalk(Advanced(r, id, to), id)
  {
  }

  lemma TransitionKeepsFaithful(m: Machine, id: string, to: OrderState)
    requires Faithful(m)
    ensures Transition(m, id, to).Moved? ==> Faithful(Transition(m, id, to).machine)
  {
    if id in m.orders && to in Allowed(m.orders[id].state) {
      assert Recorded(m, id);
      var move, record := Move(id, m.orders[id].state, to), Advanced(m.orders[id], id, to);
      AdvancedWalksOn(m.orders[id], id, to);
      MovesKeptFaithful(m, id, move, record);
    }
  }

  lemma MovesKeptFaithful(m: Machine, id: string, move: Move, record: OrderRecord)
    requires Faithful(m) && id in m.orders && move.id == id
    requires LegalWalk(record, id) && record.moves == m.orders[id].moves + [move]
    ensures Faithful(Machine(m.orders[id := record], m.log + [move]))
  {
    var after := Machine(m.orders[id := record], m.log + [move]);
    forall other
      ensures Recorded(after, other)
    {
      assert Recorded(m, other);
      MovesOfSnoc(m.log, move, other);
    }
  }

  // ----- runs -----

  datatype MachineOp = CreateOp(id: string) | RestoreOp(id: string, state: OrderState) | MoveOp(id: string, to: OrderState)

  function Attempt(m: Machine, op: MachineOp): MachineResult {
    match op
    case CreateOp(id) => Open(m, id, CREATED)
    case RestoreOp(id, state) => Open(m, id, state)
    case MoveOp(id, to) => Transition(m, id, to)
  }

  /** A call that raises changes nothing. */
  function Do(m: Machine, op: MachineOp): Machine {
    match Attempt(m, op)
    case Moved(next) => next
    case _ => m
  }

  ghost function AfterOps(m: Machine, ops: seq<MachineOp>): Machine {
    if ops == [] then m else Do(AfterOps(m, ops[..|ops| - 1]), ops[|ops| - 1])
  }

  lemma {:induction false} RunsStayFaithful(m: Machine, ops: seq<MachineOp>)
    requires Faithful(m)
    ensures Faithful(AfterOps(m, ops))
  {
    if ops != [] {
      var n := |ops| - 1;
      RunsStayFaithful(m, ops[..n]);
      var before := AfterOps(m, ops[..n]);
      match ops[n] {
        case CreateOp(id) => OpenKeepsFaithful(before, id, CREATED);
        case RestoreOp(id, state) => OpenKeepsFaithful(before, id, state);
        case MoveOp(id, to) => TransitionKeepsFaithful(before, id, to);
      }
    }
  }

  /** Once terminal, an order's record never changes again, whatever is attempted. */
  lemma {:induction false} TerminalIsFinal(m: Machine, ops: seq<MachineOp>, id: string)
    requires id in m.orders && Terminal(m.orders[id].state)
    ensures id in AfterOps(m, ops).orders && AfterOps(m, ops).orders[id] == m.orders[id]
  {
    if ops != [] {
      TerminalIsFinal(m, ops[..|ops| - 1], id);
    }
  }

  /** The states only an order that was handed to the broker can be in. */
  predicate BeyondSubmission(s: OrderState) {
    s in {ACKNOWLEDGED, PARTIALLY_FILLED, FILLED, CANCEL_REQUESTED, CANCELLED, UNKNOWN}
  }

  ghost predicate StartsApproved(r: OrderRecord, id: string) {
    && |r.moves| >= 2
    && r.moves[0] == Move(id, CREATED, RISK_APPROVED) && r.moves[1] == Move(id, RISK_APPROVED, SUBMITTED)
  }

  /** No order gets past submission without having been risk approved and then submitted. */
  lemma {:induction false} NothingSkipsApproval(r: OrderRecord, id: string)
    requires LegalWalk(r, id) && (r.moves == [] ==> r.state == CREATED) && (r.moves != [] ==> r.moves[0].from == CREATED)
    requires BeyondSubmission(r.state)
    ensures StartsApproved(r, id)
  {
    if |r.moves| >= 1 {
      SecondState(r, id, |r.moves|);
    }
  }

  /** After `k` legal moves from CREATED the order is still before submission, or has been approved and submitted. */
  lemma {:induction false} SecondState(r: OrderRecord, id: string, k: nat)
    requires LegalWalk(r, id) && 0 < k <= |r.moves| && r.moves[0].from == CREATED
    ensures r.moves[k - 1].to in {RISK_APPROVED, REJECTED, EXPIRED} || StartsApproved(r, id)
    ensures r.moves[k - 1].to == RISK_APPROVED ==> k == 1
    decreases k
  {
    if k > 1 {
      SecondState(r, id, k - 1);
    }
  }

  // ----- the machine object -----

  class OrderStateMachine {
    var orders: Orders
    var eventLog: seq<Move>

    function State(): Machine
      reads this
    {
      Machine(orders, eventLog)
    }

    constructor ()
      ensures State() == Machine(map[], []) && Faithful(State())
    {
      orders, eventLog := map[], [];
    }

    /** Adds an order at `state`; false when it already exists. */
    method Add(id: string, state: OrderState) returns (ok: bool)
      requires Faithful(State())
      modifies this
      ensures Open(old(State()), id, state) == if ok then Moved(State()) else Illegal
      ensures !ok ==> State() == old(State())
      ensures Faithful(State())
    {
      OpenKeepsFaithful(State(), id, state);
      if id in orders {
        return false;
      }
      orders := orders[id := OrderRecord(state, 1, [])];
      ok := true;
    }

    method Create(id: string) returns (ok: bool)
      requires Faithful(State())
      modifies this
      ensures Open(old(State()), id, CREATED) == if ok then Moved(State()) else Illegal
      ensures !ok ==> State() == old(State())
      ensures Faithful(State())
    {
      ok := Add(id, CREATED);
    }

    /** Not a transition: the whitelist does not apply. */
    method Restore(id: string, state: OrderState) returns (ok: bool)
      requires Faithful(State())
      modifies this
      ensures Open(old(State()), id, state) == if ok then Moved(State()) else Illegal
      ensures !ok ==> State() == old(State())
      ensures Faithful(State())
    {
      ok := Add(id, state);
    }

    /** `known` is false when there is no such order, `ok` when there is but the whitelist forbids the move. */
    method Advance(id: string, to: OrderState) returns (ok: bool, known: bool)
      requires Faithful(State())
      modifies this
      ensures Transition(old(State()), id, to) == if ok then Moved(State()) else if known then Illegal else NoSuchOrder
      ensures ok ==> known
      ensures !ok ==> State() == old(State())
      ensures Faithful(State())
    {
      ghost var before := State();
      TransitionKeepsFaithful(before, id, to);
      if id !in orders {
        return false, false;
      }
      var rec := orders[id];
      if to !in Allowed(rec.state) {
        return false, true;
      }
      var move := Move(id, rec.state, to);
      eventLog := eventLog + [move];
      orders := orders[id := OrderRecord(to, rec.version + 1, rec.moves + [move])];
      ok, known := true, true;
      assert Transition(before, id, to) == Moved(State());
    }
  }
}
