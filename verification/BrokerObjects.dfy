/**
 The paper broker as an object (packages/broker_adapters/paper.py): each method does, on the
 fields, what module FillSchema says of the call, raising where it says so.
 */
module BrokerObjects {
  import opened Numeric
  import opened OrderStates
  import opened Intents
  import opened PaperBrokers
  import opened FillSchema
  import opened BrokerOrders
  import opened Wrappers

  /** The first order that raises ends a poll. */
  lemma {:induction false} PollStops(b: Broker, m: Market, j: nat, k: nat)
    requires Wired(b.ids, b.orders) && LongOnly(b.positions) && j <= k <= |b.ids| && PollAsCoded(b, m, j).Failed?
    ensures PollAsCoded(b, m, k) == PollAsCoded(b, m, j)
    decreases k
  {
    hide ExecuteAsCoded, Wired, LongOnly;
    if j < k {
      PollStops(b, m, j, k - 1);
      PollUnfolds(b, m, k);
    }
  }

  lemma PollEnds(b: Broker, m: Market)
    requires Wired(b.ids, b.orders) && LongOnly(b.positions)
    ensures PollAsCoded(b, m, 0) == Done(b)
    ensures HandleAsCoded(b, PollOp(m)) == if m.fault == DISCONNECT then Done(b) else PollAsCoded(b, m, |b.ids|)
  {
  }

  class PaperBroker {
    const feeBps: real
    const slipBps: real
    var settled: real
    var unsettled: real
    var ids: seq<string>
    var orders: map<string, PaperOrder>
    var positions: map<string, Position>
    var fills: seq<Fill>
    ghost var trades: seq<Trade>
    ghost var received: seq<string>

    ghost function State(): Broker
      reads this
    {
      Broker(feeBps, slipBps, settled, unsettled, ids, orders, positions, fills, trades, received)
    }

    ghost predicate Valid()
      reads this
    {
      Orderly(State())
    }

    constructor (initialCash: real, feeBps: real, slipBps: real)
      requires ProperRates(feeBps, slipBps)
      ensures Valid() && State() == Opened(initialCash, feeBps, slipBps)
    {
      this.feeBps, this.slipBps, this.settled, this.unsettled := feeBps, slipBps, initialCash, 0.0;
      ids, orders, positions, fills := [], map[], map[], [];
      trades, received := [], [];
    }

    /** Pays for a purchase out of settled cash. */
    method Buy(t: Trade)
      requires LongOnly(positions) && t.side == BUY && t.qty > 0.0
      modifies `settled, `positions
      ensures State() == Settled(old(State()), t)
    {
      var cost := Notional(t.qty, t.price);
      settled := settled - (cost + t.fees);
      var pos := if t.symbol in positions then positions[t.symbol] else Position(0.0, 0.0);
      var newQty := pos.qty + t.qty;
      var newCost := (Notional(pos.qty, pos.avgCost) + cost) / newQty;
      positions := positions[t.symbol := Position(newQty, Round6(newCost))];
    }

    /** Delivers the shares sold; the proceeds stay unsettled. */
    method Sell(t: Trade)
      requires LongOnly(positions) && t.side == SELL && t.qty > 0.0 && t.symbol in positions
      modifies `unsettled, `positions
      ensures State() == Settled(old(State()), t)
    {
      var pos := positions[t.symbol];
      var left := pos.qty - t.qty;
      if left <= EPS {
        positions := positions - {t.symbol};
      } else {
        positions := positions[t.symbol := Position(left, pos.avgCost)];
      }
      unsettled := unsettled + (Notional(t.qty, t.price) - t.fees);
    }

    method RecordFill(id: string, t: Trade)
      requires id in orders
      modifies `orders, `fills, `trades
      ensures State() == old(State()).(orders := old(orders)[id := FilledOrder(old(orders)[id], t)],
                                       fills := old(fills) + [Reported(t)], trades := old(trades) + [t])
    {
      var po := orders[id];
      var fill := Fill(t.orderId, t.symbol, t.side, t.qty, Round6(t.price), Round6(t.fees));
      fills := fills + [fill];
      var filled := po.filledQty + t.qty;
      var state := if filled >= po.request.qty - EPS then FILLED else PARTIALLY_FILLED;
      orders := orders[id := PaperOrder(po.request, state, filled, po.fills + [fill])];
      trades := trades + [t];
    }

    /** Works out what the market and the account allow for one order. */
    method NextExecution(id: string, m: Market) returns (e: Execution)
      requires id in orders && LongOnly(positions)
      ensures e == Due(State(), orders[id], m)
    {
      var po := orders[id];
      var req := po.request;
      var price := FillPrice(req, m.quotes(req.symbol), slipBps);
      if price.None? {
        return Resting;
      }
      var remaining := req.qty - po.filledQty;
      if remaining <= EPS {
        return Resting;
      }
      var qty := remaining;
      if m.fault == PARTIAL_FILL {
        qty := remaining / 2.0;
      }
      var cost := Notional(qty, price.value);
      var fees := Notional(cost, feeBps) / 10000.0;
      if req.side == BUY {
        if cost + fees > settled + EPS {
          return CannotFill;
        }
        return Fills(Trade(req.id, req.symbol, BUY, qty, price.value, fees, 0.0));
      }
      if req.symbol !in positions || positions[req.symbol].qty + EPS < qty {
        return CannotFill;
      }
      var left := positions[req.symbol].qty - qty;
      e := Fills(Trade(req.id, req.symbol, SELL, qty, price.value, fees, if left <= EPS then left else 0.0));
    }

    /**
     Fills what is outstanding of one order, as far as possible; earlier fills stay. Raises
     when the fill cannot be built: cash and shares have moved by then.
     */
    method ExecuteOrder(id: string, m: Market) returns (raised: bool)
      requires id in orders && LongOnly(positions)
      modifies this
      ensures ExecuteAsCoded(old(State()), id, m) == if raised then Failed(State()) else Done(State())
      ensures old(fills) <= fills
    {
      var e := NextExecution(id, m);
      match e
      case Resting =>
        raised := false;
      case CannotFill =>
        CannotFillOrder(id);
        raised := false;
      case Fills(t) =>
        if t.side == BUY {
          Buy(t);
        } else {
          Sell(t);
        }
        if Round6(t.price) <= 0.0 {
          return true;
        }
        RecordFill(id, t);
        raised := false;
    }

    /** Only an order that has filled nothing can be turned into a rejected one. */
    method CannotFillOrder(id: string)
      requires id in orders
      modifies `orders
      ensures State() == if old(orders[id]).filledQty <= EPS then Restated(old(State()), id, REJECTED) else old(State())
    {
      if orders[id].filledQty <= EPS {
        orders := orders[id := orders[id].(state := REJECTED)];
      }
    }

    method SubmitOrder(req: Request, m: Market) returns (reply: Reply, raised: bool)
      requires Valid() && req.qty > 0.0 && m.Legal()
      modifies this
      ensures Valid() && SubmitAsCoded(old(State()), req, m) == if raised then Failed(State()) else Done(State())
      ensures !raised ==> reply == ReplyOf(old(State()), req.id, m)
    {
      hide Wired, OrderSound, ExecuteAsCoded;
      SubmitProgresses(State(), req, m);
      received := received + [req.id];
      if m.fault == DISCONNECT {
        return Disconnected, false;
      }
      if req.id in orders {
        return Duplicate, false;
      }
      ids, orders := ids + [req.id], orders[req.id := PaperOrder(req, ACKNOWLEDGED, 0.0, [])];
      raised := ExecuteOrder(req.id, m);
      reply := if m.fault == TIMEOUT then TimedOut else Accepted;
    }

    /** Executes an order if it is still working. */
    method ReconsiderOrder(id: string, m: Market) returns (raised: bool)
      requires id in orders && LongOnly(positions)
      modifies this
      ensures ReconsiderAsCoded(Done(old(State())), id, m) == if raised then Failed(State()) else Done(State())
      ensures old(fills) <= fills
    {
      raised := false;
      if Working(orders[id].state) {
        raised := ExecuteOrder(id, m);
      }
    }

    /** Goes through the orders, oldest first, until one raises. */
    method ReconsiderAll(m: Market) returns (raised: bool)
      requires Wired(ids, orders) && LongOnly(positions)
      modifies this
      ensures PollAsCoded(old(State()), m, |old(ids)|) == if raised then Failed(State()) else Done(State())
      ensures old(fills) <= fills
    {
      hide Wired, LongOnly, ReconsiderAsCoded, PollAsCoded, HandleAsCoded;
      ghost var start := State();
      PollEnds(start, m);
      var resting := ids;
      for k := 0 to |resting|
        invariant resting == start.ids && PollAsCoded(start, m, k) == Done(State())
        invariant start.fills <= fills
      {
        PollUnfolds(start, m, k + 1);
        raised := ReconsiderOrder(resting[k], m);
        if raised {
          PollStops(start, m, k + 1, |resting|);
          return true;
        }
      }
      raised := false;
    }

    /** Re-evaluates the resting orders; `gone` says that the connection is down. */
    method PollRestingOrders(m: Market) returns (newFills: seq<Fill>, gone: bool, raised: bool)
      requires Valid() && m.Legal()
      modifies this
      ensures Valid() && HandleAsCoded(old(State()), PollOp(m)) == if raised then Failed(State()) else Done(State())
      ensures gone <==> m.fault == DISCONNECT
      ensures !gone && !raised ==> fills == old(fills) + newFills
    {
      hide Wired, LongOnly, OrderSound, PollAsCoded, HandleAsCoded;
      RestingPollProgresses(State(), m);
      PollEnds(State(), m);
      if m.fault == DISCONNECT {
        return [], true, false;
      }
      var before := |fills|;
      raised := ReconsiderAll(m);
      newFills, gone := fills[before..], false;
    }

    method CancelOrder(id: string, m: Market) returns (reply: CancelReply)
      requires Valid()
      modifies this
      ensures Valid() && State() == Cancel(old(State()), id, m) && reply == CancelReplyOf(old(State()), id, m)
    {
      if m.fault == DISCONNECT {
        return CancelDisconnected;
      }
      if id !in orders {
        return CancelRefused;
      }
      if Working(orders[id].state) {
        orders := orders[id := orders[id].(state := CANCELLED)];
        return CancelAccepted;
      }
      reply := CancelRefused;
    }

    method GetOrderStatus(id: string, m: Market) returns (status: Status)
      ensures status == StatusOf(State(), id, m)
    {
      if m.fault == DISCONNECT {
        return StatusDisconnected;
      }
      if id !in orders {
        return StatusUnknownOrder;
      }
      status := Known(orders[id].state);
    }

    method SettleCash()
      requires Valid()
      modifies this
      ensures Valid() && State() == Settle(old(State()))
    {
      settled := settled + unsettled;
      unsettled := 0.0;
    }
  }
}
