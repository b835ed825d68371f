/**
 What the broker's calls do to the states of its orders (packages/broker_adapters/paper.py),
 at any legal quotes and whether or not the call raises.
 */
module BrokerOrders {
  import opened Numeric
  import opened OrderStates
  import opened Intents
  import opened PaperBrokers
  import opened FillSchema

  /** All that the states of the orders rest on; the books need not add up. */
  ghost predicate Orderly(b: Broker) {
    && Wired(b.ids, b.orders) && LongOnly(b.positions) && ProperRates(b.feeBps, b.slipBps)
    && forall id :: id in b.orders ==> OrderSound(b.orders[id])
  }

  lemma OpenedIsOrderly(opening: real, feeBps: real, slipBps: real)
    requires ProperRates(feeBps, slipBps)
    ensures Orderly(Opened(opening, feeBps, slipBps))
  {
  }

  lemma OrderOf(b: Broker, id: string)
    requires Orderly(b) && id in b.orders
    ensures OrderSound(b.orders[id]) && b.orders[id].request.id == id && id in b.ids
    ensures LongOnly(b.positions) && ProperRates(b.feeBps, b.slipBps)
  {
  }

  /** One execution touches one order, which makes progress or stays. */
  lemma ExecutionProgresses(b: Broker, id: string, m: Market)
    requires Orderly(b) && id in b.orders && Working(b.orders[id].state) && m.Legal()
    ensures var after := ExecuteAsCoded(b, id, m).b;
      Orderly(after) && OneProgress(b.orders, after.orders, id) && after.received == b.received && after.ids == b.ids
  {
    var after := ExecuteAsCoded(b, id, m).b;
    OrderOf(b, id);
    ExecuteProgresses(b, id, m);
    ExecuteKeepsRequests(b, id, m);
    StillWired(b.ids, b.orders, after.orders);
    DueIsProper(b, b.orders[id], m);
  }

  lemma TakenInIsOrderly(b: Broker, req: Request)
    requires Orderly(b) && req.qty > 0.0 && req.id !in b.orders
    ensures Orderly(TakenIn(b, req))
  {
    TakenInIsWired(b, req);
  }

  /** A submitted order, if it gets through, is the only one touched; it starts acknowledged. */
  lemma SubmitProgresses(b: Broker, req: Request, m: Market)
    requires Orderly(b) && req.qty > 0.0 && m.Legal()
    ensures LongOnly(b.positions)
    ensures var after := SubmitAsCoded(b, req, m).b;
      && Orderly(after) && after.received == b.received + [req.id]
      && if ReplyOf(b, req.id, m) in {Disconnected, Duplicate} then after.orders == b.orders
         else OneProgress(TakenIn(b, req).orders, after.orders, req.id)
  {
    hide Wired, LongOnly, OrderSound, ExecuteAsCoded;
    if ReplyOf(b, req.id, m) !in {Disconnected, Duplicate} {
      TakenInIsOrderly(b, req);
      ExecutionProgresses(TakenIn(b, req), req.id, m);
    }
  }

  lemma ProgressAddsUp(
    start: map<string, PaperOrder>, before: map<string, PaperOrder>, after: map<string, PaperOrder>, id: string)
    requires OnlyProgress(start, before) && OneProgress(before, after, id)
    ensures OnlyProgress(start, after)
  {
  }

  lemma PollBegins(b: Broker, m: Market)
    requires Orderly(b)
    ensures LongOnly(b.positions) && Wired(b.ids, b.orders)
    ensures PollAsCoded(b, m, 0) == Done(b) && OnlyProgress(b.orders, b.orders)
  {
  }

  lemma ReconsideringProgresses(start: map<string, PaperOrder>, before: Executed, id: string, m: Market)
    requires Orderly(before.b) && m.Legal() && OnlyProgress(start, before.b.orders)
    requires id in before.b.orders && LongOnly(before.b.positions)
    ensures var after := ReconsiderAsCoded(before, id, m).b;
      Orderly(after) && OnlyProgress(start, after.orders) && after.received == before.b.received
  {
    hide Orderly, OnlyProgress, OneProgress, LongOnly, ExecuteAsCoded;
    if before.Done? && Working(before.b.orders[id].state) {
      ExecutionProgresses(before.b, id, m);
      ProgressAddsUp(start, before.b.orders, ExecuteAsCoded(before.b, id, m).b.orders, id);
    }
  }

  lemma {:induction false} PollProgresses(b: Broker, m: Market, k: nat)
    requires Orderly(b) && m.Legal() && k <= |b.ids|
    ensures LongOnly(b.positions) && Wired(b.ids, b.orders)
    ensures var after := PollAsCoded(b, m, k).b;
      Orderly(after) && OnlyProgress(b.orders, after.orders) && after.received == b.received
  {
    hide *;
    PollBegins(b, m);
    if k > 0 {
      PollProgresses(b, m, k - 1);
      PollUnfolds(b, m, k);
      ReconsideringProgresses(b.orders, PollAsCoded(b, m, k - 1), b.ids[k - 1], m);
    }
  }

  /** A poll of the resting orders lets every order make progress and does nothing else to them. */
  lemma RestingPollProgresses(b: Broker, m: Market)
    requires Orderly(b) && m.Legal()
    ensures LongOnly(b.positions) && Wired(b.ids, b.orders)
    ensures var after := HandleAsCoded(b, PollOp(m)).b;
      Orderly(after) && OnlyProgress(b.orders, after.orders) && after.received == b.received
  {
    hide Orderly, PollAsCoded;
    PollProgresses(b, m, 0);
    if m.fault != DISCONNECT {
      PollProgresses(b, m, |b.ids|);
    }
  }

  lemma CancelStaysOrderly(b: Broker, id: string, m: Market)
    requires Orderly(b)
    ensures Orderly(Cancel(b, id, m)) && Cancel(b, id, m).received == b.received
  {
  }

  lemma SettleStaysOrderly(b: Broker)
    requires Orderly(b)
    ensures Orderly(Settle(b))
  {
  }

  // ----- orders that are finished -----

  predicate Finished(s: OrderState) {
    s in {FILLED, CANCELLED, REJECTED, EXPIRED}
  }

  lemma {:induction false} PollLeavesFinished(b: Broker, m: Market, k: nat, id: string)
    requires Wired(b.ids, b.orders) && LongOnly(b.positions) && k <= |b.ids|
    requires id in b.orders && Finished(b.orders[id].state)
    ensures PollAsCoded(b, m, k).b.orders[id] == b.orders[id]
  {
    hide Wired, LongOnly, ExecuteAsCoded;
    if k > 0 {
      PollLeavesFinished(b, m, k - 1, id);
      PollUnfolds(b, m, k);
      var before := PollAsCoded(b, m, k - 1);
      if before.Done? && Working(before.b.orders[b.ids[k - 1]].state) {
        ExecutesOnlyIt(before.b, b.ids[k - 1], m, id);
      }
    }
  }

  lemma ExecutesOnlyIt(b: Broker, id: string, m: Market, other: string)
    requires id in b.orders && LongOnly(b.positions) && other in b.orders && other != id
    ensures other in ExecuteAsCoded(b, id, m).b.orders && ExecuteAsCoded(b, id, m).b.orders[other] == b.orders[other]
  {
  }

  /** A filled, cancelled or rejected order never changes again, whatever the broker is asked. */
  lemma {:induction false} FinishedOrdersStay(b: Broker, ops: seq<BrokerOp>, id: string)
    requires Wired(b.ids, b.orders) && LongOnly(b.positions) && id in b.orders && Finished(b.orders[id].state)
    ensures id in CodedRun(b, ops).orders && CodedRun(b, ops).orders[id] == b.orders[id]
  {
    hide HandleAsCoded, Wired, LongOnly;
    if ops != [] {
      var n := |ops| - 1;
      FinishedOrdersStay(b, ops[..n], id);
      CallLeavesFinished(CodedRun(b, ops[..n]), ops[n], id);
    }
  }

  lemma CallLeavesFinished(b: Broker, op: BrokerOp, id: string)
    requires Wired(b.ids, b.orders) && LongOnly(b.positions) && id in b.orders && Finished(b.orders[id].state)
    ensures id in HandleAsCoded(b, op).b.orders && HandleAsCoded(b, op).b.orders[id] == b.orders[id]
  {
    hide ExecuteAsCoded, PollAsCoded, Wired, LongOnly;
    match op
    case SubmitOp(req, m) =>
      if ReplyOf(b, req.id, m) !in {Disconnected, Duplicate} {
        ExecutesOnlyIt(TakenIn(b, req), req.id, m, id);
      }
    case PollOp(m) =>
      if m.fault != DISCONNECT {
        PollLeavesFinished(b, m, |b.ids|, id);
      }
    case _ =>
  }

  /**
   A cancel that gets through ends a working order with what it has filled, moves no money and
   touches no other order; of any other order it changes nothing and says so.
   */
  lemma CancelEndsWorkingOrders(b: Broker, id: string, m: Market)
    ensures var after := Cancel(b, id, m);
      var ends := m.fault != DISCONNECT && id in b.orders && b.orders[id].state in {ACKNOWLEDGED, PARTIALLY_FILLED};
      && after == (if ends then b.(orders := b.orders[id := b.orders[id].(state := CANCELLED)]) else b)
      && (CancelReplyOf(b, id, m) == CancelAccepted <==> ends)
      && (CancelReplyOf(b, id, m) == CancelDisconnected <==> m.fault == DISCONNECT)
  {
  }

  /** A settlement turns all unsettled proceeds into settled cash and changes nothing else. */
  lemma SettlementReleases(b: Broker)
    ensures var after := Settle(b);
      && after.unsettled == 0.0 && after.settled == b.settled + b.unsettled
      && after == b.(settled := after.settled, unsettled := 0.0)
  {
  }
}
