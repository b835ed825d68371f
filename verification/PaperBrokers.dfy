/**
 The paper broker (packages/broker_adapters/paper.py): fills that cross the spread, fees,
 unsettled sale proceeds, partial fills, timeouts and disconnects.
 */
module PaperBrokers {
  import opened Numeric
  import opened Sums
  import opened OrderStates
  import opened Intents
  import opened Wrappers

  datatype Quote = Quote(bid: real, ask: real) {
    function Mid(): real {
      (bid + ask) / 2.0
    }
  }

  datatype Fault = NONE | TIMEOUT | DISCONNECT | PARTIAL_FILL

  /** What the world looks like during one call: the injected fault and the quotes. */
  datatype Market = Market(fault: Fault, quotes: string -> Quote) {
    /** What the quote schema guarantees. */
    ghost predicate Legal() {
      forall s :: quotes(s).bid > 0.0 && quotes(s).ask > 0.0
    }

    /** Legal, and no price is so small that rounding it for a fill leaves nothing. */
    ghost predicate Sane() {
      Legal() && forall s :: Round6(quotes(s).bid) > 0.0 && Round6(quotes(s).ask) > 0.0
    }
  }

  datatype OrderKind = MarketOrder | LimitOrder(limit: real) | StopOrder(stop: real)

  datatype Request = Request(id: string, symbol: string, side: Side, qty: real, kind: OrderKind)

  /** A fill as reported, with price and fees rounded. */
  datatype Fill = Fill(orderId: string, symbol: string, side: Side, qty: real, price: real, fees: real)

  /**
   A fill as it moved the broker's own books: unrounded, and with the dust that was
   dropped when it closed a position.
   */
  datatype Trade = Trade(orderId: string, symbol: string, side: Side, qty: real, price: real, fees: real, dropped: real)

  function Reported(t: Trade): Fill {
    Fill(t.orderId, t.symbol, t.side, t.qty, Round6(t.price), Round6(t.fees))
  }

  datatype PaperOrder = PaperOrder(request: Request, state: OrderState, filledQty: real, fills: seq<Fill>)

  datatype Position = Position(qty: real, avgCost: real)

  /** `trades` and `received` are the history of fills and of submit calls; the code does not keep them. */
  datatype Broker = Broker(
    feeBps: real, slipBps: real, settled: real, unsettled: real,
    ids: seq<string>, orders: map<string, PaperOrder>, positions: map<string, Position>,
    fills: seq<Fill>, trades: seq<Trade>, received: seq<string>)
  {
    function PositionQty(symbol: string): real {
      if symbol in positions then positions[symbol].qty else 0.0
    }
  }

  function FillPrice(req: Request, quote: Quote, slipBps: real): Option<real> {
    var slip := Notional(quote.Mid(), slipBps) / 10000.0;
    match req.kind
    case MarketOrder => Some(if req.side == BUY then quote.ask + slip else Max(0.01, quote.bid - slip))
    case LimitOrder(limit) =>
      if req.side == BUY && quote.ask <= limit then Some(quote.ask)
      else if req.side == SELL && quote.bid >= limit then Some(quote.bid)
      else None
    case StopOrder(stop) =>
      if req.side == SELL && quote.bid <= stop then Some(Max(0.01, quote.bid - slip)) else None
  }

  datatype Execution = Resting | CannotFill | Fills(trade: Trade)

  /** What executing an order would do now. */
  function Due(b: Broker, o: PaperOrder, m: Market): Execution {
    var req, price := o.request, FillPrice(o.request, m.quotes(o.request.symbol), b.slipBps);
    var remaining := req.qty - o.filledQty;
    if price.None? || remaining <= EPS then Resting
    else
      var qty := if m.fault == PARTIAL_FILL then remaining / 2.0 else remaining;
      var cost := Notional(qty, price.value);
      var fees := Notional(cost, b.feeBps) / 10000.0;
      if req.side == BUY then
        if cost + fees > b.settled + EPS then CannotFill
        else Fills(Trade(req.id, req.symbol, BUY, qty, price.value, fees, 0.0))
      else
        var held := b.PositionQty(req.symbol);
        if req.symbol !in b.positions || held + EPS < qty then CannotFill
        else Fills(Trade(req.id, req.symbol, SELL, qty, price.value, fees, if held - qty <= EPS then held - qty else 0.0))
  }

  function Bought(p: map<string, Position>, t: Trade): map<string, Position>
    requires t.symbol in p ==> p[t.symbol].qty > 0.0
    requires t.qty > 0.0
  {
    var held := if t.symbol in p then p[t.symbol] else Position(0.0, 0.0);
    var qty := held.qty + t.qty;
    p[t.symbol := Position(qty, Round6((Notional(held.qty, held.avgCost) + Notional(t.qty, t.price)) / qty))]
  }

  function Sold(p: map<string, Position>, t: Trade): map<string, Position>
    requires t.symbol in p
  {
    var left := p[t.symbol].qty - t.qty;
    if left <= EPS then p - {t.symbol} else p[t.symbol := p[t.symbol].(qty := left)]
  }

  /** Moves cash and shares: a purchase is paid from settled cash, a sale earns unsettled cash. */
  function Settled(b: Broker, t: Trade): Broker
    requires t.symbol in b.positions ==> b.positions[t.symbol].qty > 0.0
    requires t.qty > 0.0 && (t.side == SELL ==> t.symbol in b.positions)
  {
    var cost := Notional(t.qty, t.price);
    if t.side == BUY then b.(settled := b.settled - (cost + t.fees), positions := Bought(b.positions, t))
    else b.(unsettled := b.unsettled + (cost - t.fees), positions := Sold(b.positions, t))
  }

  function FilledOrder(o: PaperOrder, t: Trade): PaperOrder {
    var filled := o.filledQty + t.qty;
    PaperOrder(o.request, if filled >= o.request.qty - EPS then FILLED else PARTIALLY_FILLED, filled, o.fills + [Reported(t)])
  }

  predicate LongOnly(positions: map<string, Position>) {
    forall s :: s in positions ==> positions[s].qty > 0.0
  }

  /** The broker after a trade of order `id`. */
  function Traded(b: Broker, id: string, t: Trade): Broker
    requires id in b.orders && LongOnly(b.positions)
    requires t.qty > 0.0 && (t.side == SELL ==> t.symbol in b.positions)
  {
    Settled(b, t).(orders := b.orders[id := FilledOrder(b.orders[id], t)], fills := b.fills + [Reported(t)], trades := b.trades + [t])
  }

  function Restated(b: Broker, id: string, state: OrderState): Broker
    requires id in b.orders
  {
    b.(orders := b.orders[id := b.orders[id].(state := state)])
  }

  /** An order that has filled nothing is rejected when it cannot fill; any other stays as it is. */
  function Execute(b: Broker, id: string, m: Market): Broker
    requires id in b.orders && LongOnly(b.positions)
  {
    match Due(b, b.orders[id], m)
    case Resting => b
    case CannotFill => if b.orders[id].filledQty <= EPS then Restated(b, id, REJECTED) else b
    case Fills(t) => Traded(b, id, t)
  }

  // ----- the calls -----

  datatype Reply = Accepted | NotAccepted | TimedOut | Disconnected | Duplicate

  /** The answer to a submit; the paper broker accepts every order it hears of for the first time. */
  function ReplyOf(b: Broker, id: string, m: Market): Reply {
    if m.fault == DISCONNECT then Disconnected
    else if id in b.orders then Duplicate
    else if m.fault == TIMEOUT then TimedOut
    else Accepted
  }

  /** The broker with a new order taken in and not yet executed. */
  function TakenIn(b: Broker, req: Request): Broker {
    b.(received := b.received + [req.id], ids := b.ids + [req.id],
       orders := b.orders[req.id := PaperOrder(req, ACKNOWLEDGED, 0.0, [])])
  }

  /** A new order is taken in and executed at once; on a timeout too, only the answer is lost. */
  function Submit(b: Broker, req: Request, m: Market): Broker
    requires LongOnly(b.positions)
  {
    if ReplyOf(b, req.id, m) in {Disconnected, Duplicate} then b.(received := b.received + [req.id])
    else Execute(TakenIn(b, req), req.id, m)
  }

  predicate Working(s: OrderState) {
    s == ACKNOWLEDGED || s == PARTIALLY_FILLED
  }

  /** Executes an order if it is still working. */
  function Reconsider(b: Broker, id: string, m: Market): Broker
    requires id in b.orders && LongOnly(b.positions)
  {
    if Working(b.orders[id].state) then Execute(b, id, m) else b
  }

  /** Re-evaluates the first `k` orders, oldest first. */
  ghost function PollFirst(b: Broker, m: Market, k: nat): (r: Broker)
    requires k <= |b.ids| && Wired(b.ids, b.orders) && LongOnly(b.positions)
    ensures r.ids == b.ids && r.orders.Keys == b.orders.Keys && LongOnly(r.positions)
  {
    if k == 0 then b
    else
      var before := PollFirst(b, m, k - 1);
      var id := b.ids[k - 1];
      assert id in b.orders;
      ReconsiderLongOnly(before, id, m);
      Reconsider(before, id, m)
  }

  ghost function PollResting(b: Broker, m: Market): Broker
    requires Wired(b.ids, b.orders) && LongOnly(b.positions)
  {
    if m.fault == DISCONNECT then b else PollFirst(b, m, |b.ids|)
  }

  datatype CancelReply = CancelAccepted | CancelRefused | CancelDisconnected

  function CancelReplyOf(b: Broker, id: string, m: Market): CancelReply {
    if m.fault == DISCONNECT then CancelDisconnected
    else if id in b.orders && Working(b.orders[id].state) then CancelAccepted
    else CancelRefused
  }

  function Cancel(b: Broker, id: string, m: Market): Broker {
    if CancelReplyOf(b, id, m) == CancelAccepted then Restated(b, id, CANCELLED) else b
  }

  datatype Status = StatusDisconnected | StatusUnknownOrder | Known(state: OrderState)

  function StatusOf(b: Broker, id: string, m: Market): Status {
    if m.fault == DISCONNECT then StatusDisconnected
    else if id !in b.orders then StatusUnknownOrder
    else Known(b.orders[id].state)
  }

  /** The settlement tick. */
  function Settle(b: Broker): Broker {
    b.(settled := b.settled + b.unsettled, unsettled := 0.0)
  }

  // ----- what always holds: the orders -----

  /** The list of ids and the table of orders agree. */
  ghost predicate Wired(ids: seq<string>, orders: map<string, PaperOrder>) {
    && (forall i, j :: 0 <= i < j < |ids| ==> ids[i] != ids[j])
    && (forall i :: 0 <= i < |ids| ==> ids[i] in orders)
    && (forall id :: id in orders ==> id in ids && orders[id].request.id == id)
  }

  /** The state a broker reports is one of five, and says what has been filled. */
  ghost predicate OrderSound(o: PaperOrder) {
    && o.request.qty > 0.0 && 0.0 <= o.filledQty <= o.request.qty
    && match o.state
       case ACKNOWLEDGED => o.filledQty == 0.0
       case PARTIALLY_FILLED => EPS < o.filledQty < o.request.qty - EPS
       case FILLED => o.filledQty >= o.request.qty - EPS && o.filledQty > 0.0
       case REJECTED => o.filledQty == 0.0
       case CANCELLED => true
       case _ => false
  }

  function QtyOfOrder(id: string): Trade -> real {
    (t: Trade) => if t.orderId == id then t.qty else 0.0
  }

  function FillsOf(fills: seq<Fill>, id: string): seq<Fill> {
    if fills == [] then []
    else
      var n := |fills| - 1;
      FillsOf(fills[..n], id) + if fills[n].orderId == id then [fills[n]] else []
  }

  /** An order's filled quantity and list of fills are those of its own trades. */
  ghost predicate AddsUp(o: PaperOrder, id: string, trades: seq<Trade>, fills: seq<Fill>) {
    o.filledQty == SumBy(trades, QtyOfOrder(id)) && o.fills == FillsOf(fills, id)
  }

  ghost predicate OrdersAddUp(orders: map<string, PaperOrder>, trades: seq<Trade>, fills: seq<Fill>) {
    forall id :: id in orders ==> OrderSound(orders[id]) && AddsUp(orders[id], id, trades, fills)
  }

  /** Fill by fill, what is reported is the rounded trade of a known order. */
  ghost predicate FillsKnown(orders: map<string, PaperOrder>, trades: seq<Trade>, fills: seq<Fill>) {
    && |fills| == |trades|
    && (forall i :: 0 <= i < |trades| ==> fills[i] == Reported(trades[i]) && trades[i].orderId in orders)
    && (forall i :: 0 <= i < |trades| ==> trades[i].qty > 0.0 && trades[i].fees >= 0.0)
  }

  ghost predicate OrderSide(ids: seq<string>, orders: map<string, PaperOrder>, trades: seq<Trade>, fills: seq<Fill>) {
    Wired(ids, orders) && OrdersAddUp(orders, trades, fills) && FillsKnown(orders, trades, fills)
  }

  // ----- what always holds: the money -----

  function CashOfTrade(): Trade -> real {
    (t: Trade) => if t.side == BUY then -Notional(t.qty, t.price) - t.fees else Notional(t.qty, t.price) - t.fees
  }

  /** The shares a fill moved, less the dust it dropped. */
  function SharesOfTrade(symbol: string): Trade -> real {
    (t: Trade) => if t.symbol != symbol then 0.0 else if t.side == BUY then t.qty else -t.qty - t.dropped
  }

  function QtyIn(positions: map<string, Position>, symbol: string): real {
    if symbol in positions then positions[symbol].qty else 0.0
  }

  /** Positions are net fills, less the dust closing sales dropped. */
  ghost predicate SharesConserved(positions: map<string, Position>, trades: seq<Trade>) {
    forall s :: QtyIn(positions, s) == SumBy(trades, SharesOfTrade(s))
  }

  /** A sale drops what it leaves exactly when that is within dust, and so closes the position. */
  ghost predicate DropsRightly(trades: seq<Trade>, k: nat)
    requires k < |trades|
  {
    var t := trades[k];
    var held := SumBy(trades[..k], SharesOfTrade(t.symbol));
    if t.side == BUY then t.dropped == 0.0
    else held > 0.0 && held - t.qty >= -EPS && t.dropped == if held - t.qty <= EPS then held - t.qty else 0.0
  }

  ghost predicate LittleDropped(trades: seq<Trade>) {
    forall k :: 0 <= k < |trades| ==> DropsRightly(trades, k)
  }

  ghost predicate ShareSide(positions: map<string, Position>, trades: seq<Trade>) {
    LongOnly(positions) && SharesConserved(positions, trades) && LittleDropped(trades)
  }

  /**
   Total cash is the opening cash less purchases and fees plus sale proceeds net of fees;
   settled cash never drops below the tolerance, and unsettled proceeds are never negative.
   */
  ghost predicate CashSide(settled: real, unsettled: real, trades: seq<Trade>, opening: real) {
    && settled + unsettled == opening + SumBy(trades, CashOfTrade())
    && settled >= -EPS && unsettled >= 0.0
  }

  /** Fees between nothing and the whole notional; slippage against the trader. */
  ghost predicate ProperRates(feeBps: real, slipBps: real) {
    0.0 <= feeBps <= 10000.0 && slipBps >= 0.0
  }

  ghost predicate Sound(b: Broker, opening: real) {
    && ProperRates(b.feeBps, b.slipBps) && OrderSide(b.ids, b.orders, b.trades, b.fills)
    && ShareSide(b.positions, b.trades) && CashSide(b.settled, b.unsettled, b.trades, opening)
  }

  lemma ReconsiderLongOnly(b: Broker, id: string, m: Market)
    requires id in b.orders && LongOnly(b.positions)
    ensures var r := Reconsider(b, id, m); LongOnly(r.positions) && r.ids == b.ids && r.orders.Keys == b.orders.Keys
  {
  }

  // ----- one execution -----

  lemma FeeRange(cost: real, feeBps: real)
    requires cost >= 0.0 && 0.0 <= feeBps <= 10000.0
    ensures 0.0 <= Notional(cost, feeBps) / 10000.0 <= cost
  {
    NotionalLaws(cost, 0.0, feeBps);
    NotionalLaws(cost, 0.0, 10000.0 - feeBps);
    assert Notional(cost, 10000.0 - feeBps) == 10000.0 * cost - Notional(cost, feeBps);
  }

  lemma PriceNotNegative(req: Request, quote: Quote, slipBps: real)
    requires quote.bid > 0.0 && quote.ask > 0.0 && slipBps >= 0.0
    ensures FillPrice(req, quote, slipBps).Some? ==> FillPrice(req, quote, slipBps).value > 0.0
  {
    NotionalLaws(quote.Mid(), 0.0, slipBps);
  }

  ghost predicate ProperTrade(b: Broker, o: PaperOrder, t: Trade) {
    && t.orderId == o.request.id && t.symbol == o.request.symbol && t.side == o.request.side
    && t.qty > 0.0 && t.price > 0.0 && 0.0 <= t.fees <= Notional(t.qty, t.price)
    && (t.side == BUY ==> Notional(t.qty, t.price) + t.fees <= b.settled + EPS && t.dropped == 0.0)
    && (t.side == SELL ==>
          && t.symbol in b.positions
          && var left := b.positions[t.symbol].qty - t.qty;
             left >= -EPS && t.dropped == if left <= EPS then left else 0.0)
  }

  lemma DueIsProper(b: Broker, o: PaperOrder, m: Market)
    requires ProperRates(b.feeBps, b.slipBps) && m.Legal() && OrderSound(o) && Working(o.state)
    ensures Due(b, o, m).Fills? ==>
              var t := Due(b, o, m).trade;
              && ProperTrade(b, o, t) && t.qty <= o.request.qty - o.filledQty
              && OrderSound(FilledOrder(o, t)) && Progress(o.state, FilledOrder(o, t).state)
  {
    var quote := m.quotes(o.request.symbol);
    PriceNotNegative(o.request, quote, b.slipBps);
    if Due(b, o, m).Fills? {
      var t := Due(b, o, m).trade;
      NotionalLaws(t.qty, 0.0, t.price);
      FeeRange(Notional(t.qty, t.price), b.feeBps);
    }
  }

  lemma TradeConservesCash(b: Broker, o: PaperOrder, t: Trade, opening: real)
    requires LongOnly(b.positions) && ProperTrade(b, o, t) && CashSide(b.settled, b.unsettled, b.trades, opening)
    ensures CashSide(Settled(b, t).settled, Settled(b, t).unsettled, b.trades + [t], opening)
  {
    SumSnoc(b.trades, t, CashOfTrade());
  }

  lemma EarlierDropsKept(trades: seq<Trade>, t: Trade)
    requires LittleDropped(trades) && DropsRightly(trades + [t], |trades|)
    ensures LittleDropped(trades + [t])
  {
    forall k | 0 <= k < |trades|
      ensures DropsRightly(trades + [t], k)
    {
      assert DropsRightly(trades, k);
      assert (trades + [t])[..k] == trades[..k];
    }
  }

  lemma TradeConservesShares(b: Broker, o: PaperOrder, t: Trade)
    requires ProperTrade(b, o, t) && ShareSide(b.positions, b.trades)
    ensures ShareSide(Settled(b, t).positions, b.trades + [t])
  {
    var after := Settled(b, t).positions;
    forall s
      ensures QtyIn(after, s) == SumBy(b.trades + [t], SharesOfTrade(s))
    {
      SumSnoc(b.trades, t, SharesOfTrade(s));
      assert QtyIn(b.positions, s) == SumBy(b.trades, SharesOfTrade(s));
    }
    assert (b.trades + [t])[..|b.trades|] == b.trades;
    assert QtyIn(b.positions, t.symbol) == SumBy(b.trades, SharesOfTrade(t.symbol));
    EarlierDropsKept(b.trades, t);
  }

  lemma FillsOfSnoc(fills: seq<Fill>, f: Fill, id: string)
    ensures FillsOf(fills + [f], id) == if f.orderId == id then FillsOf(fills, id) + [f] else FillsOf(fills, id)
  {
    assert (fills + [f])[..|fills|] == fills;
  }

  lemma OrderTakesTrade(o: PaperOrder, id: string, t: Trade, trades: seq<Trade>, fills: seq<Fill>)
    requires AddsUp(o, id, trades, fills)
    ensures AddsUp(if t.orderId == id then FilledOrder(o, t) else o, id, trades + [t], fills + [Reported(t)])
  {
    SumSnoc(trades, t, QtyOfOrder(id));
    FillsOfSnoc(fills, Reported(t), id);
  }

  lemma TradeAddsUp(
    ids: seq<string>, orders: map<string, PaperOrder>, id: string, t: Trade, trades: seq<Trade>, fills: seq<Fill>)
    requires OrderSide(ids, orders, trades, fills) && id in orders && t.orderId == id && t.qty > 0.0 && t.fees >= 0.0
    requires OrderSound(FilledOrder(orders[id], t))
    ensures OrderSide(ids, orders[id := FilledOrder(orders[id], t)], trades + [t], fills + [Reported(t)])
  {
    var after := orders[id := FilledOrder(orders[id], t)];
    forall other | other in after
      ensures OrderSound(after[other]) && AddsUp(after[other], other, trades + [t], fills + [Reported(t)])
    {
      OrderTakesTrade(orders[other], other, t, trades, fills);
    }
    var moreTrades, moreFills := trades + [t], fills + [Reported(t)];
    forall i | 0 <= i < |moreTrades|
      ensures moreFills[i] == Reported(moreTrades[i]) && moreTrades[i].orderId in after
      ensures moreTrades[i].qty > 0.0 && moreTrades[i].fees >= 0.0
    {
    }
  }

  /** What executing a working order does to its reported state. */
  ghost predicate Progress(before: OrderState, after: OrderState) {
    || after == before
    || (before == ACKNOWLEDGED && after in {PARTIALLY_FILLED, FILLED, REJECTED})
    || (before == PARTIALLY_FILLED && after == FILLED)
  }

  /** Only order `id` changed, and its state made progress. */
  ghost predicate OneProgress(before: map<string, PaperOrder>, after: map<string, PaperOrder>, id: string) {
    && before.Keys == after.Keys && id in before && Progress(before[id].state, after[id].state)
    && forall other :: other in before && other != id ==> after[other] == before[other]
  }

  lemma TradedIsSound(b: Broker, id: string, t: Trade, opening: real)
    requires Sound(b, opening) && id in b.orders && b.orders[id].request.id == id && ProperTrade(b, b.orders[id], t)
    requires OrderSound(FilledOrder(b.orders[id], t))
    ensures Sound(Traded(b, id, t), opening)
  {
    TradeConservesCash(b, b.orders[id], t, opening);
    TradeConservesShares(b, b.orders[id], t);
    TradeAddsUp(b.ids, b.orders, id, t, b.trades, b.fills);
  }

  /** An order may change state at any time as long as the new state fits what is filled. */
  lemma RestatedIsSound(b: Broker, id: string, state: OrderState, opening: real)
    requires Sound(b, opening) && id in b.orders && OrderSound(b.orders[id].(state := state))
    ensures Sound(Restated(b, id, state), opening)
  {
    RestateKeeps(b.ids, b.orders, id, state, b.trades, b.fills);
  }

  lemma RestateKeeps(
    ids: seq<string>, orders: map<string, PaperOrder>, id: string, state: OrderState, trades: seq<Trade>,
    fills: seq<Fill>)
    requires OrderSide(ids, orders, trades, fills) && id in orders && OrderSound(orders[id].(state := state))
    ensures OrderSide(ids, orders[id := orders[id].(state := state)], trades, fills)
  {
    var after := orders[id := orders[id].(state := state)];
    forall other | other in after
      ensures OrderSound(after[other]) && AddsUp(after[other], other, trades, fills)
    {
    }
  }

  lemma SoundOrder(b: Broker, id: string, opening: real)
    requires Sound(b, opening) && id in b.orders
    ensures OrderSound(b.orders[id]) && b.orders[id].request.id == id
    ensures ProperRates(b.feeBps, b.slipBps)
  {
  }

  lemma ExecuteKeepsSound(b: Broker, id: string, m: Market, opening: real)
    requires Sound(b, opening) && m.Legal() && id in b.orders && Working(b.orders[id].state)
    ensures Sound(Execute(b, id, m), opening)
  {
    var o := b.orders[id];
    SoundOrder(b, id, opening);
    DueIsProper(b, o, m);
    match Due(b, o, m)
    case Resting =>
    case CannotFill =>
      if o.filledQty <= EPS {
        RestatedIsSound(b, id, REJECTED, opening);
      }
    case Fills(t) =>
      TradedIsSound(b, id, t, opening);
  }

  lemma ExecuteProgresses(b: Broker, id: string, m: Market)
    requires ProperRates(b.feeBps, b.slipBps) && LongOnly(b.positions) && m.Legal()
    requires id in b.orders && OrderSound(b.orders[id]) && Working(b.orders[id].state)
    ensures OneProgress(b.orders, Execute(b, id, m).orders, id)
    ensures Execute(b, id, m).received == b.received
  {
    DueIsProper(b, b.orders[id], m);
  }

  // ----- the calls keep it all -----

  lemma {:induction false} UnknownOrderHasNoFills(trades: seq<Trade>, fills: seq<Fill>, id: string)
    requires |fills| == |trades| && forall i :: 0 <= i < |trades| ==> fills[i] == Reported(trades[i]) && trades[i].orderId != id
    ensures SumBy(trades, QtyOfOrder(id)) == 0.0 && FillsOf(fills, id) == []
  {
    if trades != [] {
      UnknownOrderHasNoFills(trades[..|trades| - 1], fills[..|fills| - 1], id);
    }
  }

  lemma TakingInKeeps(
    ids: seq<string>, orders: map<string, PaperOrder>, req: Request, trades: seq<Trade>, fills: seq<Fill>)
    requires OrderSide(ids, orders, trades, fills) && req.qty > 0.0 && req.id !in orders
    ensures OrderSide(ids + [req.id], orders[req.id := PaperOrder(req, ACKNOWLEDGED, 0.0, [])], trades, fills)
  {
    UnknownOrderHasNoFills(trades, fills, req.id);
    var more, after := ids + [req.id], orders[req.id := PaperOrder(req, ACKNOWLEDGED, 0.0, [])];
    assert more[|ids|] == req.id;
    assert Wired(more, after) by {
      forall id | id in after
        ensures id in more && after[id].request.id == id
      {
        assert req.id in more;
        if id != req.id { assert id in ids; }
      }
    }
    forall other | other in after
      ensures OrderSound(after[other]) && AddsUp(after[other], other, trades, fills)
    {
    }
  }

  /** A submitted order, if it gets through, is the only order touched; it starts acknowledged. */
  lemma SubmitKeepsSound(b: Broker, req: Request, m: Market, opening: real)
    requires Sound(b, opening) && req.qty > 0.0 && m.Legal()
    ensures Sound(Submit(b, req, m), opening) && Submit(b, req, m).received == b.received + [req.id]
    ensures ReplyOf(b, req.id, m) in {Accepted, TimedOut} ==>
              OneProgress(TakenIn(b, req).orders, Submit(b, req, m).orders, req.id)
  {
    hide OrderSide, ShareSide, CashSide;
    if m.fault != DISCONNECT && req.id !in b.orders {
      TakingInKeeps(b.ids, b.orders, req, b.trades, b.fills);
      SoundOrder(TakenIn(b, req), req.id, opening);
      SoundIsUsable(TakenIn(b, req), opening);
      ExecuteKeepsSound(TakenIn(b, req), req.id, m, opening);
      ExecuteProgresses(TakenIn(b, req), req.id, m);
    }
  }

  ghost predicate OnlyProgress(before: map<string, PaperOrder>, after: map<string, PaperOrder>) {
    before.Keys == after.Keys && forall id :: id in before ==> Progress(before[id].state, after[id].state)
  }

  lemma SoundIsUsable(b: Broker, opening: real)
    requires Sound(b, opening)
    ensures Wired(b.ids, b.orders) && LongOnly(b.positions)
  {
  }

  lemma CancelKeepsSound(b: Broker, id: string, m: Market, opening: real)
    requires Sound(b, opening)
    ensures Sound(Cancel(b, id, m), opening) && Cancel(b, id, m).received == b.received
  {
    if CancelReplyOf(b, id, m) == CancelAccepted {
      SoundOrder(b, id, opening);
      RestatedIsSound(b, id, CANCELLED, opening);
    }
  }

  lemma SettleKeepsSound(b: Broker, opening: real)
    requires Sound(b, opening)
    ensures Sound(Settle(b), opening)
  {
  }

  // ----- any call -----

  datatype BrokerOp = SubmitOp(req: Request, m: Market) | PollOp(m: Market) | CancelOp(id: string, m: Market) | SettleOp

  ghost function Handle(b: Broker, op: BrokerOp): Broker
    requires Wired(b.ids, b.orders) && LongOnly(b.positions)
  {
    match op
    case SubmitOp(req, m) => Submit(b, req, m)
    case PollOp(m) => PollResting(b, m)
    case CancelOp(id, m) => Cancel(b, id, m)
    case SettleOp => Settle(b)
  }

  function Opened(opening: real, feeBps: real, slipBps: real): Broker {
    Broker(feeBps, slipBps, opening, 0.0, [], map[], map[], [], [], [])
  }

  lemma OpenedIsSound(opening: real, feeBps: real, slipBps: real)
    requires opening >= 0.0 && ProperRates(feeBps, slipBps)
    ensures Sound(Opened(opening, feeBps, slipBps), opening)
  {
  }

  /** Signed shares of a fill, dust included. */
  function NetShares(symbol: string): Trade -> real {
    (t: Trade) => if t.symbol != symbol then 0.0 else if t.side == BUY then t.qty else -t.qty
  }

  predicate DropsDust(t: Trade, symbol: string) {
    t.symbol == symbol && t.side == SELL && t.dropped != 0.0
  }

  /** How many sales of a symbol closed the position with dust left over. */
  ghost function DustySales(trades: seq<Trade>, symbol: string): nat {
    if trades == [] then 0
    else DustySales(trades[..|trades| - 1], symbol) + if DropsDust(trades[|trades| - 1], symbol) then 1 else 0
  }

  lemma ShorterDropsRightly(trades: seq<Trade>, n: nat)
    requires LittleDropped(trades) && n <= |trades|
    ensures LittleDropped(trades[..n])
  {
    forall k | 0 <= k < n
      ensures DropsRightly(trades[..n], k)
    {
      assert DropsRightly(trades, k);
      assert trades[..n][..k] == trades[..k];
    }
  }

  lemma {:induction false} DustIsAllThatIsLost(trades: seq<Trade>, symbol: string)
    requires LittleDropped(trades)
    ensures Abs(SumBy(trades, SharesOfTrade(symbol)) - SumBy(trades, NetShares(symbol))) <= Dust(DustySales(trades, symbol))
  {
    if trades != [] {
      var n := |trades| - 1;
      assert DropsRightly(trades, n);
      ShorterDropsRightly(trades, n);
      DustIsAllThatIsLost(trades[..n], symbol);
    }
  }

  /**
   Each order's filled quantity is the sum of its fills and never exceeds the request; its
   fills are its own, in order.
   */
  ghost predicate FillsConserved(b: Broker) {
    forall id :: id in b.orders ==>
      && b.orders[id].filledQty == SumBy(b.trades, QtyOfOrder(id)) <= b.orders[id].request.qty
      && b.orders[id].fills == FillsOf(b.fills, id)
  }

  /**
   Total cash is the opening cash less purchases and fees plus net sale proceeds; settled
   cash stays at or above the tolerance.
   */
  ghost predicate CashConserved(b: Broker, opening: real) {
    && b.settled + b.unsettled == opening + SumBy(b.trades, CashOfTrade())
    && b.settled >= -EPS && b.unsettled >= 0.0
  }

  /** Positions are non-negative and equal net fills up to one tolerance per dusty closing sale. */
  ghost predicate PositionConserved(b: Broker, s: string) {
    && b.PositionQty(s) >= 0.0
    && Abs(b.PositionQty(s) - SumBy(b.trades, NetShares(s))) <= Dust(DustySales(b.trades, s))
  }

  ghost predicate Conserved(b: Broker, opening: real) {
    FillsConserved(b) && CashConserved(b, opening) && forall s :: PositionConserved(b, s)
  }

  lemma SoundIsConserved(b: Broker, opening: real)
    requires Sound(b, opening)
    ensures Conserved(b, opening)
  {
    forall id | id in b.orders
      ensures b.orders[id].filledQty == SumBy(b.trades, QtyOfOrder(id)) <= b.orders[id].request.qty
      ensures b.orders[id].fills == FillsOf(b.fills, id)
    {
      assert OrderSound(b.orders[id]) && AddsUp(b.orders[id], id, b.trades, b.fills);
    }
    forall s
      ensures PositionConserved(b, s)
    {
      DustIsAllThatIsLost(b.trades, s);
      assert QtyIn(b.positions, s) == SumBy(b.trades, SharesOfTrade(s));
    }
  }
}
