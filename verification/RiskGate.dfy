/** The master risk controller's gate (services/risk/master_controller.py). */
module RiskGate {
  import opened Execution
  import opened Intents
  import opened Numeric
  import opened PaperBrokers
  import opened Products
  import opened RiskConfigs
  import opened RiskStates
  import opened Wrappers

  datatype Throttle = UNTHROTTLED | REDUCED_SIZE | NO_NEW_ENTRY | REVIEW_SAFE_MODE

  datatype Session = OPEN | CLOSED | HALTED

  datatype DataHealth = OK | DEGRADED | HALT_ENTRIES

  datatype View = View(
    equity: real, settledCash: real, exposure: real, positionQty: map<string, real>,
    themeExposure: map<string, real>, themes: map<string, seq<string>>, drawdown: real, stopPlan: bool,
    gapRisk: real, advShares: real, reconciled: bool, health: DataHealth, connected: bool,
    spread: real, knownIds: set<string>, signalAge: real, margin: real)

  function ThrottleLevel(cfg: RiskConfig, drawdown: real): Throttle {
    if drawdown >= cfg.safeModeAt then REVIEW_SAFE_MODE
    else if drawdown >= cfg.noNewEntryAt then NO_NEW_ENTRY
    else if drawdown >= cfg.reducedSizeAt then REDUCED_SIZE
    else UNTHROTTLED
  }

  datatype Check =
    | PriceableOrder | Standing | Leverage | CashSettled | NoShort | TotalExposure | PositionSize | Liquidity
    | StopExists | ThemeConcentration | GapRisk | BrokerConnected | Reconciled | MarketOpen | Health
    | NoMargin | DuplicateOrder | StaleOrder | Spread

  /** The checks made of an order, in order; only the third differs between buys and sells. */
  function ChecksOf(side: Side): seq<Check> {
    [PriceableOrder, Standing, Leverage, if side == BUY then CashSettled else NoShort, TotalExposure, PositionSize,
     Liquidity, StopExists, ThemeConcentration, GapRisk, BrokerConnected, Reconciled, MarketOpen, Health,
     NoMargin, Check.DuplicateOrder, StaleOrder, Spread]
  }

  predicate IsExit(i: OrderIntent) {
    i.side == SELL && i.protective
  }

  /** The first of the given price, the limit and the stop that is present and not zero. */
  function PriceOf(i: OrderIntent, entry: real): real {
    if entry != 0.0 then entry
    else
      match i.kind
      case MarketOrder => 0.0
      case LimitOrder(price) => price
      case StopOrder(price) => price
  }

  predicate EntryAllowed(cfg: RiskConfig, state: RiskState, drawdown: real) {
    state == NORMAL && ThrottleLevel(cfg, drawdown) in {UNTHROTTLED, REDUCED_SIZE}
  }

  predicate BuyPasses(cfg: RiskConfig, v: View, i: OrderIntent, value: real, c: Check) {
    match c
    case Leverage => v.equity > 0.0 && (v.exposure + value) / v.equity <= cfg.maxLeverage + EPS
    case CashSettled => value <= v.settledCash + EPS
    case TotalExposure => v.exposure + value <= ExposureCap(cfg, v.equity) + EPS
    case PositionSize => value <= Mul(v.equity, cfg.maxPosition) + EPS
    case Liquidity => i.qty <= Mul(v.advShares, cfg.maxParticipation) + EPS
    case ThemeConcentration =>
      forall theme :: theme in ThemesOf(v.themes, i.symbol) ==>
        Lookup(v.themeExposure, theme) + value <= Mul(v.equity, cfg.maxTheme) + EPS
    case _ => true
  }

  predicate Passes(
    cfg: RiskConfig, state: RiskState, v: View, session: Session, i: OrderIntent, price: real, c: Check) {
    match c
    case PriceableOrder => i.side == BUY ==> price > 0.0
    case Standing => if IsExit(i) then state != FULL_BROKER_DISCONNECT else EntryAllowed(cfg, state, v.drawdown)
    case NoShort => i.qty <= Lookup(v.positionQty, i.symbol) + EPS
    case StopExists => IsExit(i) || v.stopPlan
    case GapRisk => IsExit(i) || v.gapRisk <= cfg.maxGapRisk
    case BrokerConnected => v.connected
    case Reconciled => IsExit(i) || v.reconciled
    case MarketOpen => session == OPEN || (IsExit(i) && session != HALTED)
    case Health => IsExit(i) || v.health != HALT_ENTRIES
    case NoMargin => Abs(v.margin) <= EPS
    case DuplicateOrder => i.id !in v.knownIds
    case StaleOrder => IsExit(i) || v.signalAge <= cfg.staleAfter
    case Spread => IsExit(i) || v.spread <= cfg.maxSpread
    case _ => i.side == BUY ==> BuyPasses(cfg, v, i, Mul(i.qty, price), c)
  }

  /** The checks of `checks` that fail, in order. */
  function FailedOf(
    cfg: RiskConfig, state: RiskState, v: View, session: Session, i: OrderIntent, price: real, checks: seq<Check>): seq<Check>
  {
    if checks == [] then []
    else
      var n := |checks| - 1;
      FailedOf(cfg, state, v, session, i, price, checks[..n]) +
        if Passes(cfg, state, v, session, i, price, checks[n]) then [] else [checks[n]]
  }

  function Failed(
    cfg: RiskConfig, state: RiskState, v: View, session: Session, i: OrderIntent, entry: real): seq<Check> {
    FailedOf(cfg, state, v, session, i, PriceOf(i, entry), ChecksOf(i.side))
  }

  datatype Verdict = Approved(approval: Approval) | Rejected(id: string, failed: seq<Check>)

  /** Everything the approval's hash covers; the gate knows no take-profit and only day orders. */
  function PayloadOf(i: OrderIntent): Payload {
    Payload(i.symbol, i.side, i.qty, i.kind, None, "DAY", i.id)
  }

  function Mint(key: string, approvalId: string, i: OrderIntent): Approval {
    Approval(approvalId, i.id, i.symbol, i.side, i.qty, PayloadOf(i),
             Signature(key, approvalId, i.id, i.symbol, i.side, i.qty, PayloadOf(i)))
  }

  function Review(
    cfg: RiskConfig, key: string, state: RiskState, v: View, session: Session, i: OrderIntent, entry: real,
    approvalId: string): Verdict
  {
    var failed := Failed(cfg, state, v, session, i, entry);
    if failed == [] then Approved(Mint(key, approvalId, i)) else Rejected(i.id, failed)
  }

  // ----- what a verdict means -----

  lemma {:induction false} NothingFailed(
    cfg: RiskConfig, state: RiskState, v: View, session: Session, i: OrderIntent, price: real, checks: seq<Check>)
    ensures FailedOf(cfg, state, v, session, i, price, checks) == [] <==>
      forall c :: c in checks ==> Passes(cfg, state, v, session, i, price, c)
  {
    hide Passes;
    if checks != [] {
      NothingFailed(cfg, state, v, session, i, price, checks[..|checks| - 1]);
    }
  }

  lemma {:induction false} SameFailures(
    cfg: RiskConfig, state: RiskState, v: View, session: Session, state': RiskState, v': View, session': Session,
    i: OrderIntent, price: real, checks: seq<Check>)
    requires forall c :: c in checks ==>
      (Passes(cfg, state, v, session, i, price, c) <==> Passes(cfg, state', v', session', i, price, c))
    ensures FailedOf(cfg, state, v, session, i, price, checks) == FailedOf(cfg, state', v', session', i, price, checks)
  {
    hide Passes;
    if checks != [] {
      SameFailures(cfg, state, v, session, state', v', session', i, price, checks[..|checks| - 1]);
    }
  }

  /** What a protective exit still depends on: a connection, shares to sell, no margin, a new id, no market halt. */
  predicate SameForExits(state: RiskState, v: View, session: Session, state': RiskState, v': View, session': Session) {
    && (state == FULL_BROKER_DISCONNECT <==> state' == FULL_BROKER_DISCONNECT)
    && v.connected == v'.connected && v.positionQty == v'.positionQty && v.margin == v'.margin
    && v.knownIds == v'.knownIds
    && (session == HALTED <==> session' == HALTED)
  }

  /**
   Halting entries never holds back a protective exit: no stop state short of a disconnect, no drawdown, stale signal,
   reconciliation break, data halt, spread, gap score or closed session changes its verdict.
   */
  lemma HaltsNeverBlockExits(
    cfg: RiskConfig, key: string, state: RiskState, v: View, session: Session,
    state': RiskState, v': View, session': Session, i: OrderIntent, entry: real, approvalId: string)
    requires IsExit(i) && SameForExits(state, v, session, state', v', session')
    ensures Review(cfg, key, state, v, session, i, entry, approvalId) ==
            Review(cfg, key, state', v', session', i, entry, approvalId)
  {
    SameFailures(cfg, state, v, session, state', v', session', i, PriceOf(i, entry), ChecksOf(i.side));
  }

  /** A deeper drawdown never lets in an entry that a shallower one kept out, however the ladder is configured. */
  lemma DeeperNeverReopens(cfg: RiskConfig, state: RiskState, drawdown: real, deeper: real)
    requires drawdown <= deeper && EntryAllowed(cfg, state, deeper)
    ensures EntryAllowed(cfg, state, drawdown)
  {
  }

  // ----- runs of reviews, and what the execution engine can then send -----

  datatype Asked = Asked(state: RiskState, view: View, session: Session, intent: OrderIntent, entry: real, approvalId: string)

  function Answer(cfg: RiskConfig, key: string, a: Asked): Verdict {
    Review(cfg, key, a.state, a.view, a.session, a.intent, a.entry, a.approvalId)
  }

  /** The decisions log after a run of reviews. */
  function Decided(cfg: RiskConfig, key: string, run: seq<Asked>): seq<Verdict> {
    if run == [] then [] else Decided(cfg, key, run[..|run| - 1]) + [Answer(cfg, key, run[|run| - 1])]
  }

  /** The schema's pairing of an order with its approval. */
  predicate Paired(order: ApprovedOrder) {
    var a, i := order.approval, order.intent;
    a.id == i.id && a.symbol == i.symbol && a.side == i.side && a.qty == i.qty && a.hash == PayloadOf(i)
  }

  lemma {:induction false} ApprovalsWereReviewed(cfg: RiskConfig, key: string, run: seq<Asked>, approval: Approval)
    returns (k: nat)
    requires Approved(approval) in Decided(cfg, key, run)
    ensures k < |run| && approval == Mint(key, run[k].approvalId, run[k].intent)
    ensures Failed(cfg, run[k].state, run[k].view, run[k].session, run[k].intent, run[k].entry) == []
  {
    hide Failed;
    var n := |run| - 1;
    if Approved(approval) in Decided(cfg, key, run[..n]) {
      k := ApprovalsWereReviewed(cfg, key, run[..n], approval);
    } else {
      k := n;
    }
  }

  /**
   Whatever the engine hands to the broker on the strength of an approval from this controller's log is, in symbol,
   side, quantity and kind, an order some review passed on every check.
   */
  lemma OnlyReviewedOrdersAreSent(
    cfg: RiskConfig, key: string, run: seq<Asked>, m: Memory, w: World, environment: string, order: ApprovedOrder,
    snapshot: Option<Snapshot>, market: Market, e: Effect) returns (k: nat)
    requires Approved(order.approval) in Decided(cfg, key, run) && Paired(order)
    requires snapshot.Some? ==> snapshot.value.Frozen()
    requires e in SubmitOrder(m, w, key, environment, order, snapshot, market).trace && e.Sent?
    ensures k < |run|
    ensures var i := run[k].intent; e.req == Request(i.id, i.symbol, i.side, i.qty, i.kind)
    ensures forall c :: c in ChecksOf(run[k].intent.side) ==> Passes(
      cfg, run[k].state, run[k].view, run[k].session, run[k].intent, PriceOf(run[k].intent, run[k].entry), c)
  {
    hide SubmitOrder, Decided, Passes;
    k := ApprovalsWereReviewed(cfg, key, run, order.approval);
    RequestIsTheApprovedOrder(m, w, key, environment, order, snapshot, market, e);
    var a := run[k];
    NothingFailed(cfg, a.state, a.view, a.session, a.intent, PriceOf(a.intent, a.entry), ChecksOf(a.intent.side));
  }

  /**
   And an order the gate has just approved is not refused by an engine that has not seen it,
   whatever take-profit and time in force its snapshot was frozen with.
   */
  lemma ApprovedOrdersAreAccepted(
    key: string, approvalId: string, i: OrderIntent, m: Memory, w: World, environment: string, snapshot: Snapshot)
    requires i.environment == environment && i.id !in m.submitted && i.id !in w.rows
    requires snapshot.approvalId == approvalId
    requires snapshot.hash == PayloadOf(i).(takeProfit := snapshot.takeProfit, timeInForce := snapshot.timeInForce)
    ensures Paired(ApprovedOrder(i, Mint(key, approvalId, i)))
    ensures Refusal(m, w.rows, key, environment, ApprovedOrder(i, Mint(key, approvalId, i)), Some(snapshot)) == None
  {
  }

  class MasterRiskController {
    const cfg: RiskConfig
    const key: string
    var state: RiskState
    var log: seq<Verdict>

    constructor (cfg: RiskConfig, key: string)
      ensures state == NORMAL && log == [] && this.cfg == cfg && this.key == key
    {
      this.cfg, this.key, state, log := cfg, key, NORMAL, [];
    }

    method SetState(next: RiskState)
      modifies this`state
      ensures state == next
    {
      state := next;
    }

    method ReviewOrder(
      i: OrderIntent, v: View, session: Session, entry: real, approvalId: string) returns (verdict: Verdict)
      modifies this`log
      ensures verdict == Review(cfg, key, state, v, session, i, entry, approvalId)
      ensures log == old(log) + [verdict]
    {
      hide Passes;
      var price, checks := PriceOf(i, entry), ChecksOf(i.side);
      var failed := [];
      for k := 0 to |checks|
        invariant failed == FailedOf(cfg, state, v, session, i, price, checks[..k])
      {
        assert checks[..k + 1][..k] == checks[..k];
        if !Passes(cfg, state, v, session, i, price, checks[k]) {
          failed := failed + [checks[k]];
        }
      }
      assert checks[..|checks|] == checks;
      verdict := if failed == [] then Approved(Mint(key, approvalId, i)) else Rejected(i.id, failed);
      log := log + [verdict];
    }
  }
}
