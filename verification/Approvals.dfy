/** What the gate's verdict comes down to in numbers (services/risk/master_controller.py). */
module Approvals {
  import opened Execution
  import opened Intents
  import opened Numeric
  import opened PaperBrokers
  import opened Products
  import opened RiskConfigs
  import opened RiskGate
  import opened RiskStates
  import opened Wrappers

  /** The price the order is judged at: the entry price, else its own limit or stop, else none. */
  ghost predicate JudgedAt(i: OrderIntent, entry: real, price: real) {
    && (entry != 0.0 ==> price == entry)
    && (entry == 0.0 ==>
          && (i.kind.LimitOrder? ==> price == i.kind.limit) && (i.kind.StopOrder? ==> price == i.kind.stop)
          && (i.kind.MarketOrder? ==> price == 0.0))
  }

  lemma OnePrice(i: OrderIntent, entry: real, price: real)
    requires JudgedAt(i, entry, price)
    ensures price == PriceOf(i, entry)
  {
  }

  /** What stands in the way of any order, entry or exit. */
  ghost predicate Sendable(v: View, i: OrderIntent) {
    v.connected && -EPS <= v.margin <= EPS && i.id !in v.knownIds
  }

  /** What stands in the way of everything but a protective exit. */
  ghost predicate EntriesOpen(cfg: RiskConfig, state: RiskState, v: View, session: Session) {
    && state == NORMAL && v.drawdown < cfg.noNewEntryAt && v.drawdown < cfg.safeModeAt
    && v.stopPlan && v.gapRisk <= cfg.maxGapRisk && v.reconciled && session == OPEN
    && v.health in {OK, DEGRADED} && v.signalAge <= cfg.staleAfter && v.spread <= cfg.maxSpread
  }

  /** No theme of the symbol grows beyond its share of equity. */
  ghost predicate ThemesBear(cfg: RiskConfig, v: View, symbol: string, value: real) {
    symbol in v.themes ==>
      forall theme :: theme in v.themes[symbol] ==>
        (if theme in v.themeExposure then v.themeExposure[theme] else 0.0) + value <= Mul(v.equity, cfg.maxTheme) + EPS
  }

  /** What the account and the market can bear of a purchase of `qty` for `value`. */
  ghost predicate Bearable(cfg: RiskConfig, v: View, symbol: string, qty: real, value: real) {
    && v.equity > 0.0 && (v.exposure + value) / v.equity <= cfg.maxLeverage + EPS
    && value <= v.settledCash + EPS
    && v.exposure + value <= Mul(Mul(v.equity, cfg.maxTotalExposure), cfg.capStage) + EPS
    && value <= Mul(v.equity, cfg.maxPosition) + EPS
    && qty <= Mul(v.advShares, cfg.maxParticipation) + EPS
    && ThemesBear(cfg, v, symbol, value)
  }

  /** No more than is held, within one tolerance. */
  ghost predicate HeldFor(v: View, symbol: string, qty: real) {
    qty <= (if symbol in v.positionQty then v.positionQty[symbol] else 0.0) + EPS
  }

  lemma ApprovedIff(
    cfg: RiskConfig, key: string, state: RiskState, v: View, session: Session, i: OrderIntent, entry: real,
    approvalId: string)
    ensures Review(cfg, key, state, v, session, i, entry, approvalId).Approved? <==>
            forall c :: c in ChecksOf(i.side) ==> Passes(cfg, state, v, session, i, PriceOf(i, entry), c)
  {
    hide Passes, ChecksOf;
    NothingFailed(cfg, state, v, session, i, PriceOf(i, entry), ChecksOf(i.side));
  }

  lemma CheckIsMade(side: Side, c: Check)
    ensures c in ChecksOf(side) <==> c != (if side == BUY then NoShort else CashSettled)
  {
    var all := ChecksOf(side);
    match c
    case CashSettled => assert side == BUY ==> all[3] == c;
    case NoShort => assert side == SELL ==> all[3] == c;
    case PriceableOrder => assert all[0] == c;
    case Standing => assert all[1] == c;
    case Leverage => assert all[2] == c;
    case TotalExposure => assert all[4] == c;
    case PositionSize => assert all[5] == c;
    case Liquidity => assert all[6] == c;
    case StopExists => assert all[7] == c;
    case ThemeConcentration => assert all[8] == c;
    case GapRisk => assert all[9] == c;
    case BrokerConnected => assert all[10] == c;
    case Reconciled => assert all[11] == c;
    case MarketOpen => assert all[12] == c;
    case Health => assert all[13] == c;
    case NoMargin => assert all[14] == c;
    case DuplicateOrder => assert all[15] == c;
    case StaleOrder => assert all[16] == c;
    case Spread => assert all[17] == c;
  }

  lemma EveryCheck(side: Side)
    ensures forall c: Check :: c in ChecksOf(side) <==> c != (if side == BUY then NoShort else CashSettled)
  {
    hide ChecksOf;
    forall c: Check
      ensures c in ChecksOf(side) <==> c != (if side == BUY then NoShort else CashSettled)
    {
      CheckIsMade(side, c);
    }
  }

  const SENDABLE: seq<Check> := [BrokerConnected, NoMargin, Check.DuplicateOrder]

  const OPENNESS: seq<Check> := [Standing, StopExists, GapRisk, Reconciled, MarketOpen, Health, StaleOrder, Spread]

  const COST: seq<Check> := [Leverage, CashSettled, TotalExposure, PositionSize, Liquidity, ThemeConcentration]

  ghost predicate AllPass(
    cfg: RiskConfig, state: RiskState, v: View, session: Session, i: OrderIntent, price: real, checks: seq<Check>)
  {
    forall k :: 0 <= k < |checks| ==> Passes(cfg, state, v, session, i, price, checks[k])
  }

  /** A purchase is approved exactly when it has a price, entries are open, and the account can bear it. */
  lemma BuyApprovedIff(
    cfg: RiskConfig, key: string, state: RiskState, v: View, session: Session, i: OrderIntent, entry: real, price: real,
    approvalId: string)
    requires i.side == BUY && JudgedAt(i, entry, price)
    ensures Review(cfg, key, state, v, session, i, entry, approvalId).Approved? <==>
            && price > 0.0 && Sendable(v, i) && EntriesOpen(cfg, state, v, session)
            && Bearable(cfg, v, i.symbol, i.qty, Mul(i.qty, price))
  {
    hide Mul, Review, ChecksOf;
    OnePrice(i, entry, price);
    ApprovedIff(cfg, key, state, v, session, i, entry, approvalId);
    EveryCheck(BUY);
    EntryChecks(cfg, state, v, session, i, price);
    SendableChecks(cfg, state, v, session, i, price);
    BuyChecks(cfg, state, v, session, i, price);
  }

  /** The checks that every order but a protective exit has to pass, in numbers. */
  lemma EntryChecks(cfg: RiskConfig, state: RiskState, v: View, session: Session, i: OrderIntent, price: real)
    requires !(i.side == SELL && i.protective)
    ensures AllPass(cfg, state, v, session, i, price, OPENNESS) <==> EntriesOpen(cfg, state, v, session)
  {
    hide BuyPasses, Mul;
    assert OPENNESS[0] == Standing && OPENNESS[1] == StopExists && OPENNESS[2] == GapRisk && OPENNESS[3] == Reconciled;
    assert OPENNESS[4] == MarketOpen && OPENNESS[5] == Health && OPENNESS[6] == StaleOrder && OPENNESS[7] == Spread;
  }

  lemma SendableChecks(cfg: RiskConfig, state: RiskState, v: View, session: Session, i: OrderIntent, price: real)
    ensures AllPass(cfg, state, v, session, i, price, SENDABLE) <==> Sendable(v, i)
  {
    hide BuyPasses, Mul, EntryAllowed;
    assert SENDABLE[0] == BrokerConnected && SENDABLE[1] == NoMargin && SENDABLE[2] == Check.DuplicateOrder;
  }

  lemma ThemeCheck(cfg: RiskConfig, v: View, i: OrderIntent, value: real)
    ensures BuyPasses(cfg, v, i, value, ThemeConcentration) <==> ThemesBear(cfg, v, i.symbol, value)
  {
    hide Mul;
    if BuyPasses(cfg, v, i, value, ThemeConcentration) && i.symbol in v.themes {
      forall theme | theme in v.themes[i.symbol]
        ensures (if theme in v.themeExposure then v.themeExposure[theme] else 0.0) + value <= Mul(v.equity, cfg.maxTheme) + EPS
      {
        assert theme in ThemesOf(v.themes, i.symbol);
      }
    }
  }

  /** The checks of what an order costs, in numbers. */
  lemma BuyChecks(cfg: RiskConfig, state: RiskState, v: View, session: Session, i: OrderIntent, price: real)
    requires i.side == BUY
    ensures AllPass(cfg, state, v, session, i, price, COST) <==> Bearable(cfg, v, i.symbol, i.qty, Mul(i.qty, price))
    ensures Passes(cfg, state, v, session, i, price, PriceableOrder) <==> price > 0.0
  {
    hide Mul, ThemesBear, ThemesOf, Lookup;
    ThemeCheck(cfg, v, i, Mul(i.qty, price));
    assert COST[0] == Leverage && COST[1] == CashSettled && COST[2] == TotalExposure;
    assert COST[3] == PositionSize && COST[4] == Liquidity && COST[5] == ThemeConcentration;
  }

  lemma SaleChecks(cfg: RiskConfig, state: RiskState, v: View, session: Session, i: OrderIntent, price: real)
    requires i.side == SELL
    ensures Passes(cfg, state, v, session, i, price, NoShort) <==> HeldFor(v, i.symbol, i.qty)
    ensures forall c :: c in {PriceableOrder, Leverage, TotalExposure, PositionSize, Liquidity, ThemeConcentration} ==>
              Passes(cfg, state, v, session, i, price, c)
  {
  }

  /** A sale that is no protective exit is approved exactly when entries are open and the shares are held. */
  lemma SaleApprovedIff(
    cfg: RiskConfig, key: string, state: RiskState, v: View, session: Session, i: OrderIntent, entry: real,
    approvalId: string)
    requires i.side == SELL && !i.protective
    ensures Review(cfg, key, state, v, session, i, entry, approvalId).Approved? <==>
            Sendable(v, i) && EntriesOpen(cfg, state, v, session) && HeldFor(v, i.symbol, i.qty)
  {
    hide Mul, Review, ChecksOf;
    var price := PriceOf(i, entry);
    ApprovedIff(cfg, key, state, v, session, i, entry, approvalId);
    EveryCheck(SELL);
    EntryChecks(cfg, state, v, session, i, price);
    SendableChecks(cfg, state, v, session, i, price);
    SaleChecks(cfg, state, v, session, i, price);
  }

  /**
   A protective exit is approved exactly when it can be sent, the market is not halted, the
   broker is not given up as disconnected, and the shares are held.
   */
  lemma ExitApprovedIff(
    cfg: RiskConfig, key: string, state: RiskState, v: View, session: Session, i: OrderIntent, entry: real,
    approvalId: string)
    requires i.side == SELL && i.protective
    ensures Review(cfg, key, state, v, session, i, entry, approvalId).Approved? <==>
            Sendable(v, i) && HeldFor(v, i.symbol, i.qty) && session in {OPEN, CLOSED} && state != FULL_BROKER_DISCONNECT
  {
    hide Mul, Review, ChecksOf;
    var price := PriceOf(i, entry);
    ApprovedIff(cfg, key, state, v, session, i, entry, approvalId);
    EveryCheck(SELL);
    SaleChecks(cfg, state, v, session, i, price);
    ExitChecks(cfg, state, v, session, i, price);
    SendableChecks(cfg, state, v, session, i, price);
  }

  lemma ExitChecks(cfg: RiskConfig, state: RiskState, v: View, session: Session, i: OrderIntent, price: real)
    requires i.side == SELL && i.protective
    ensures forall c :: c in {StopExists, GapRisk, Reconciled, Health, StaleOrder, Spread} ==>
              Passes(cfg, state, v, session, i, price, c)
    ensures Passes(cfg, state, v, session, i, price, Standing) <==> state != FULL_BROKER_DISCONNECT
    ensures Passes(cfg, state, v, session, i, price, MarketOpen) <==> session in {OPEN, CLOSED}
  {
    hide BuyPasses, EntryAllowed;
  }

  /** An approval is signed with the gate's key and names the order, all of it; a rejection names the order. */
  lemma VerdictNamesTheOrder(
    cfg: RiskConfig, key: string, state: RiskState, v: View, session: Session, i: OrderIntent, entry: real,
    approvalId: string)
    ensures match Review(cfg, key, state, v, session, i, entry, approvalId)
            case Approved(a) =>
              && Verifies(key, a) && a.approvalId == approvalId
              && a.id == i.id && a.symbol == i.symbol && a.side == i.side && a.qty == i.qty
              && a.hash.symbol == i.symbol && a.hash.side == i.side && a.hash.qty == i.qty && a.hash.kind == i.kind
              && a.hash.id == i.id && a.hash.timeInForce == "DAY"
            case Rejected(id, failed) => id == i.id && failed != []
  {
  }
}
