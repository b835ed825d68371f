/**
 The limits a position size has to keep, all of them, and that it is the largest that keeps
 them (services/position_sizing/engine.py).
 */
module SizingLimits {
  import opened Numeric
  import opened PositionSizing
  import opened Products
  import opened RiskConfigs
  import opened Wrappers

  /** What is at risk when the stop is hit, against the throttled budget, the confidence and the last loss. */
  ghost predicate RiskKept(cfg: RiskConfig, r: Request, q: real) {
    var atRisk := Mul(q, r.plan.entry - r.plan.stop);
    && atRisk <= Mul(Mul(Mul(r.ctx.equity, cfg.riskBudget), r.ctx.throttle), Max(0.25, r.confidence))
    && (r.lastLoss.Some? ==> atRisk <= r.lastLoss.value)
  }

  /** So much of every limit is used: all of it, or the penalty's share for a correlated candidate. */
  function Usable(cfg: RiskConfig, r: Request): real {
    if r.ctx.correlation > cfg.correlationThreshold then cfg.correlationFactor else 1.0
  }

  /** What the purchase costs, against what is left of the position limit, of settled cash, of volume and of each theme. */
  ghost predicate CostKept(cfg: RiskConfig, r: Request, q: real) {
    var cost, k := Mul(q, r.plan.entry), Usable(cfg, r);
    var symbol := r.proposal.symbol;
    var held := if symbol in r.ctx.held then r.ctx.held[symbol] else 0.0;
    && cost <= Mul(Mul(r.ctx.equity, cfg.maxPosition) - held, k)
    && cost <= Mul(r.ctx.settledCash, k)
    && cost <= Mul(Mul(Mul(r.ctx.advShares, cfg.maxParticipation), r.plan.entry), k)
    && (symbol in r.ctx.themes ==> forall theme :: theme in r.ctx.themes[symbol] ==>
          cost <= Mul(Mul(r.ctx.equity, cfg.maxTheme) - (if theme in r.ctx.themeExposure then r.ctx.themeExposure[theme] else 0.0), k))
  }

  ghost predicate Kept(cfg: RiskConfig, r: Request, q: real) {
    RiskKept(cfg, r, q) && CostKept(cfg, r, q)
  }

  /** The spread is more than one percent of the mid price; the size is then halved. */
  predicate WiderThanOnePercent(r: Request) {
    r.ask - r.bid > 0.01 * ((r.bid + r.ask) / 2.0)
  }

  lemma WideIff(r: Request)
    requires r.Valid()
    ensures WideSpread(r) <==> WiderThanOnePercent(r)
  {
    var spread, mid := r.ask - r.bid, (r.bid + r.ask) / 2.0;
    assert spread / mid * mid == spread;
    assert spread / mid > 0.01 <==> spread > 0.01 * mid by { QuotientAbove(spread, mid, 0.01); }
  }

  lemma QuotientAbove(x: real, y: real, c: real)
    requires y > 0.0
    ensures x / y > c <==> x > c * y
  {
    DivideMul(x, y);
    if x / y > c {
      AddMul(x / y, c, y);
      MulPositive(x / y - c, y);
    } else {
      MulLe(x / y, c, y);
    }
  }

  // ----- the room that is left -----

  /** Whether `cost` fits `k` times the room: what a theme, the position or the cash leaves of it. */
  lemma {:induction false} FitsThemes(cfg: RiskConfig, ctx: Context, themes: seq<string>, room: real, cost: real, k: real)
    requires cost > 0.0 && k >= 0.0
    ensures cost <= Mul(WithinThemes(cfg, ctx, themes, room), k) <==>
            cost <= Mul(room, k) && forall t :: t in themes ==> cost <= Mul(ThemeRoom(cfg, ctx, t), k)
  {
    hide ThemeRoom, Mul;
    if themes != [] {
      var n := |themes| - 1;
      FitsThemes(cfg, ctx, themes[..n], room, cost, k);
      FitsBoth(WithinThemes(cfg, ctx, themes[..n], room), ThemeRoom(cfg, ctx, themes[n]), cost, k);
      assert themes == themes[..n] + [themes[n]];
    }
  }

  lemma FitsBoth(x: real, y: real, cost: real, k: real)
    requires k >= 0.0
    ensures cost <= Mul(Min(x, y), k) <==> cost <= Mul(x, k) && cost <= Mul(y, k)
  {
    hide Mul;
    if x <= y { MulLe(x, y, k); } else { MulLe(y, x, k); }
  }

  /** Room below nothing is no room: a positive cost fits neither. */
  lemma FitsPositive(x: real, cost: real, k: real)
    requires cost > 0.0 && k >= 0.0
    ensures cost <= Mul(Max(0.0, x), k) <==> cost <= Mul(x, k)
  {
    if x < 0.0 {
      MulLe(x, 0.0, k);
      MulZero(k);
    }
  }

  lemma FitsNotional(cfg: RiskConfig, r: Request, q: real)
    requires cfg.Valid() && r.Valid() && Mul(q, r.plan.entry) > 0.0
    ensures Mul(q, r.plan.entry) <= MaxNotional(cfg, r) <==> CostKept(cfg, r, q)
  {
    hide Mul, WithinThemes, Room;
    var k, cost := Usable(cfg, r), Mul(q, r.plan.entry);
    RoomFits(cfg, r, cost, k);
    CostKeptIff(cfg, r, q, k);
    MulOne(Room(cfg, r));
  }

  lemma RoomFits(cfg: RiskConfig, r: Request, cost: real, k: real)
    requires cost > 0.0 && k >= 0.0
    ensures cost <= Mul(Room(cfg, r), k) <==>
            && cost <= Mul(PositionRoom(cfg, r), k) && cost <= Mul(r.ctx.settledCash, k) && cost <= Mul(LiquidityRoom(cfg, r), k)
            && forall t :: t in ThemesOf(r.ctx.themes, r.proposal.symbol) ==> cost <= Mul(ThemeRoom(cfg, r.ctx, t), k)
  {
    hide Mul, WithinThemes, PositionRoom, LiquidityRoom, ThemeRoom;
    var cash := Min(PositionRoom(cfg, r), r.ctx.settledCash);
    FitsThemes(cfg, r.ctx, ThemesOf(r.ctx.themes, r.proposal.symbol), Min(cash, LiquidityRoom(cfg, r)), cost, k);
    FitsBoth(cash, LiquidityRoom(cfg, r), cost, k);
    FitsBoth(PositionRoom(cfg, r), r.ctx.settledCash, cost, k);
  }

  lemma CostKeptIff(cfg: RiskConfig, r: Request, q: real, k: real)
    requires Mul(q, r.plan.entry) > 0.0 && k == Usable(cfg, r) >= 0.0
    ensures var cost := Mul(q, r.plan.entry);
      CostKept(cfg, r, q) <==>
            && cost <= Mul(PositionRoom(cfg, r), k) && cost <= Mul(r.ctx.settledCash, k) && cost <= Mul(LiquidityRoom(cfg, r), k)
            && forall t :: t in ThemesOf(r.ctx.themes, r.proposal.symbol) ==> cost <= Mul(ThemeRoom(cfg, r.ctx, t), k)
  {
    hide Mul;
    var cost, symbol := Mul(q, r.plan.entry), r.proposal.symbol;
    FitsPositive(Mul(r.ctx.equity, cfg.maxPosition) - Lookup(r.ctx.held, symbol), cost, k);
    forall t | t in ThemesOf(r.ctx.themes, symbol)
      ensures cost <= Mul(ThemeRoom(cfg, r.ctx, t), k) <==>
              cost <= Mul(Mul(r.ctx.equity, cfg.maxTheme) - Lookup(r.ctx.themeExposure, t), k)
    {
      FitsPositive(Mul(r.ctx.equity, cfg.maxTheme) - Lookup(r.ctx.themeExposure, t), cost, k);
    }
  }

  lemma FitsRisk(cfg: RiskConfig, r: Request, q: real)
    requires r.Valid()
    ensures Mul(q, r.plan.entry - r.plan.stop) <= Risk(cfg, r) <==> RiskKept(cfg, r, q)
  {
    hide Mul;
  }

  // ----- the size -----

  /** The size before halving and truncation is the largest that keeps every limit. */
  lemma LargestKept(cfg: RiskConfig, r: Request, q: real)
    requires cfg.Valid() && r.Valid() && q > 0.0
    ensures q <= Capped(cfg, r) <==> Kept(cfg, r, q)
  {
    hide Mul, Risk, MaxNotional, RiskKept, CostKept;
    var entry, distance := r.plan.entry, r.plan.entry - r.plan.stop;
    MulPositive(q, entry);
    FitsNotional(cfg, r, q);
    FitsRisk(cfg, r, q);
    AtMost(q, Risk(cfg, r), distance);
    AtMost(q, MaxNotional(cfg, r), entry);
    AtMost(Uncapped(cfg, r), MaxNotional(cfg, r), entry);
  }

  lemma AtMost(q: real, x: real, k: real)
    requires k > 0.0
    ensures q <= x / k <==> Mul(q, k) <= x
  {
    hide Mul;
    DivideMul(x, k);
    if q <= x / k {
      MulLe(q, x / k, k);
    } else if Mul(q, k) <= x {
      CancelLe(q, x / k, k);
    }
  }

  /**
   An accepted size keeps every limit: risk against budget, confidence and last loss; cost
   against position, cash, volume and themes, less the correlation penalty. On a wide spread
   twice the size still would.
   */
  lemma AcceptedKeepsLimits(cfg: RiskConfig, r: Request)
    requires cfg.Valid() && r.Valid() && Size(cfg, r).Accepted?
    ensures var q := Size(cfg, r).sized.qty;
      && q > 0.0 && Kept(cfg, r, q) && (WiderThanOnePercent(r) ==> Kept(cfg, r, 2.0 * q))
      && Mul(q, r.plan.entry) >= 1.0 && r.plan.gapRisk <= cfg.maxGapRisk
  {
    hide Mul, Kept, Capped, Truncate4, WideSpread;
    AcceptedQty(cfg, r);
    WideIff(r);
    var q, capped := Size(cfg, r).sized.qty, Capped(cfg, r);
    TruncateDown(if WideSpread(r) then capped * 0.5 else capped);
    LargestKept(cfg, r, q);
    LargestKept(cfg, r, 2.0 * q);
  }

  /**
   And no limit is left unused: any quantity that keeps them all (on a wide spread, half of
   it) exceeds the size by less than the last of its four decimals, and a candidate whose gap
   risk is acceptable is turned away only if no such quantity is worth a unit of money.
   */
  lemma SizeIsLargest(cfg: RiskConfig, r: Request, q: real)
    requires cfg.Valid() && r.Valid() && r.plan.gapRisk <= cfg.maxGapRisk
    requires q > 0.0 && Kept(cfg, r, q)
    ensures var most := if WiderThanOnePercent(r) then 0.5 * q else q;
      && (Size(cfg, r).Accepted? ==> most < Size(cfg, r).sized.qty + 0.0001)
      && (!Size(cfg, r).Accepted? ==> Mul(most - 0.0001, r.plan.entry) < 1.0)
  {
    hide Mul, Kept, Capped, Truncate4, WideSpread;
    WideIff(r);
    LargestKept(cfg, r, q);
    var capped, most := Capped(cfg, r), if WiderThanOnePercent(r) then 0.5 * q else q;
    TruncateDown(if WideSpread(r) then capped * 0.5 else capped);
    var size := Qty(cfg, r);
    assert most - 0.0001 < size;
    MulLe(most - 0.0001, size, r.plan.entry);
    if size <= 0.0 {
      MulLe(size, 0.0, r.plan.entry);
      MulZero(r.plan.entry);
    }
  }
}
