/** How large an entry may be (services/position_sizing/engine.py). */
module PositionSizing {
  import opened Numeric
  import opened Products
  import opened RiskConfigs
  import opened Wrappers

  /** A long entry and its stop; the schema keeps 0 < stop < entry. */
  datatype StopPlan = StopPlan(entry: real, stop: real, gapRisk: real) {
    predicate Valid() {
      0.0 < stop < entry && 0.0 <= gapRisk <= 1.0
    }
  }

  /** `correlation` is the largest |correlation| of the candidate with what is held. */
  datatype Context = Context(
    equity: real, settledCash: real, held: map<string, real>, themeExposure: map<string, real>,
    themes: map<string, seq<string>>, correlation: real, advShares: real, throttle: real)

  /** A buy candidate with the range of returns expected of it. */
  datatype Proposal = Proposal(symbol: string, low: real, high: real)

  /** Everything one call looks at. `lastLoss` is the previous trade's risk, if that trade lost money. */
  datatype Request = Request(
    proposal: Proposal, plan: StopPlan, bid: real, ask: real, ctx: Context, confidence: real, lastLoss: Option<real>)
  {
    predicate Valid() {
      && plan.Valid() && bid > 0.0 && ask > 0.0 && 0.0 <= confidence <= 1.0
      && Lookup(ctx.held, proposal.symbol) >= 0.0 && 0.0 <= ctx.correlation <= 1.0
    }
  }

  datatype Sized = Sized(
    proposal: Proposal, plan: StopPlan, qty: real, riskAmount: real, notional: real, confidence: real)

  datatype Sizing = Accepted(sized: Sized) | GapRiskTooHigh | RoundsToZero

  function BaseRisk(cfg: RiskConfig, r: Request): real {
    Mul(Mul(Mul(r.ctx.equity, cfg.riskBudget), r.ctx.throttle), Max(0.25, Min(1.0, r.confidence)))
  }

  /** No more at risk than the trade that just lost. */
  function Risk(cfg: RiskConfig, r: Request): real {
    if r.lastLoss.Some? then Min(BaseRisk(cfg, r), r.lastLoss.value) else BaseRisk(cfg, r)
  }

  function PositionRoom(cfg: RiskConfig, r: Request): real {
    Max(0.0, Mul(r.ctx.equity, cfg.maxPosition) - Lookup(r.ctx.held, r.proposal.symbol))
  }

  function LiquidityRoom(cfg: RiskConfig, r: Request): real {
    Mul(Mul(r.ctx.advShares, cfg.maxParticipation), r.plan.entry)
  }

  function ThemeRoom(cfg: RiskConfig, ctx: Context, theme: string): real {
    Max(0.0, Mul(ctx.equity, cfg.maxTheme) - Lookup(ctx.themeExposure, theme))
  }

  /** `room` cut down to what every theme has left. */
  function WithinThemes(cfg: RiskConfig, ctx: Context, themes: seq<string>, room: real): real {
    if themes == [] then room
    else
      var n := |themes| - 1;
      Min(WithinThemes(cfg, ctx, themes[..n], room), ThemeRoom(cfg, ctx, themes[n]))
  }

  function Room(cfg: RiskConfig, r: Request): real {
    WithinThemes(
      cfg, r.ctx, ThemesOf(r.ctx.themes, r.proposal.symbol),
      Min(Min(PositionRoom(cfg, r), r.ctx.settledCash), LiquidityRoom(cfg, r)))
  }

  function MaxNotional(cfg: RiskConfig, r: Request): real {
    if r.ctx.correlation > cfg.correlationThreshold then Mul(Room(cfg, r), cfg.correlationFactor) else Room(cfg, r)
  }

  /** `int(x * 10_000) / 10_000`: truncation towards zero. */
  function Truncate4(x: real): real {
    (if x >= 0.0 then (10000.0 * x).Floor else -((-10000.0 * x).Floor)) as real / 10000.0
  }

  function WideSpread(r: Request): bool
    requires r.Valid()
  {
    (r.ask - r.bid) / ((r.bid + r.ask) / 2.0) > 0.01
  }

  function Uncapped(cfg: RiskConfig, r: Request): real
    requires r.Valid()
  {
    Risk(cfg, r) / (r.plan.entry - r.plan.stop)
  }

  function Capped(cfg: RiskConfig, r: Request): real
    requires r.Valid()
  {
    if Mul(Uncapped(cfg, r), r.plan.entry) > MaxNotional(cfg, r) then MaxNotional(cfg, r) / r.plan.entry
    else Uncapped(cfg, r)
  }

  function Qty(cfg: RiskConfig, r: Request): real
    requires r.Valid()
  {
    Truncate4(if WideSpread(r) then Capped(cfg, r) * 0.5 else Capped(cfg, r))
  }

  function Size(cfg: RiskConfig, r: Request): Sizing
    requires r.Valid()
  {
    if r.plan.gapRisk > cfg.maxGapRisk then GapRiskTooHigh
    else
      var qty := Qty(cfg, r);
      if qty <= 0.0 || Mul(qty, r.plan.entry) < 1.0 then RoundsToZero
      else
        Accepted(Sized(
          r.proposal, r.plan, qty, Round6(Mul(qty, r.plan.entry - r.plan.stop)), Round6(Mul(qty, r.plan.entry)),
          r.confidence))
  }

  // ----- what an accepted size respects -----

  lemma TruncateDown(x: real)
    ensures Truncate4(x) > 0.0 ==> Truncate4(x) <= x
    ensures x - 0.0001 < Truncate4(x)
    ensures x <= 0.0 ==> Truncate4(x) <= 0.0
  {
  }

  lemma {:induction false} ThemesBound(cfg: RiskConfig, ctx: Context, themes: seq<string>, room: real)
    ensures WithinThemes(cfg, ctx, themes, room) <= room
    ensures forall t :: t in themes ==> WithinThemes(cfg, ctx, themes, room) <= ThemeRoom(cfg, ctx, t)
  {
    hide ThemeRoom;
    if themes != [] {
      ThemesBound(cfg, ctx, themes[..|themes| - 1], room);
    }
  }

  /** A positive size costs no more than the cap, and risks no more than the budget. */
  lemma QtyWithin(cfg: RiskConfig, r: Request)
    requires r.Valid() && Qty(cfg, r) > 0.0
    ensures Mul(Qty(cfg, r), r.plan.entry) <= MaxNotional(cfg, r)
    ensures Mul(Qty(cfg, r), r.plan.entry - r.plan.stop) <= Risk(cfg, r)
  {
    hide Risk, MaxNotional, Truncate4, Mul;
    var qty, capped, entry, distance := Qty(cfg, r), Capped(cfg, r), r.plan.entry, r.plan.entry - r.plan.stop;
    TruncateDown(if WideSpread(r) then capped * 0.5 else capped);
    assert 0.0 < qty <= capped;
    DivideMul(Risk(cfg, r), distance);
    DivideMul(MaxNotional(cfg, r), entry);
    MulLe(qty, capped, entry);
    assert Mul(capped, entry) <= MaxNotional(cfg, r);
    if Mul(Uncapped(cfg, r), entry) > MaxNotional(cfg, r) {
      if Uncapped(cfg, r) < capped {
        MulLe(Uncapped(cfg, r), capped, entry);
      }
    }
    MulLe(qty, Uncapped(cfg, r), distance);
  }

  /** After a loss the next entry risks no more than the losing trade did, and never more than the throttled budget. */
  lemma NeverDoublesDown(cfg: RiskConfig, r: Request)
    requires cfg.Valid() && r.Valid() && Size(cfg, r).Accepted?
    ensures var risk := Mul(Size(cfg, r).sized.qty, r.plan.entry - r.plan.stop);
      && (r.lastLoss.Some? ==> risk <= r.lastLoss.value)
      && risk <= Mul(Mul(r.ctx.equity, cfg.riskBudget), r.ctx.throttle)
  {
    hide Mul, Qty, Size;
    AcceptedQty(cfg, r);
    QtyWithin(cfg, r);
    var budget, scale := Mul(Mul(r.ctx.equity, cfg.riskBudget), r.ctx.throttle), Max(0.25, Min(1.0, r.confidence));
    MulPositive(Qty(cfg, r), r.plan.entry - r.plan.stop);
    assert Mul(budget, scale) > 0.0;
    ScaledDown(budget, scale);
  }

  function ActualRisk(cfg: RiskConfig, r: Request): real
    requires r.Valid() && Size(cfg, r).Accepted?
  {
    Mul(Size(cfg, r).sized.qty, r.plan.entry - r.plan.stop)
  }

  /** Through a losing streak, each trade sized on the loss before it, the amount at risk never grows. */
  lemma {:induction false} LosingStreakNeverGrows(cfg: RiskConfig, trades: seq<Request>, i: nat, j: nat)
    requires cfg.Valid() && i <= j < |trades|
    requires forall k :: 0 <= k < |trades| ==> trades[k].Valid() && Size(cfg, trades[k]).Accepted?
    requires forall k :: 0 < k < |trades| ==> trades[k].lastLoss == Some(ActualRisk(cfg, trades[k - 1]))
    ensures ActualRisk(cfg, trades[j]) <= ActualRisk(cfg, trades[i])
    decreases j
  {
    hide Mul, Size;
    if i < j {
      LosingStreakNeverGrows(cfg, trades, i, j - 1);
      NeverDoublesDown(cfg, trades[j]);
    }
  }

  /** Scaling a positive amount by a factor in (0, 1] only makes it smaller. */
  lemma ScaledDown(x: real, k: real)
    requires 0.0 < k <= 1.0 && Mul(x, k) > 0.0
    ensures Mul(x, k) <= x
  {
    hide Mul;
    if x <= 0.0 {
      MulLe(x, 0.0, k);
      assert Mul(0.0, k) == 0.0 by { MulZero(k); }
    } else {
      MulLe(k, 1.0, x);
      MulOne(x);
    }
  }

  lemma AcceptedQty(cfg: RiskConfig, r: Request)
    requires r.Valid() && Size(cfg, r).Accepted?
    ensures var s := Size(cfg, r).sized;
      && s.qty == Qty(cfg, r) > 0.0 && Mul(s.qty, r.plan.entry) >= 1.0 && r.plan.gapRisk <= cfg.maxGapRisk
      && s.plan == r.plan && s.proposal == r.proposal && s.notional == Round6(Mul(s.qty, r.plan.entry))
  {
    hide Qty, Mul, Round6;
  }

  // ----- the engine -----

  datatype HistoryEntry = HistoryEntry(symbol: string, qty: real, risk: real)

  class PositionSizingEngine {
    const cfg: RiskConfig
    var lastRisk: Option<real>
    var lastWasLoss: bool
    var history: seq<HistoryEntry>

    constructor (cfg: RiskConfig)
      requires cfg.Valid()
      ensures this.cfg == cfg && lastRisk == None && !lastWasLoss && history == []
    {
      this.cfg, lastRisk, lastWasLoss, history := cfg, None, false, [];
    }

    /** What limits the next trade after a loss. */
    function LastLoss(): Option<real>
      reads this
    {
      if lastWasLoss then lastRisk else None
    }

    method RecordTradeResult(realizedPnl: real, riskAmount: real)
      modifies this`lastRisk, this`lastWasLoss
      ensures LastLoss() == if realizedPnl < 0.0 then Some(riskAmount) else None
    {
      lastWasLoss := realizedPnl < 0.0;
      lastRisk := Some(riskAmount);
    }

    /** `r.lastLoss` is what this engine remembers of the previous trade. */
    method SizeEntry(r: Request) returns (sizing: Sizing)
      requires r.Valid() && r.lastLoss == LastLoss()
      modifies this`history
      ensures sizing == Size(cfg, r)
      ensures history == old(history) + if sizing.Accepted?
        then [HistoryEntry(r.proposal.symbol, sizing.sized.qty, Mul(sizing.sized.qty, r.plan.entry - r.plan.stop))] else []
    {
      hide Mul, Round6, Truncate4;
      var ctx, entry, distance := r.ctx, r.plan.entry, r.plan.entry - r.plan.stop;
      var risk := Mul(Mul(ctx.equity, cfg.riskBudget), ctx.throttle);
      risk := Mul(risk, Max(0.25, Min(1.0, r.confidence)));
      if lastWasLoss && lastRisk.Some? {
        if risk > lastRisk.value {
          risk := lastRisk.value;
        }
      }
      var qty := risk / distance;
      var maxNotional := LimitNotional(r);
      if r.plan.gapRisk > cfg.maxGapRisk {
        return GapRiskTooHigh;
      }
      if Mul(qty, entry) > maxNotional {
        qty := maxNotional / entry;
      }
      if WideSpread(r) {
        qty := qty * 0.5;
      }
      qty := Truncate4(qty);
      var notional := Mul(qty, entry);
      if qty <= 0.0 || notional < 1.0 {
        return RoundsToZero;
      }
      var actual := Mul(qty, distance);
      history := history + [HistoryEntry(r.proposal.symbol, qty, actual)];
      sizing := Accepted(Sized(r.proposal, r.plan, qty, Round6(actual), Round6(notional), r.confidence));
    }

    method LimitNotional(r: Request) returns (limit: real)
      requires r.Valid()
      ensures limit == MaxNotional(cfg, r)
    {
      hide Mul;
      var ctx := r.ctx;
      limit := Max(0.0, Mul(ctx.equity, cfg.maxPosition) - Lookup(ctx.held, r.proposal.symbol));
      limit := Min(limit, ctx.settledCash);
      limit := Min(limit, Mul(Mul(ctx.advShares, cfg.maxParticipation), r.plan.entry));
      var themes := ThemesOf(ctx.themes, r.proposal.symbol);
      ghost var room := limit;
      for i := 0 to |themes|
        invariant limit == WithinThemes(cfg, ctx, themes[..i], room)
      {
        assert themes[..i + 1][..i] == themes[..i];
        var left := Mul(ctx.equity, cfg.maxTheme) - Lookup(ctx.themeExposure, themes[i]);
        limit := Min(limit, Max(0.0, left));
      }
      assert themes[..|themes|] == themes;
      if ctx.correlation > cfg.correlationThreshold {
        limit := Mul(limit, cfg.correlationFactor);
      }
    }
  }
}
