/**
 Why an entry sized by services/position_sizing/engine.py gets through the gate of
 services/risk/master_controller.py on the same portfolio numbers, and when it may not.
 */
module SizedEntries {
  import opened CapitalAllocation
  import opened Execution
  import opened Intents
  import opened Numeric
  import opened PaperBrokers
  import opened Products
  import opened RiskConfigs
  import opened RiskGate
  import opened Sums
  import RiskStates
  import Sizing = PositionSizing
  import opened Wrappers

  /** The market order placed for a sized entry. */
  function EntryOrder(s: Sizing.Sized, id: string): OrderIntent {
    OrderIntent(id, s.proposal.symbol, BUY, s.qty, MarketOrder, "", false, 0.0)
  }

  /** The gate is shown the numbers the size was computed from. */
  predicate SameNumbers(v: View, r: Sizing.Request) {
    && v.equity == r.ctx.equity && v.settledCash == r.ctx.settledCash
    && v.themeExposure == r.ctx.themeExposure && v.themes == r.ctx.themes
    && v.advShares == r.ctx.advShares && v.gapRisk == r.plan.gapRisk
  }

  /** The checks that only concern the entry's own size: not those on the book's total. */
  const SIZE_CHECKS := {PriceableOrder, CashSettled, PositionSize, Liquidity, ThemeConcentration, GapRisk}

  ghost predicate PassesSizeChecks(cfg: RiskConfig, v: View, i: OrderIntent, price: real) {
    forall c, state, session :: c in SIZE_CHECKS ==> Passes(cfg, state, v, session, i, price, c)
  }

  /** The correlation penalty shrinks, rather than grows, what is left. */
  predicate Penalised(cfg: RiskConfig, r: Sizing.Request) {
    r.ctx.correlation > cfg.correlationThreshold ==> cfg.correlationFactor <= 1.0
  }

  lemma WithinRoom(cfg: RiskConfig, r: Sizing.Request)
    requires cfg.Valid() && r.Valid() && Sizing.Size(cfg, r).Accepted? && Penalised(cfg, r)
    ensures Mul(Sizing.Size(cfg, r).sized.qty, r.plan.entry) <= Sizing.Room(cfg, r)
  {
    hide Mul, Sizing.Room, Sizing.Size, Sizing.Qty;
    Sizing.AcceptedQty(cfg, r);
    Sizing.QtyWithin(cfg, r);
    if r.ctx.correlation > cfg.correlationThreshold {
      assert Mul(Sizing.Room(cfg, r), cfg.correlationFactor) >= 1.0;
      var room, factor := Sizing.Room(cfg, r), cfg.correlationFactor;
      if factor == 0.0 {
        MulZero(room);
      } else {
        Sizing.ScaledDown(room, factor);
      }
    }
  }

  lemma RoomWithinCaps(cfg: RiskConfig, r: Sizing.Request, value: real)
    requires r.Valid() && 0.0 < value <= Sizing.Room(cfg, r)
    ensures value <= r.ctx.settledCash
    ensures value <= Mul(r.ctx.equity, cfg.maxPosition)
    ensures value <= Mul(Mul(r.ctx.advShares, cfg.maxParticipation), r.plan.entry)
    ensures forall t :: t in ThemesOf(r.ctx.themes, r.proposal.symbol) ==>
      Lookup(r.ctx.themeExposure, t) + value <= Mul(r.ctx.equity, cfg.maxTheme)
  {
    hide Mul, ThemesOf;
    var themes := ThemesOf(r.ctx.themes, r.proposal.symbol);
    Sizing.ThemesBound(
      cfg, r.ctx, themes,
      Min(Min(Sizing.PositionRoom(cfg, r), r.ctx.settledCash), Sizing.LiquidityRoom(cfg, r)));
    forall t | t in themes
      ensures Lookup(r.ctx.themeExposure, t) + value <= Mul(r.ctx.equity, cfg.maxTheme)
    {
      assert value <= Sizing.ThemeRoom(cfg, r.ctx, t);
    }
  }

  /** Every accepted size passes the gate's cash, position, liquidity, theme and gap checks, tolerance unused. */
  lemma SizedEntryPasses(cfg: RiskConfig, r: Sizing.Request, v: View, id: string)
    requires cfg.Valid() && r.Valid() && Sizing.Size(cfg, r).Accepted? && Penalised(cfg, r) && SameNumbers(v, r)
    ensures PassesSizeChecks(cfg, v, EntryOrder(Sizing.Size(cfg, r).sized, id), r.plan.entry)
  {
    hide Mul, ThemesOf, Sizing.Size, Sizing.Room, Sizing.Qty, ThrottleLevel;
    Sizing.AcceptedQty(cfg, r);
    WithinRoom(cfg, r);
    var qty := Sizing.Size(cfg, r).sized.qty;
    RoomWithinCaps(cfg, r, Mul(qty, r.plan.entry));
    CancelLe(qty, Mul(r.ctx.advShares, cfg.maxParticipation), r.plan.entry);
  }

  // ----- exactly which configurations keep the promise -----

  ghost predicate EveryEntryPasses(cfg: RiskConfig) {
    forall r: Sizing.Request, v: View, id: string ::
      r.Valid() && SameNumbers(v, r) && Sizing.Size(cfg, r).Accepted? ==>
        PassesSizeChecks(cfg, v, EntryOrder(Sizing.Size(cfg, r).sized, id), r.plan.entry)
  }

  /** The correlation factor is a penalty or never applies, or the limits let no entry through at all. */
  predicate Harmless(cfg: RiskConfig) {
    || cfg.correlationFactor <= 1.0 || cfg.correlationThreshold >= 1.0
    || cfg.riskBudget == 0.0 || cfg.maxPosition == 0.0 || cfg.maxParticipation == 0.0
  }

  /** A zero budget, position cap or participation cap rejects every candidate. */
  lemma NothingIsSized(cfg: RiskConfig, r: Sizing.Request)
    requires cfg.Valid() && r.Valid()
    requires cfg.riskBudget == 0.0 || cfg.maxPosition == 0.0 || cfg.maxParticipation == 0.0
    ensures !Sizing.Size(cfg, r).Accepted?
  {
    hide Mul, Sizing.Size, Sizing.Qty, Sizing.WithinThemes, ThemesOf, Lookup;
    if Sizing.Size(cfg, r).Accepted? {
      Sizing.AcceptedQty(cfg, r);
      Sizing.QtyWithin(cfg, r);
      MulPositive(Sizing.Qty(cfg, r), r.plan.entry - r.plan.stop);
      if cfg.riskBudget == 0.0 {
        NoBudget(cfg, r);
      } else {
        NoRoom(cfg, r);
      }
    }
  }

  lemma NoBudget(cfg: RiskConfig, r: Sizing.Request)
    requires cfg.riskBudget == 0.0
    ensures Sizing.Risk(cfg, r) <= 0.0
  {
    hide Mul;
    MulZero(r.ctx.equity);
    MulZero(r.ctx.throttle);
    MulZero(Max(0.25, Min(1.0, r.confidence)));
  }

  lemma NoRoom(cfg: RiskConfig, r: Sizing.Request)
    requires cfg.Valid() && r.Valid() && (cfg.maxPosition == 0.0 || cfg.maxParticipation == 0.0)
    ensures Sizing.MaxNotional(cfg, r) <= 0.0
  {
    hide Mul, Sizing.WithinThemes, ThemesOf, Lookup;
    Sizing.ThemesBound(
      cfg, r.ctx, ThemesOf(r.ctx.themes, r.proposal.symbol),
      Min(Min(Sizing.PositionRoom(cfg, r), r.ctx.settledCash), Sizing.LiquidityRoom(cfg, r)));
    MulZero(r.ctx.equity);
    MulZero(r.ctx.advShares);
    MulZero(r.plan.entry);
    assert Sizing.Room(cfg, r) <= 0.0;
    MulLe(Sizing.Room(cfg, r), 0.0, cfg.correlationFactor);
    MulZero(cfg.correlationFactor);
  }

  /** An account with `cash` to spend, a share at 1.00, and a candidate that moves exactly as the book does. */
  function Correlated(cfg: RiskConfig, cash: real): Sizing.Request
    requires cfg.riskBudget > 0.0 && cfg.maxPosition > 0.0 && cfg.maxParticipation > 0.0
  {
    var equity := cash / cfg.maxPosition + Mul(cash, cfg.correlationFactor) / cfg.riskBudget;
    Sizing.Request(
      Sizing.Proposal("AMD", 0.0, 0.1), Sizing.StopPlan(1.0, 0.5, 0.0), 1.0, 1.0,
      Sizing.Context(
        equity, cash, map["NVDA" := Max(0.0, equity - cash)], map[], map[], 1.0, cash / cfg.maxParticipation, 1.0),
      1.0, None)
  }

  function ViewOf(r: Sizing.Request): View {
    View(r.ctx.equity, r.ctx.settledCash, Lookup(r.ctx.held, "NVDA"), map[], r.ctx.themeExposure, r.ctx.themes, 0.0, true, r.plan.gapRisk,
         r.ctx.advShares, true, OK, true, 0.0, {}, 0.0, 0.0)
  }

  lemma CorrelatedRoom(cfg: RiskConfig, cash: real)
    requires cfg.riskBudget > 0.0 && cfg.maxPosition > 0.0 && cfg.maxParticipation > 0.0
    requires cash > 0.0 && cfg.correlationFactor > 0.0 && cfg.correlationThreshold < 1.0
    ensures var r := Correlated(cfg, cash);
      && Sizing.MaxNotional(cfg, r) == Mul(cash, cfg.correlationFactor)
      && Sizing.Risk(cfg, r) >= Mul(cash, cfg.correlationFactor)
  {
    hide Mul;
    var r, grown := Correlated(cfg, cash), Mul(cash, cfg.correlationFactor);
    var byPosition, byRisk := cash / cfg.maxPosition, grown / cfg.riskBudget;
    MulPositive(cash, cfg.correlationFactor);
    QuotientPositive(cash, cfg.maxPosition);
    QuotientPositive(grown, cfg.riskBudget);
    DivideMul(cash, cfg.maxPosition);
    DivideMul(grown, cfg.riskBudget);
    DivideMul(cash, cfg.maxParticipation);
    AddMul(byPosition, byRisk, cfg.maxPosition);
    AddMul(byPosition, byRisk, cfg.riskBudget);
    MulPositive(byRisk, cfg.maxPosition);
    MulPositive(byPosition, cfg.riskBudget);
    MulOne(cash);
    MulOne(Mul(r.ctx.equity, cfg.riskBudget));
    assert Sizing.Room(cfg, r) == cash;
  }

  lemma QuotientPositive(x: real, k: real)
    requires x > 0.0 && k > 0.0
    ensures x / k > 0.0
  {
  }

  /** A factor above 1 sizes a correlated candidate beyond the cash there is. */
  lemma CorrelatedOverspends(cfg: RiskConfig, cash: real, id: string)
    requires cfg.Valid() && !Harmless(cfg) && cash >= 1.0 && Mul(cash, cfg.correlationFactor) > cash + 1.0
    ensures var r := Correlated(cfg, cash);
      && r.Valid() && SameNumbers(ViewOf(r), r) && Sizing.Size(cfg, r).Accepted?
      && !PassesSizeChecks(cfg, ViewOf(r), EntryOrder(Sizing.Size(cfg, r).sized, id), r.plan.entry)
  {
    hide Mul, Sizing.Risk, Sizing.MaxNotional, Sizing.Truncate4;
    var r, grown := Correlated(cfg, cash), Mul(cash, cfg.correlationFactor);
    CorrelatedRoom(cfg, cash);
    MulOne(Sizing.Uncapped(cfg, r));
    assert Sizing.Capped(cfg, r) == grown;
    assert !Sizing.WideSpread(r);
    Sizing.TruncateDown(grown);
    var qty := Sizing.Qty(cfg, r);
    MulOne(qty);
    assert qty > cash + 0.5;
    var i := EntryOrder(Sizing.Size(cfg, r).sized, id);
    assert CashSettled in SIZE_CHECKS && !Passes(cfg, RiskStates.NORMAL, ViewOf(r), OPEN, i, 1.0, CashSettled);
  }

  lemma SomeCash(factor: real) returns (cash: real)
    requires factor > 1.0
    ensures cash >= 1.0 && Mul(cash, factor) > cash + 1.0
  {
    hide Mul;
    cash := 1.0 + 1.0 / (factor - 1.0);
    QuotientPositive(1.0, factor - 1.0);
    DivideMul(1.0, factor - 1.0);
    AddMul(1.0, 1.0 / (factor - 1.0), factor - 1.0);
    MulOne(factor - 1.0);
    MulAdd(cash, factor, 1.0);
    MulOne(cash);
  }

  /** The gate never undoes a size computed on its own numbers, exactly when the configuration is harmless. */
  lemma EveryEntryPassesIff(cfg: RiskConfig)
    requires cfg.Valid()
    ensures EveryEntryPasses(cfg) <==> Harmless(cfg)
  {
    hide Sizing.Size, PassesSizeChecks, EntryOrder, Correlated, ViewOf, Mul;
    if Harmless(cfg) {
      forall r: Sizing.Request, v: View, id: string |
        r.Valid() && SameNumbers(v, r) && Sizing.Size(cfg, r).Accepted?
        ensures PassesSizeChecks(cfg, v, EntryOrder(Sizing.Size(cfg, r).sized, id), r.plan.entry)
      {
        if Penalised(cfg, r) {
          SizedEntryPasses(cfg, r, v, id);
        } else {
          NothingIsSized(cfg, r);
          assert false;
        }
      }
    } else {
      var cash := SomeCash(cfg.correlationFactor);
      CorrelatedOverspends(cfg, cash, "");
    }
  }

  // ----- from the allocator's rounded notional to the gate's exact value -----

  function ValueOf(): Sizing.Sized -> real {
    (s: Sizing.Sized) => Mul(s.qty, s.plan.entry)
  }

  /** Carries the notional that sizing computed for it. */
  predicate Rounded(s: Sizing.Sized) {
    s.notional == Round6(Mul(s.qty, s.plan.entry))
  }

  lemma {:induction false} RoundedTogether(s: seq<Sizing.Sized>)
    requires forall x :: x in s ==> Rounded(x)
    ensures Abs(SumBy(s, ValueOf()) - SumBy(s, NotionalOf())) <= 0.0000005 * |s| as real
  {
    hide Mul, Round6;
    if s != [] {
      var last := s[|s| - 1];
      RoundedTogether(s[..|s| - 1]);
      RoundError(Mul(last.qty, last.plan.entry));
      assert Rounded(last);
      assert |s[..|s| - 1]| as real == |s| as real - 1.0;
    }
  }

  /** At their exact values, all the accepted orders exceed the cash or the cap by half a micro each at most. */
  lemma AcceptedValueNearlyFits(
    cfg: RiskConfig, candidates: seq<Sizing.Sized>, equity: real, cash: real, exposure: real)
    requires Positive(candidates) && forall x :: x in candidates ==> Rounded(x)
    ensures var r := Allocate(cfg, candidates, equity, cash, exposure);
      r.accepted != [] ==>
        && SumBy(r.accepted, ValueOf()) <= cash + EPS + 0.0000005 * |r.accepted| as real
        && exposure + SumBy(r.accepted, ValueOf()) <= ExposureCap(cfg, equity) + EPS + 0.0000005 * |r.accepted| as real
  {
    hide Allocate, SumBy, ExposureCap, Rounded;
    AllocationWithinCash(cfg, candidates, equity, cash, exposure);
    EveryCandidateIsDecided(cfg, candidates, equity, cash, exposure);
    var accepted := Allocate(cfg, candidates, equity, cash, exposure).accepted;
    forall x | x in accepted
      ensures Rounded(x)
    {
      assert x in multiset(accepted);
      assert x in multiset(candidates);
    }
    RoundedTogether(accepted);
  }

  /** The book as it is valued for an account with something in it. */
  predicate Funded(v: View) {
    v.equity > 0.0 && v.exposure >= 0.0
  }

  /** Wherever the allocator finds room for `s` under the cap, the gate's exposure check passes it. */
  ghost predicate AdmittedWhereAllocated(cfg: RiskConfig, s: Sizing.Sized, id: string) {
    forall v: View, state, session ::
      Funded(v) && FitsCap(Result([], [], v.settledCash, v.exposure), s, ExposureCap(cfg, v.equity)) ==>
        Passes(cfg, state, v, session, EntryOrder(s, id), s.plan.entry, TotalExposure)
  }

  /** The cap leaves no room at all, at any equity. */
  predicate NothingFits(cfg: RiskConfig) {
    cfg.maxTotalExposure == 0.0 || cfg.capStage == 0.0
  }

  /** An account whose exposure cap is just the notional and one tolerance above what it already holds. */
  function NearlyFull(cfg: RiskConfig, notional: real): View
    requires cfg.maxTotalExposure > 0.0 && cfg.capStage > 0.0
  {
    var equity := 2.0 * notional / cfg.capStage / cfg.maxTotalExposure;
    View(equity, equity, notional + EPS, map[], map[], map[], 0.0, true, 0.0, 0.0, true, OK, true, 0.0, {}, 0.0, 0.0)
  }

  lemma CapOfNearlyFull(cfg: RiskConfig, notional: real)
    requires cfg.maxTotalExposure > 0.0 && cfg.capStage > 0.0 && notional > 0.0
    ensures var v := NearlyFull(cfg, notional); Funded(v) && ExposureCap(cfg, v.equity) == 2.0 * notional
  {
    hide Mul;
    var staged := 2.0 * notional / cfg.capStage;
    QuotientPositive(2.0 * notional, cfg.capStage);
    QuotientPositive(staged, cfg.maxTotalExposure);
    DivideMul(staged, cfg.maxTotalExposure);
    DivideMul(2.0 * notional, cfg.capStage);
  }

  lemma NoCap(cfg: RiskConfig, equity: real)
    requires NothingFits(cfg)
    ensures ExposureCap(cfg, equity) == 0.0
  {
    hide Mul;
    MulZero(equity);
    MulZero(cfg.capStage);
    MulZero(Mul(equity, cfg.maxTotalExposure));
  }

  lemma NotionalOfAccepted(cfg: RiskConfig, r: Sizing.Request)
    requires r.Valid() && Sizing.Size(cfg, r).Accepted?
    ensures var s := Sizing.Size(cfg, r).sized; s.notional >= 0.5 && s.plan == r.plan
  {
    hide Mul, Sizing.Qty;
    Sizing.AcceptedQty(cfg, r);
    RoundError(Mul(Sizing.Qty(cfg, r), r.plan.entry));
  }

  /**
   The gate upholds the allocator's exposure decision about an accepted size, in every
   funded account, exactly when rounding did not lower the notional or the cap admits nothing.
   */
  lemma AdmittedWhereAllocatedIff(cfg: RiskConfig, r: Sizing.Request, id: string)
    requires cfg.Valid() && r.Valid() && Sizing.Size(cfg, r).Accepted?
    ensures var s := Sizing.Size(cfg, r).sized;
      AdmittedWhereAllocated(cfg, s, id) <==> Mul(s.qty, s.plan.entry) <= s.notional || NothingFits(cfg)
  {
    hide Mul, ExposureCap, Sizing.Size;
    var s := Sizing.Size(cfg, r).sized;
    NotionalOfAccepted(cfg, r);
    if NothingFits(cfg) {
      forall v: View { NoCap(cfg, v.equity); }
    } else if s.notional < Mul(s.qty, s.plan.entry) {
      var full := NearlyFull(cfg, s.notional);
      CapOfNearlyFull(cfg, s.notional);
      assert FitsCap(Result([], [], full.settledCash, full.exposure), s, ExposureCap(cfg, full.equity));
      assert !Passes(cfg, RiskStates.NORMAL, full, OPEN, EntryOrder(s, id), s.plan.entry, TotalExposure);
    }
  }

  // ----- one account in which the gate refuses what was allocated -----

  /** The default limits, half way up the capital ramp. */
  const RAMPING := RiskConfig(
    0.01, 0.25, 0.4, 0.01, 0.7, 0.5, 1.0, 1.0, 0.1, 0.2, 0.3, 0.5, 0.75, 0.01, 300.0, 0.5)

  /** 50.005 of equity: 24.0024 held, 26.0026 in settled cash. */
  const ASKED := Sizing.Request(
    Sizing.Proposal("X", 0.0, 0.1), Sizing.StopPlan(1.0000004, 0.5000004, 0.0), 1.0, 1.0,
    Sizing.Context(50.005, 26.0026, map["Y" := 24.0024], map[], map[], 0.0, 1000000.0, 1.0), 1.0, None)

  const HELD_BACK := View(
    50.005, 26.0026, 24.0024, map[], map[], map[], 0.0, true, 0.0, 1000000.0, true, OK, true, 0.0, {}, 0.0, 0.0)

  const ENTRY := Sizing.Sized(ASKED.proposal, ASKED.plan, 1.0001, 0.50005, 1.0001, 1.0)

  lemma AskedIsSized()
    ensures RAMPING.Valid() && ASKED.Valid() && SameNumbers(HELD_BACK, ASKED)
    ensures Sizing.Size(RAMPING, ASKED) == Sizing.Accepted(ENTRY)
  {
    hide Sizing.MaxNotional, Sizing.Risk, Round6, Sizing.Truncate4;
    AskedNumbers();
  }

  lemma AskedNumbers()
    ensures Sizing.Risk(RAMPING, ASKED) == 0.50005 && Sizing.MaxNotional(RAMPING, ASKED) == 12.50125
    ensures Sizing.Truncate4(1.0001) == 1.0001
    ensures Mul(1.0001, 1.0000004) == 1.00010040004 && Mul(1.0001, 0.5) == 0.50005
    ensures Round6(1.00010040004) == 1.0001 && Round6(0.50005) == 0.50005
  {
    assert Micros(1.00010040004) == 1000100.40004 && Micros(0.50005) == 500050.0;
  }

  /** Sizing accepts the entry, the allocator finds exactly enough room for it, and the gate's exposure check refuses it. */
  lemma AllocatedAndRefused(id: string)
    ensures RAMPING.Valid() && ASKED.Valid() && Funded(HELD_BACK) && SameNumbers(HELD_BACK, ASKED)
    ensures Sizing.Size(RAMPING, ASKED) == Sizing.Accepted(ENTRY)
    ensures Allocate(RAMPING, [ENTRY], HELD_BACK.equity, HELD_BACK.settledCash, HELD_BACK.exposure).accepted == [ENTRY]
    ensures forall state, session ::
      !Passes(RAMPING, state, HELD_BACK, session, EntryOrder(ENTRY, id), ENTRY.plan.entry, TotalExposure)
  {
    hide Sizing.Size, Round6;
    AskedIsSized();
    AskedNumbers();
    assert ExposureCap(RAMPING, 50.005) == 25.0025;
    assert Ranked([ENTRY]) == [ENTRY] by { assert [ENTRY][1..] == []; }
    var empty := Result([], [], 26.0026, 24.0024);
    assert ConsiderAll([ENTRY][..0], 26.0026, 24.0024, 25.0025) == empty;
    assert ConsiderAll([ENTRY], 26.0026, 24.0024, 25.0025) == Consider(empty, ENTRY, 25.0025);
  }
}
