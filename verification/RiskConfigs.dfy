/** The frozen risk limits (packages/common/risk_config.py). */
module RiskConfigs {
  import opened Products

  datatype RiskConfig = RiskConfig(
    riskBudget: real, maxPosition: real, maxTheme: real, maxParticipation: real,
    correlationThreshold: real, correlationFactor: real,
    maxTotalExposure: real, maxLeverage: real,
    reducedSizeAt: real, noNewEntryAt: real, safeModeAt: real, reducedSizeFactor: real,
    maxGapRisk: real, maxSpread: real, staleAfter: real, capStage: real)
  {
    /** What construction accepts. Nothing bounds the correlation factor from above. */
    predicate Valid() {
      && maxLeverage <= 1.0 && maxTotalExposure <= 1.0
      && riskBudget >= 0.0 && maxPosition >= 0.0 && maxTheme >= 0.0 && maxParticipation >= 0.0
      && correlationThreshold >= 0.0 && correlationFactor >= 0.0
      && maxTotalExposure >= 0.0 && maxLeverage >= 0.0
      && reducedSizeAt >= 0.0 && noNewEntryAt >= 0.0 && safeModeAt >= 0.0 && reducedSizeFactor >= 0.0
      && maxGapRisk >= 0.0 && maxSpread >= 0.0 && staleAfter >= 0.0 && capStage >= 0.0
    }
  }

  /** How much of `equity` may be exposed, at this stage of the capital ramp. */
  function ExposureCap(cfg: RiskConfig, equity: real): real {
    Mul(Mul(equity, cfg.maxTotalExposure), cfg.capStage)
  }

  /** `d.get(key, 0.0)`. */
  function Lookup(m: map<string, real>, key: string): real {
    if key in m then m[key] else 0.0
  }

  function ThemesOf(themes: map<string, seq<string>>, symbol: string): seq<string> {
    if symbol in themes then themes[symbol] else []
  }
}
