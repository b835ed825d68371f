/** What a grade says about a decision (services/pdca/decision_quality.py). */
module Grades {
  import opened DecisionQuality
  import opened Numeric
  import opened Products
  import opened Wrappers

  /** The observation a grade rests on: at the decision's own horizon if there is one, else at one week. */
  ghost predicate RestsOn(obs: Observations, o: Observation) {
    if Expected in obs then o == obs[Expected] else At(OneWeek) in obs && o == obs[At(OneWeek)]
  }

  /** The return above the benchmark, for the direction taken. */
  ghost predicate AlphaIs(s: Snapshot, o: Observation, alpha: real) {
    match s.decision
    case BUY => alpha == o.ret - o.benchmark
    case HOLD => alpha == o.ret - o.benchmark
    case SELL => alpha == o.benchmark - o.ret
    case _ => false
  }

  lemma KeyRests(obs: Observations, o: Observation)
    requires RestsOn(obs, o)
    ensures Key(obs).Some? && Key(obs).value in obs && obs[Key(obs).value] == o
  {
  }

  /** Without an observation at either horizon the decision is pending, and its scores stand. */
  lemma PendingUntilObserved(cfg: Settings, s: Snapshot, ev: Evaluation)
    requires Expected !in ev.observations && At(OneWeek) !in ev.observations
    ensures Grade(cfg, s, ev) == ev.(outcome := PENDING)
  {
  }

  /** A directional decision is good or bad exactly as it beat, or fell short of, the benchmark by the threshold. */
  lemma ClassFollowsAlpha(cfg: Settings, s: Snapshot, ev: Evaluation, o: Observation, alpha: real)
    requires RestsOn(ev.observations, o) && AlphaIs(s, o, alpha)
    ensures var graded := Grade(cfg, s, ev);
      && (graded.outcome == GOOD <==> alpha >= cfg.good)
      && (graded.outcome == BAD <==> alpha < cfg.good && alpha <= -cfg.bad)
      && graded.outcome in {GOOD, BAD, MIXED} && graded.avoidance == ev.avoidance
  {
    KeyRests(ev.observations, o);
  }

  /** A decision to stay out is good when the price fell, and a missed opportunity, never bad, when it rose. */
  lemma StayingOutIsGraded(cfg: Settings, s: Snapshot, ev: Evaluation, o: Observation)
    requires RestsOn(ev.observations, o) && s.decision in {WAIT, NO_TRADE, AVOID}
    ensures var graded := Grade(cfg, s, ev);
      && (o.ret <= -cfg.bad ==> graded.outcome == GOOD && graded.avoidance == GOOD_AVOIDANCE)
      && (-cfg.bad < o.ret && cfg.good <= o.ret ==> graded.outcome == MIXED && graded.avoidance == MISSED_OPPORTUNITY)
      && (-cfg.bad < o.ret < cfg.good ==> graded.outcome == MIXED && graded.avoidance == ev.avoidance && graded.outcomeScore == 50.0)
  {
    KeyRests(ev.observations, o);
  }

  // ----- the outcome score -----

  ghost predicate Increasing(f: real -> real) {
    forall x, y :: x <= y ==> f(x) <= f(y)
  }

  /** As tanh: increasing, through the origin, within one of it. */
  ghost predicate TanhLike(f: real -> real) {
    Increasing(f) && f(0.0) == 0.0
  }

  /** The amount at risk a score is relative to: the adverse excursion, but no less than a positive floor. */
  function RiskTaken(cfg: Settings, o: Observation): real {
    Max(Abs(o.mae), Max(cfg.minRisk, EPS))
  }

  lemma ScoreOfAlpha(cfg: Settings, s: Snapshot, ev: Evaluation, o: Observation, alpha: real)
    requires RestsOn(ev.observations, o) && AlphaIs(s, o, alpha)
    ensures RiskTaken(cfg, o) > 0.0
    ensures Grade(cfg, s, ev).outcomeScore == Max(0.0, Min(100.0, 50.0 + 50.0 * cfg.tanh(alpha / RiskTaken(cfg, o) / 3.0)))
  {
    KeyRests(ev.observations, o);
  }

  lemma QuotientOrder(a: real, x: real, b: real, y: real)
    requires x > 0.0 && y > 0.0 && Mul(a, y) <= Mul(b, x)
    ensures a / x <= b / y
  {
    DivideMul(a, x);
    DivideMul(b, y);
    MulAssoc(a / x, x, y);
    MulAssoc(b / y, y, x);
    MulComm(x, y);
    MulPositive(x, y);
    CancelLe(a / x, b / y, Mul(x, y));
  }

  /**
   Scores lie between 0 and 100; beating the benchmark scores 50 or more, falling short of it
   50 or less.
   */
  lemma ScoreHasTheSignOfAlpha(cfg: Settings, s: Snapshot, ev: Evaluation, o: Observation, alpha: real)
    requires RestsOn(ev.observations, o) && AlphaIs(s, o, alpha) && TanhLike(cfg.tanh)
    ensures var score := Grade(cfg, s, ev).outcomeScore;
            0.0 <= score <= 100.0 && (alpha >= 0.0 ==> score >= 50.0) && (alpha <= 0.0 ==> score <= 50.0)
  {
    ScoreOfAlpha(cfg, s, ev, o, alpha);
    var risk := RiskTaken(cfg, o);
    MulZero(risk);
    MulZero(1.0);
    if alpha >= 0.0 {
      MulLe(0.0, alpha, 1.0);
      QuotientOrder(0.0, 1.0, alpha, risk);
    } else {
      MulLe(alpha, 0.0, 1.0);
      QuotientOrder(alpha, risk, 0.0, 1.0);
    }
  }

  /** Of two directional decisions that took the same risk, the one with more alpha scores no less. */
  lemma ScoreRisesWithAlpha(
    cfg: Settings, s: Snapshot, ev: Evaluation, o: Observation, alpha: real,
    s': Snapshot, ev': Evaluation, o': Observation, alpha': real)
    requires RestsOn(ev.observations, o) && AlphaIs(s, o, alpha) && RestsOn(ev'.observations, o') && AlphaIs(s', o', alpha')
    requires Increasing(cfg.tanh) && alpha <= alpha' && Abs(o.mae) == Abs(o'.mae)
    ensures Grade(cfg, s, ev).outcomeScore <= Grade(cfg, s', ev').outcomeScore
  {
    ScoreOfAlpha(cfg, s, ev, o, alpha);
    ScoreOfAlpha(cfg, s', ev', o', alpha');
    var risk := RiskTaken(cfg, o);
    MulLe(alpha, alpha', risk);
    QuotientOrder(alpha, risk, alpha', risk);
  }

  /** The same gain taken through a deeper drawdown scores no more. */
  lemma DeeperDrawdownScoresLess(
    cfg: Settings, s: Snapshot, ev: Evaluation, o: Observation, s': Snapshot, ev': Evaluation, o': Observation, alpha: real)
    requires RestsOn(ev.observations, o) && AlphaIs(s, o, alpha) && RestsOn(ev'.observations, o') && AlphaIs(s', o', alpha)
    requires Increasing(cfg.tanh) && alpha >= 0.0 && Abs(o.mae) <= Abs(o'.mae)
    ensures Grade(cfg, s', ev').outcomeScore <= Grade(cfg, s, ev).outcomeScore
  {
    ScoreOfAlpha(cfg, s, ev, o, alpha);
    ScoreOfAlpha(cfg, s', ev', o', alpha);
    MulLe(RiskTaken(cfg, o), RiskTaken(cfg, o'), alpha);
    QuotientOrder(alpha, RiskTaken(cfg, o'), alpha, RiskTaken(cfg, o));
  }

  /** Staying out of a price that did worse scores no less. */
  lemma AvoidingMoreScoresMore(
    cfg: Settings, s: Snapshot, ev: Evaluation, o: Observation, s': Snapshot, ev': Evaluation, o': Observation)
    requires RestsOn(ev.observations, o) && s.decision in {WAIT, NO_TRADE, AVOID} && cfg.good >= 0.0 && cfg.bad >= 0.0
    requires RestsOn(ev'.observations, o') && s'.decision in {WAIT, NO_TRADE, AVOID} && o.ret <= o'.ret
    ensures Grade(cfg, s', ev').outcomeScore <= Grade(cfg, s, ev).outcomeScore
  {
    KeyRests(ev.observations, o);
    KeyRests(ev'.observations, o');
  }

  // ----- the process score and the overall grade -----

  function ProcessOf(cfg: Settings, s: Snapshot, ev: Evaluation): real {
    Grade(cfg, s, ev).processScore
  }

  lemma ProcessGraded(cfg: Settings, s: Snapshot, ev: Evaluation, o: Observation)
    requires RestsOn(ev.observations, o)
    ensures ProcessOf(cfg, s, ev) == Process(s)
  {
    KeyRests(ev.observations, o);
  }

  /** Process is full marks exactly when nothing is amiss; a stop plan is asked for only of those who buy or sell. */
  lemma CleanProcessIsFull(cfg: Settings, s: Snapshot, ev: Evaluation, o: Observation)
    requires RestsOn(ev.observations, o)
    ensures 0.0 <= ProcessOf(cfg, s, ev) <= 100.0
    ensures ProcessOf(cfg, s, ev) == 100.0 <==>
            && s.ruleCompliant && s.skepticConsulted && s.dataHealthOk
            && (s.decision in {BUY, SELL} ==> s.hadStopPlan)
  {
    hide Grade;
    ProcessGraded(cfg, s, ev, o);
  }

  /** Putting right what cost `points` gains exactly those points, unless the score was down to nothing. */
  predicate Gains(better: real, worse: real, points: real) {
    if worse > 0.0 then better == worse + points else better <= points
  }

  /** Breaking a rule costs 60 points, entering without a stop plan 30, unhealthy data 20, not asking the sceptic 10. */
  lemma EachLapseHasItsPrice(cfg: Settings, s: Snapshot, ev: Evaluation, o: Observation)
    requires RestsOn(ev.observations, o)
    ensures var score := ProcessOf(cfg, s, ev);
      && (!s.ruleCompliant ==> Gains(ProcessOf(cfg, s.(ruleCompliant := true), ev), score, 60.0))
      && (s.decision in {BUY, SELL} && !s.hadStopPlan ==> Gains(ProcessOf(cfg, s.(hadStopPlan := true), ev), score, 30.0))
      && (!s.dataHealthOk ==> Gains(ProcessOf(cfg, s.(dataHealthOk := true), ev), score, 20.0))
      && (!s.skepticConsulted ==> Gains(ProcessOf(cfg, s.(skepticConsulted := true), ev), score, 10.0))
  {
    hide ProcessOf, RestsOn;
    ProcessGraded(cfg, s, ev, o);
    ProcessGraded(cfg, s.(ruleCompliant := true), ev, o);
    ProcessGraded(cfg, s.(hadStopPlan := true), ev, o);
    ProcessGraded(cfg, s.(dataHealthOk := true), ev, o);
    ProcessGraded(cfg, s.(skepticConsulted := true), ev, o);
  }

  /** The overall grade blends outcome and process 45 to 55, to the nearest cent, and caps rule breakers at 40. */
  lemma OverallBlends(cfg: Settings, s: Snapshot, ev: Evaluation, o: Observation)
    requires RestsOn(ev.observations, o)
    ensures var g := Grade(cfg, s, ev);
      var blend := 0.45 * g.outcomeScore + 0.55 * g.processScore;
      && (s.ruleCompliant || blend <= 40.0 ==> Abs(g.overall - blend) <= 0.005)
      && (!s.ruleCompliant && blend > 40.0 ==> g.overall == 40.0)
  {
    KeyRests(ev.observations, o);
    var g := Grade(cfg, s, ev);
    var blend := 0.45 * g.outcomeScore + 0.55 * g.processScore;
    NearestCent(blend);
    assert Nearest(100.0 * 40.0) == 4000;
  }

  lemma NearestCent(x: real)
    ensures Abs(Round2(x) - x) <= 0.005
  {
    var n := Nearest(100.0 * x);
    assert Abs(n as real - 100.0 * x) <= 0.5;
  }
}
