/** Grading decisions at fixed horizons (services/pdca/decision_quality.py). */
module DecisionQuality {
  import opened Numeric
  import opened Wrappers

  datatype Horizon = OneHour | OneDay | ThreeDays | OneWeek | OneMonth | ThreeMonths | SixMonths

  /** A horizon's length in microseconds. */
  function Length(h: Horizon): int {
    match h
    case OneHour => 3_600_000_000
    case OneDay => 86_400_000_000
    case ThreeDays => 259_200_000_000
    case OneWeek => 604_800_000_000
    case OneMonth => 2_592_000_000_000
    case ThreeMonths => 7_862_400_000_000
    case SixMonths => 15_724_800_000_000
  }

  /** What an observation is filed under: one of the fixed horizons, or the decision's own. */
  datatype Label = At(horizon: Horizon) | Expected

  const LABELS: seq<Label> :=
    [At(OneHour), At(OneDay), At(ThreeDays), At(OneWeek), At(OneMonth), At(ThreeMonths), At(SixMonths), Expected]

  datatype Decision = BUY | SELL | HOLD | WAIT | NO_TRADE | AVOID

  /** `expected` is None when the decision names a horizon that is not in the table. */
  datatype Snapshot = Snapshot(
    symbol: string, ts: int, reference: real, decision: Decision, expected: Option<Horizon>, content: string,
    ruleCompliant: bool, hadStopPlan: bool, skepticConsulted: bool, dataHealthOk: bool)

  predicate Priced(s: Snapshot) {
    s.reference > 0.0
  }

  /** A deterministic price source, and the index return over a window. */
  datatype Feed = Feed(price: (string, int) -> real, benchmark: (int, int) -> real)

  datatype Settings = Settings(good: real, bad: real, minRisk: real, tanh: real -> real)

  datatype Observation = Observation(price: real, ret: real, mae: real, mfe: real, at: int, benchmark: real)

  type Observations = map<Label, Observation>

  datatype OutcomeClass = GOOD | MIXED | BAD | PENDING

  datatype Avoidance = Unlabelled | GOOD_AVOIDANCE | MISSED_OPPORTUNITY

  datatype Evaluation = Evaluation(
    outcome: OutcomeClass, avoidance: Avoidance, outcomeScore: real, processScore: real, overall: real,
    observations: Observations)

  const FRESH := Evaluation(PENDING, Unlabelled, 50.0, 50.0, 50.0, map[])

  function Direction(d: Decision): real {
    match d
    case BUY => 1.0
    case HOLD => 1.0
    case SELL => -1.0
    case _ => 0.0
  }

  // ----- one horizon -----

  predicate Placed(s: Snapshot, l: Label) {
    l.Expected? ==> s.expected.Some?
  }

  function Due(s: Snapshot, l: Label): int
    requires Placed(s, l)
  {
    s.ts + Length(if l.Expected? then s.expected.value else l.horizon)
  }

  /** The labels one call looks at, in its order: the decision's own horizon comes last. */
  function Targets(s: Snapshot, extended: bool): (r: seq<Label>)
    ensures forall i :: 0 <= i < |r| ==> Placed(s, r[i])
  {
    (if extended then LABELS[..7] else LABELS[..4]) + (if s.expected.Some? then [Expected] else [])
  }

  function Return(s: Snapshot, feed: Feed, at: int): real
    requires Priced(s)
  {
    feed.price(s.symbol, at) / s.reference - 1.0
  }

  /** The return as the stance felt it; neutral stances count a rise as favourable. */
  function Signed(s: Snapshot, feed: Feed, at: int): real
    requires Priced(s)
  {
    if s.decision == SELL then -Return(s, feed, at) else Return(s, feed, at)
  }

  /** The least `f` among the observations made no later than `due`. */
  function Lowest(obs: Observations, labels: seq<Label>, due: int, f: Observation -> real): Option<real> {
    if labels == [] then None
    else
      var rest := Lowest(obs, labels[..|labels| - 1], due, f);
      var l := labels[|labels| - 1];
      if l !in obs || obs[l].at > due then rest
      else if rest.None? then Some(f(obs[l]))
      else Some(Min(rest.value, f(obs[l])))
  }

  /** The excursion at `due`: 0 counts only while there is nothing earlier to compare with. */
  function Excursion(obs: Observations, due: int, signed: real, f: Observation -> real): real {
    var prior := Lowest(obs, LABELS, due, f);
    if prior.None? then Min(0.0, signed) else Min(signed, prior.value)
  }

  function Adverse(): Observation -> real {
    (o: Observation) => o.mae
  }

  function Favourable(): Observation -> real {
    (o: Observation) => -o.mfe
  }

  function Measure(s: Snapshot, feed: Feed, obs: Observations, due: int): Observation
    requires Priced(s)
  {
    Observation(
      feed.price(s.symbol, due), Return(s, feed, due),
      Excursion(obs, due, Signed(s, feed, due), Adverse()),
      -Excursion(obs, due, -Signed(s, feed, due), Favourable()),
      due, feed.benchmark(s.ts, due))
  }

  function Observe(s: Snapshot, feed: Feed, obs: Observations, l: Label, now: int): Observations
    requires Priced(s) && Placed(s, l)
  {
    var due := Due(s, l);
    if l in obs || due > now then obs else obs[l := Measure(s, feed, obs, due)]
  }

  function ObserveAll(s: Snapshot, feed: Feed, obs: Observations, labels: seq<Label>, now: int): Observations
    requires Priced(s)
    requires forall i :: 0 <= i < |labels| ==> Placed(s, labels[i])
  {
    if labels == [] then obs
    else
      var n := |labels| - 1;
      Observe(s, feed, ObserveAll(s, feed, obs, labels[..n], now), labels[n], now)
  }

  // ----- grading -----

  /** The observation a decision is graded on: its own horizon if observed, else one week. */
  function Key(obs: Observations): Option<Label> {
    if Expected in obs then Some(Expected) else if At(OneWeek) in obs then Some(At(OneWeek)) else None
  }

  function Score(cfg: Settings, s: Snapshot, ev: Evaluation, o: Observation): Evaluation {
    var d := Direction(s.decision);
    if d != 0.0 then
      var alpha := o.ret * d - o.benchmark * d;
      var risk := Max(Abs(o.mae), Max(cfg.minRisk, EPS));
      ev.(outcome := if alpha >= cfg.good then GOOD else if alpha <= -cfg.bad then BAD else MIXED,
          outcomeScore := Max(0.0, Min(100.0, 50.0 + 50.0 * cfg.tanh(alpha / risk / 3.0))))
    else if o.ret <= -cfg.bad then
      ev.(avoidance := GOOD_AVOIDANCE, outcome := GOOD, outcomeScore := Min(100.0, 50.0 - 100.0 * o.ret))
    else if o.ret >= cfg.good then
      ev.(avoidance := MISSED_OPPORTUNITY, outcome := MIXED, outcomeScore := Max(0.0, 50.0 - 100.0 * o.ret))
    else
      ev.(outcome := MIXED, outcomeScore := 50.0)
  }

  function Process(s: Snapshot): real {
    var p := 100.0
      - (if s.ruleCompliant then 0.0 else 60.0)
      - (if s.decision in {BUY, SELL} && !s.hadStopPlan then 30.0 else 0.0)
      - (if s.skepticConsulted then 0.0 else 10.0)
      - (if s.dataHealthOk then 0.0 else 20.0);
    Max(0.0, p)
  }

  /** `round(x, 2)`. */
  function Round2(x: real): real {
    Nearest(100.0 * x) as real / 100.0
  }

  function Overall(s: Snapshot, outcomeScore: real): real {
    var blend := 0.45 * outcomeScore + 0.55 * Process(s);
    Round2(if s.ruleCompliant then blend else Min(blend, 40.0))
  }

  function Grade(cfg: Settings, s: Snapshot, ev: Evaluation): Evaluation {
    var key := Key(ev.observations);
    if key.None? then ev.(outcome := PENDING)
    else
      var scored := Score(cfg, s, ev, ev.observations[key.value]);
      scored.(processScore := Process(s), overall := Overall(s, scored.outcomeScore))
  }

  /** One tracking call, as one decision sees it. */
  function TrackOne(cfg: Settings, s: Snapshot, feed: Feed, extended: bool, ev: Evaluation, now: int): Evaluation
    requires Priced(s)
  {
    Grade(cfg, s, ev.(observations := ObserveAll(s, feed, ev.observations, Targets(s, extended), now)))
  }

  // ----- what an observation means, whenever it was made -----

  function Felt(s: Snapshot, feed: Feed): int -> real
    requires Priced(s)
  {
    (at: int) => Signed(s, feed, at)
  }

  function Opposite(s: Snapshot, feed: Feed): int -> real
    requires Priced(s)
  {
    (at: int) => -Signed(s, feed, at)
  }

  /** `m` is the least of 0 and `g` at the target horizons due by `t`. */
  ghost predicate LeastBy(m: real, s: Snapshot, extended: bool, g: int -> real, t: int) {
    var targets := Targets(s, extended);
    && m <= 0.0
    && (forall j :: 0 <= j < |targets| && Due(s, targets[j]) <= t ==> m <= g(Due(s, targets[j])))
    && (m == 0.0 || exists j :: 0 <= j < |targets| && Due(s, targets[j]) <= t && m == g(Due(s, targets[j])))
  }

  lemma LeastIsUnique(m: real, m': real, s: Snapshot, extended: bool, g: int -> real, t: int)
    requires LeastBy(m, s, extended, g, t) && LeastBy(m', s, extended, g, t)
    ensures m == m'
  {
  }

  /** The observation a decision should carry under `l`: no word about when tracking was called. */
  ghost predicate Faithful(s: Snapshot, feed: Feed, extended: bool, l: Label, o: Observation)
    requires Priced(s) && Placed(s, l)
  {
    var due := Due(s, l);
    && o.at == due
    && o.price == feed.price(s.symbol, due)
    && o.ret == o.price / s.reference - 1.0
    && o.benchmark == feed.benchmark(s.ts, due)
    && LeastBy(o.mae, s, extended, Felt(s, feed), due)
    && LeastBy(-o.mfe, s, extended, Opposite(s, feed), due)
  }

  predicate Passed(seen: Option<int>, t: int) {
    seen.Some? && t <= seen.value
  }

  function Later(seen: Option<int>, now: int): Option<int> {
    if seen.Some? && now <= seen.value then seen else Some(now)
  }

  /** Every target due by `seen`, and of the first `i` also those due by `now`, is observed faithfully; nothing else is. */
  ghost predicate Complete(
    s: Snapshot, feed: Feed, extended: bool, obs: Observations, seen: Option<int>, i: nat, now: int)
    requires Priced(s)
  {
    var targets := Targets(s, extended);
    && i <= |targets|
    && (forall j :: 0 <= j < |targets| ==>
          (targets[j] in obs <==> Passed(seen, Due(s, targets[j])) || (j < i && Due(s, targets[j]) <= now)))
    && (forall l :: l in obs ==> l in targets && Faithful(s, feed, extended, l, obs[l]))
  }

  lemma TargetOrder(s: Snapshot, extended: bool, j: nat, k: nat)
    requires j < k < |Targets(s, extended)|
    ensures Targets(s, extended)[j] != Targets(s, extended)[k]
    ensures Targets(s, extended)[j].At?
    ensures Targets(s, extended)[k].At? ==> Due(s, Targets(s, extended)[j]) < Due(s, Targets(s, extended)[k])
  {
  }

  /** Whatever is due no later than target `i` comes before it, or shares its moment with one that does. */
  lemma DueSooner(s: Snapshot, extended: bool, i: nat, k: nat) returns (j: nat)
    requires i < |Targets(s, extended)| && k < |Targets(s, extended)|
    requires Due(s, Targets(s, extended)[k]) <= Due(s, Targets(s, extended)[i])
    ensures j <= i && Due(s, Targets(s, extended)[j]) == Due(s, Targets(s, extended)[k])
  {
    var targets := Targets(s, extended);
    if k <= i {
      j := k;
    } else {
      TargetOrder(s, extended, i, k);
      assert targets[k] == Expected;
      var h := s.expected.value;
      assert targets[i].At? && Length(h) <= Length(targets[i].horizon);
      j := match h case OneHour => 0 case OneDay => 1 case ThreeDays => 2 case OneWeek => 3
           case OneMonth => 4 case ThreeMonths => 5 case SixMonths => 6;
    }
  }

  lemma {:induction false} LowestIsLeast(obs: Observations, labels: seq<Label>, due: int, f: Observation -> real)
    ensures var m := Lowest(obs, labels, due, f);
      && (forall l :: l in labels && l in obs && obs[l].at <= due ==> m.Some? && m.value <= f(obs[l]))
      && (m.Some? ==> exists l :: l in labels && l in obs && obs[l].at <= due && m.value == f(obs[l]))
  {
    if labels != [] {
      LowestIsLeast(obs, labels[..|labels| - 1], due, f);
    }
  }

  lemma AllLabels(l: Label)
    ensures l in LABELS
  {
    var i := match l case Expected => 7 case At(h) =>
      match h case OneHour => 0 case OneDay => 1 case ThreeDays => 2 case OneWeek => 3
      case OneMonth => 4 case ThreeMonths => 5 case SixMonths => 6;
    assert LABELS[i] == l;
  }

  /** The first label not yet observed gets the least over everything due by then, though only priors are consulted. */
  lemma ExcursionIsLeast(
    s: Snapshot, feed: Feed, extended: bool, obs: Observations, seen: Option<int>, i: nat, now: int,
    f: Observation -> real, g: int -> real)
    requires Priced(s) && Complete(s, feed, extended, obs, seen, i, now)
    requires i < |Targets(s, extended)| && Due(s, Targets(s, extended)[i]) <= now
    requires forall l :: l in obs ==> LeastBy(f(obs[l]), s, extended, g, obs[l].at)
    ensures var due := Due(s, Targets(s, extended)[i]);
      LeastBy(Excursion(obs, due, g(due), f), s, extended, g, due)
  {
    hide Length, Targets, Faithful, Lowest;
    var targets := Targets(s, extended);
    var due := Due(s, targets[i]);
    var prior := Lowest(obs, LABELS, due, f);
    LowestIsLeast(obs, LABELS, due, f);
    var m := Excursion(obs, due, g(due), f);
    forall k | 0 <= k < |targets| && Due(s, targets[k]) <= due ensures m <= g(Due(s, targets[k])) {
      var j := DueSooner(s, extended, i, k);
      if j < i {
        AllLabels(targets[j]);
        assert obs[targets[j]].at == Due(s, targets[j]) by { FaithfulAt(s, feed, extended, targets[j], obs[targets[j]]); }
      }
    }
  }

  lemma FaithfulAt(s: Snapshot, feed: Feed, extended: bool, l: Label, o: Observation)
    requires Priced(s) && Placed(s, l) && Faithful(s, feed, extended, l, o)
    ensures o.at == Due(s, l)
    ensures LeastBy(Adverse()(o), s, extended, Felt(s, feed), o.at)
    ensures LeastBy(Favourable()(o), s, extended, Opposite(s, feed), o.at)
  {
  }

  lemma ObserveKeeps(
    s: Snapshot, feed: Feed, extended: bool, obs: Observations, seen: Option<int>, i: nat, now: int)
    requires Priced(s) && Complete(s, feed, extended, obs, seen, i, now)
    requires i < |Targets(s, extended)|
    ensures Complete(s, feed, extended, Observe(s, feed, obs, Targets(s, extended)[i], now), seen, i + 1, now)
  {
    hide Length, Targets, LeastBy, Excursion;
    var targets := Targets(s, extended);
    var due := Due(s, targets[i]);
    if targets[i] !in obs && due <= now {
      forall l | l in obs
        ensures LeastBy(Adverse()(obs[l]), s, extended, Felt(s, feed), obs[l].at)
        ensures LeastBy(Favourable()(obs[l]), s, extended, Opposite(s, feed), obs[l].at)
      {
        FaithfulAt(s, feed, extended, l, obs[l]);
      }
      ExcursionIsLeast(s, feed, extended, obs, seen, i, now, Adverse(), Felt(s, feed));
      ExcursionIsLeast(s, feed, extended, obs, seen, i, now, Favourable(), Opposite(s, feed));
      assert Faithful(s, feed, extended, targets[i], Measure(s, feed, obs, due));
    }
    forall j | 0 <= j < |targets| && j != i ensures targets[j] != targets[i] {
      if j < i { TargetOrder(s, extended, j, i); } else { TargetOrder(s, extended, i, j); }
    }
  }

  lemma {:induction false} ObserveAllKeeps(
    s: Snapshot, feed: Feed, extended: bool, obs: Observations, seen: Option<int>, i: nat, now: int)
    requires Priced(s) && Complete(s, feed, extended, obs, seen, 0, now)
    requires i <= |Targets(s, extended)|
    ensures Complete(
      s, feed, extended, ObserveAll(s, feed, obs, Targets(s, extended)[..i], now), seen, i, now)
  {
    hide Targets, Complete, Observe;
    if i > 0 {
      ObserveAllKeeps(s, feed, extended, obs, seen, i - 1, now);
      var targets := Targets(s, extended);
      assert targets[..i][..i - 1] == targets[..i - 1];
      ObserveKeeps(s, feed, extended, ObserveAll(s, feed, obs, targets[..i - 1], now), seen, i - 1, now);
    }
  }

  lemma CompleteIsUnique(
    s: Snapshot, feed: Feed, extended: bool, obs: Observations, obs': Observations, seen: Option<int>)
    requires Priced(s) && Complete(s, feed, extended, obs, seen, 0, 0) && Complete(s, feed, extended, obs', seen, 0, 0)
    ensures obs == obs'
  {
    hide Targets, Length;
    var targets := Targets(s, extended);
    forall l | l in targets ensures l in obs <==> l in obs' {
      var j :| 0 <= j < |targets| && targets[j] == l;
    }
    forall l | l in obs ensures obs[l] == obs'[l] {
      SameObservation(s, feed, extended, l, obs[l], obs'[l]);
    }
  }

  lemma SameObservation(s: Snapshot, feed: Feed, extended: bool, l: Label, o: Observation, o': Observation)
    requires Priced(s) && Placed(s, l) && Faithful(s, feed, extended, l, o) && Faithful(s, feed, extended, l, o')
    ensures o == o'
  {
    hide LeastBy;
    LeastIsUnique(o.mae, o'.mae, s, extended, Felt(s, feed), Due(s, l));
    LeastIsUnique(-o.mfe, -o'.mfe, s, extended, Opposite(s, feed), Due(s, l));
  }
}
