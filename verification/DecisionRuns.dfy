/** What tracking leaves behind over whole runs of calls (services/pdca/decision_quality.py). */
module DecisionRuns {
  import opened DecisionQuality
  import opened Numeric
  import opened Wrappers

  /** Everything but the avoidance label, which grading sets and never clears. */
  predicate SameGrade(a: Evaluation, b: Evaluation) {
    a.(avoidance := Unlabelled) == b.(avoidance := Unlabelled)
  }

  /** What an evaluation is once tracking has last looked at `seen`: a matter of `seen` alone. */
  ghost predicate Settled(cfg: Settings, s: Snapshot, feed: Feed, extended: bool, ev: Evaluation, seen: Option<int>)
    requires Priced(s)
  {
    && Complete(s, feed, extended, ev.observations, seen, 0, 0)
    && (if seen.None? then ev == FRESH
        else SameGrade(ev, Grade(cfg, s, FRESH.(observations := ev.observations))))
  }

  lemma TrackCompletes(
    s: Snapshot, feed: Feed, extended: bool, obs: Observations, seen: Option<int>, now: int)
    requires Priced(s) && Complete(s, feed, extended, obs, seen, 0, 0)
    ensures var after := ObserveAll(s, feed, obs, Targets(s, extended), now);
      && Complete(s, feed, extended, after, Later(seen, now), 0, 0)
      && obs.Keys <= after.Keys
  {
    hide Targets, Length, Faithful, Observe;
    var targets := Targets(s, extended);
    assert Complete(s, feed, extended, obs, seen, 0, now);
    ObserveAllKeeps(s, feed, extended, obs, seen, |targets|, now);
    assert targets[..|targets|] == targets;
    var after := ObserveAll(s, feed, obs, targets, now);
    forall l | l in obs ensures l in after {
      var j :| 0 <= j < |targets| && targets[j] == l;
    }
  }

  /** Before the key horizon nothing is graded; from then on every grade is written afresh. */
  lemma GradeForgets(cfg: Settings, s: Snapshot, ev: Evaluation, blank: Evaluation)
    requires ev.observations == blank.observations
    requires Key(ev.observations).None? ==> SameGrade(ev.(outcome := PENDING), blank.(outcome := PENDING))
    ensures SameGrade(Grade(cfg, s, ev), Grade(cfg, s, blank))
    ensures Grade(cfg, s, ev).observations == ev.observations
  {
  }

  lemma TrackSettles(
    cfg: Settings, s: Snapshot, feed: Feed, extended: bool, ev: Evaluation, seen: Option<int>, now: int)
    requires Priced(s) && Settled(cfg, s, feed, extended, ev, seen)
    ensures Settled(cfg, s, feed, extended, TrackOne(cfg, s, feed, extended, ev, now), Later(seen, now))
  {
    hide Complete, Score, ObserveAll;
    TrackCompletes(s, feed, extended, ev.observations, seen, now);
    var after := ObserveAll(s, feed, ev.observations, Targets(s, extended), now);
    assert Key(after).None? ==> Key(ev.observations).None?;
    GradeForgets(cfg, s, ev.(observations := after), FRESH.(observations := after));
  }

  datatype Book = Book(snapshots: map<string, Snapshot>, evals: map<string, Evaluation>) {
    predicate Kept() {
      && snapshots.Keys == evals.Keys
      && forall id :: id in snapshots ==> Priced(snapshots[id])
    }
  }

  datatype Call = Record(id: string, snapshot: Snapshot) | Track(now: int)

  predicate Lawful(calls: seq<Call>) {
    forall i :: 0 <= i < |calls| && calls[i].Record? ==> Priced(calls[i].snapshot)
  }

  function Recorded(b: Book, id: string, s: Snapshot): Book {
    if id in b.snapshots then b else Book(b.snapshots[id := s], b.evals[id := FRESH])
  }

  function Tracked(cfg: Settings, feed: Feed, extended: bool, b: Book, now: int): Book
    requires b.Kept()
  {
    b.(evals := map id | id in b.snapshots :: TrackOne(cfg, b.snapshots[id], feed, extended, b.evals[id], now))
  }

  /** Who has been recorded first under each id. */
  function Decisions(calls: seq<Call>): map<string, Snapshot> {
    if calls == [] then map[]
    else
      var before := Decisions(calls[..|calls| - 1]);
      match calls[|calls| - 1]
      case Record(id, s) => if id in before then before else before[id := s]
      case Track(_) => before
  }

  function Run(cfg: Settings, feed: Feed, extended: bool, calls: seq<Call>): (b: Book)
    requires Lawful(calls)
    ensures b.Kept() && b.snapshots == Decisions(calls)
  {
    if calls == [] then Book(map[], map[])
    else
      var before := Run(cfg, feed, extended, calls[..|calls| - 1]);
      match calls[|calls| - 1]
      case Record(id, s) => Recorded(before, id, s)
      case Track(now) => Tracked(cfg, feed, extended, before, now)
  }

  /** The latest moment tracking has looked at since `id` was recorded. */
  function Latest(calls: seq<Call>, id: string): Option<int> {
    if calls == [] then None
    else
      var before := calls[..|calls| - 1];
      match calls[|calls| - 1]
      case Record(_, _) => Latest(before, id)
      case Track(now) => if id in Decisions(before) then Later(Latest(before, id), now) else None
  }

  lemma {:induction false} NotYetTracked(calls: seq<Call>, id: string)
    requires id !in Decisions(calls)
    ensures Latest(calls, id).None?
  {
    if calls != [] {
      NotYetTracked(calls[..|calls| - 1], id);
    }
  }

  /** After any run, each evaluation is settled by the latest moment looked at, whatever else was called and when. */
  lemma {:induction false} RunsSettle(cfg: Settings, feed: Feed, extended: bool, calls: seq<Call>, id: string)
    requires Lawful(calls) && id in Decisions(calls)
    ensures Settled(
      cfg, Decisions(calls)[id], feed, extended, Run(cfg, feed, extended, calls).evals[id], Latest(calls, id))
  {
    hide Settled, TrackOne, Later;
    var n := |calls| - 1;
    if id in Decisions(calls[..n]) {
      RunsSettle(cfg, feed, extended, calls[..n], id);
      match calls[n]
      case Record(_, _) =>
      case Track(now) =>
        TrackSettles(
          cfg, Decisions(calls)[id], feed, extended, Run(cfg, feed, extended, calls[..n]).evals[id],
          Latest(calls[..n], id), now);
    } else {
      NotYetTracked(calls[..n], id);
      FreshIsSettled(cfg, Decisions(calls)[id], feed, extended);
    }
  }

  lemma FreshIsSettled(cfg: Settings, s: Snapshot, feed: Feed, extended: bool)
    requires Priced(s)
    ensures Settled(cfg, s, feed, extended, FRESH, None)
  {
  }

  /** What the stance taken has gained by `at`: a sale gains what the price loses. */
  function GainAt(s: Snapshot, feed: Feed, at: int): real
    requires Priced(s)
  {
    if s.decision == SELL then 1.0 - feed.price(s.symbol, at) / s.reference else feed.price(s.symbol, at) / s.reference - 1.0
  }

  /** `o` holds the return of its moment, and the extremes of 0 and the gains at the targets due by then. */
  ghost predicate HoldsExcursions(s: Snapshot, feed: Feed, extended: bool, o: Observation)
    requires Priced(s)
  {
    var targets := Targets(s, extended);
    && o.ret == feed.price(s.symbol, o.at) / s.reference - 1.0
    && o.mae <= 0.0 <= o.mfe
    && (forall j :: 0 <= j < |targets| && Due(s, targets[j]) <= o.at ==>
          o.mae <= GainAt(s, feed, Due(s, targets[j])) <= o.mfe)
    && (o.mae == 0.0 || exists j :: 0 <= j < |targets| && Due(s, targets[j]) <= o.at
                                    && GainAt(s, feed, Due(s, targets[j])) == o.mae)
    && (o.mfe == 0.0 || exists j :: 0 <= j < |targets| && Due(s, targets[j]) <= o.at
                                    && GainAt(s, feed, Due(s, targets[j])) == o.mfe)
  }

  /**
   So it is after any run: the adverse and favourable excursions are those of the stance
   taken, over every target horizon due by then, whichever were observed first.
   */
  lemma ExcursionsAreThoseOfTheStance(
    cfg: Settings, feed: Feed, extended: bool, calls: seq<Call>, id: string, l: Label)
    requires Lawful(calls) && id in Decisions(calls) && l in Run(cfg, feed, extended, calls).evals[id].observations
    ensures var s := Decisions(calls)[id];
            l in Targets(s, extended)
            && HoldsExcursions(s, feed, extended, Run(cfg, feed, extended, calls).evals[id].observations[l])
  {
    hide Run, Decisions, Latest, Settled, Faithful, HoldsExcursions, Targets, Due;
    RunsSettle(cfg, feed, extended, calls, id);
    var s, ev := Decisions(calls)[id], Run(cfg, feed, extended, calls).evals[id];
    SettledIsFaithful(cfg, s, feed, extended, ev, Latest(calls, id), l);
    FaithfulToTheStance(s, feed, extended, l, ev.observations[l]);
  }

  lemma SettledIsFaithful(
    cfg: Settings, s: Snapshot, feed: Feed, extended: bool, ev: Evaluation, seen: Option<int>, l: Label)
    requires Priced(s) && Settled(cfg, s, feed, extended, ev, seen) && l in ev.observations
    ensures l in Targets(s, extended) && Placed(s, l) && Faithful(s, feed, extended, l, ev.observations[l])
  {
    hide Targets, Faithful, Due, Grade;
  }

  lemma FaithfulToTheStance(s: Snapshot, feed: Feed, extended: bool, l: Label, o: Observation)
    requires Priced(s) && Placed(s, l) && Faithful(s, feed, extended, l, o)
    ensures HoldsExcursions(s, feed, extended, o)
  {
    hide Targets, Due;
  }

  /** Two runs that last looked at a decision at the same moment agree on all it was graded on and by. */
  lemma TrackingIsScheduleFree(
    cfg: Settings, feed: Feed, extended: bool, calls: seq<Call>, calls': seq<Call>, id: string)
    requires Lawful(calls) && Lawful(calls')
    requires id in Decisions(calls) && id in Decisions(calls') && Decisions(calls)[id] == Decisions(calls')[id]
    requires Latest(calls, id) == Latest(calls', id)
    ensures SameGrade(Run(cfg, feed, extended, calls).evals[id], Run(cfg, feed, extended, calls').evals[id])
  {
    hide Complete, Grade, Run, Decisions, Latest;
    RunsSettle(cfg, feed, extended, calls, id);
    RunsSettle(cfg, feed, extended, calls', id);
    var ev, ev' := Run(cfg, feed, extended, calls).evals[id], Run(cfg, feed, extended, calls').evals[id];
    CompleteIsUnique(
      Decisions(calls)[id], feed, extended, ev.observations, ev'.observations, Latest(calls, id));
  }

  /** In particular, only the last moment matters: any earlier or repeated calls might as well not have been made. */
  lemma OneCallIsEnough(cfg: Settings, feed: Feed, extended: bool, calls: seq<Call>, id: string, last: int)
    requires Lawful(calls) && id in Decisions(calls)
    requires forall i :: 0 <= i < |calls| && calls[i].Track? ==> calls[i].now <= last
    ensures Lawful([Record(id, Decisions(calls)[id]), Track(last)])
    ensures id in Run(cfg, feed, extended, [Record(id, Decisions(calls)[id]), Track(last)]).evals
    ensures Lawful(calls + [Track(last)])
    ensures id in Run(cfg, feed, extended, calls + [Track(last)]).evals
    ensures SameGrade(
      Run(cfg, feed, extended, calls + [Track(last)]).evals[id],
      Run(cfg, feed, extended, [Record(id, Decisions(calls)[id]), Track(last)]).evals[id])
  {
    hide Run, Decisions, Latest, SameGrade;
    var s := Decisions(calls)[id];
    DecisionsArePriced(calls, id);
    LatestBound(calls, id, last);
    TrackLast(calls, id, last);
    OneCall(id, s, last);
    RunDecides(cfg, feed, extended, [Record(id, s), Track(last)]);
    RunDecides(cfg, feed, extended, calls + [Track(last)]);
    TrackingIsScheduleFree(cfg, feed, extended, calls + [Track(last)], [Record(id, s), Track(last)], id);
  }

  lemma TrackLast(calls: seq<Call>, id: string, now: int)
    requires id in Decisions(calls)
    ensures Decisions(calls + [Track(now)]) == Decisions(calls)
    ensures Latest(calls + [Track(now)], id) == Later(Latest(calls, id), now)
  {
    assert (calls + [Track(now)])[..|calls|] == calls;
  }

  lemma RunDecides(cfg: Settings, feed: Feed, extended: bool, calls: seq<Call>)
    requires Lawful(calls)
    ensures Run(cfg, feed, extended, calls).evals.Keys == Decisions(calls).Keys
  {
  }

  lemma {:induction false} DecisionsArePriced(calls: seq<Call>, id: string)
    requires Lawful(calls) && id in Decisions(calls)
    ensures Priced(Decisions(calls)[id])
  {
    if id in Decisions(calls[..|calls| - 1]) {
      DecisionsArePriced(calls[..|calls| - 1], id);
    }
  }

  lemma {:induction false} LatestBound(calls: seq<Call>, id: string, last: int)
    requires forall i :: 0 <= i < |calls| && calls[i].Track? ==> calls[i].now <= last
    ensures var seen := Latest(calls, id); seen.Some? ==> seen.value <= last
  {
    if calls != [] {
      LatestBound(calls[..|calls| - 1], id, last);
    }
  }

  lemma OneCall(id: string, s: Snapshot, now: int)
    ensures Decisions([Record(id, s)]) == map[id := s] == Decisions([Record(id, s), Track(now)])
    ensures Latest([Record(id, s), Track(now)], id) == Some(now)
  {
    var calls := [Record(id, s), Track(now)];
    assert calls[..1] == [Record(id, s)] && calls[..1][..0] == [];
    assert Decisions([]) == map[] && Decisions(calls[..1][..0]) == map[];
    assert Latest(calls[..1][..0], id).None?;
    assert Latest(calls[..1], id).None?;
  }

  // ----- no look-ahead -----

  ghost predicate AgreeUntil(s: Snapshot, feed: Feed, feed': Feed, t: int) {
    forall at: int :: at <= t ==>
      && feed.price(s.symbol, at) == feed'.price(s.symbol, at)
      && feed.benchmark(s.ts, at) == feed'.benchmark(s.ts, at)
  }

  lemma FaithfulEither(
    s: Snapshot, feed: Feed, feed': Feed, extended: bool, l: Label, o: Observation, t: int)
    requires Priced(s) && Placed(s, l) && Due(s, l) <= t && AgreeUntil(s, feed, feed', t)
    requires Faithful(s, feed, extended, l, o)
    ensures Faithful(s, feed', extended, l, o)
  {
    hide Targets, Due;
  }

  /** Nothing recorded for a horizon depends on a price or a benchmark later than the moment it was due. */
  lemma NoLookAhead(
    cfg: Settings, feed: Feed, feed': Feed, extended: bool, calls: seq<Call>, id: string, l: Label, t: int)
    requires Lawful(calls) && id in Decisions(calls) && Placed(Decisions(calls)[id], l)
    requires Due(Decisions(calls)[id], l) <= t && AgreeUntil(Decisions(calls)[id], feed, feed', t)
    ensures var obs, obs' := Run(cfg, feed, extended, calls).evals[id].observations,
                             Run(cfg, feed', extended, calls).evals[id].observations;
      (l in obs <==> l in obs') && (l in obs ==> obs[l] == obs'[l])
  {
    hide Run, Decisions, Latest, Targets, Faithful, Due;
    var s := Decisions(calls)[id];
    RunsSettle(cfg, feed, extended, calls, id);
    RunsSettle(cfg, feed', extended, calls, id);
    var obs, obs' := Run(cfg, feed, extended, calls).evals[id].observations,
                     Run(cfg, feed', extended, calls).evals[id].observations;
    SameLabels(s, feed, feed', extended, obs, obs', Latest(calls, id));
    if l in obs {
      FaithfulEither(s, feed, feed', extended, l, obs[l], t);
      SameObservation(s, feed', extended, l, obs[l], obs'[l]);
    }
  }

  lemma SameLabels(
    s: Snapshot, feed: Feed, feed': Feed, extended: bool, obs: Observations, obs': Observations, seen: Option<int>)
    requires Priced(s)
    requires Complete(s, feed, extended, obs, seen, 0, 0) && Complete(s, feed', extended, obs', seen, 0, 0)
    ensures obs.Keys == obs'.Keys
  {
    hide Targets, Faithful, Due;
    var targets := Targets(s, extended);
    forall l | l in targets ensures l in obs <==> l in obs' {
      var j :| 0 <= j < |targets| && targets[j] == l;
    }
  }

  /** Nor does the grade depend on anything after the horizon it was given at. */
  lemma GradeUsesNothingLater(
    cfg: Settings, feed: Feed, feed': Feed, extended: bool, calls: seq<Call>, id: string, l: Label, t: int)
    requires Lawful(calls) && id in Decisions(calls) && Placed(Decisions(calls)[id], l)
    requires Due(Decisions(calls)[id], l) <= t && AgreeUntil(Decisions(calls)[id], feed, feed', t)
    requires Key(Run(cfg, feed, extended, calls).evals[id].observations) == Some(l)
    ensures SameGrade(
      Run(cfg, feed, extended, calls).evals[id].(observations := map[]),
      Run(cfg, feed', extended, calls).evals[id].(observations := map[]))
  {
    hide Run, Decisions, Latest, Complete, AgreeUntil, Due, Process, Overall;
    var s := Decisions(calls)[id];
    var ev, ev' := Run(cfg, feed, extended, calls).evals[id], Run(cfg, feed', extended, calls).evals[id];
    RunsSettle(cfg, feed, extended, calls, id);
    RunsSettle(cfg, feed', extended, calls, id);
    NoLookAhead(cfg, feed, feed', extended, calls, id, l, t);
    assert ev.observations.Keys == ev'.observations.Keys by {
      SameLabels(s, feed, feed', extended, ev.observations, ev'.observations, Latest(calls, id));
    }
  }

  /** Breaking a rule caps the overall grade at 40, whatever the price did and however often it was looked at. */
  lemma RuleBreakersScoreLow(cfg: Settings, feed: Feed, extended: bool, calls: seq<Call>, id: string)
    requires Lawful(calls) && id in Decisions(calls) && !Decisions(calls)[id].ruleCompliant
    ensures var ev := Run(cfg, feed, extended, calls).evals[id]; ev != FRESH && ev.outcome != PENDING ==> ev.overall <= 40.0
  {
    hide Run, Decisions, Latest, Complete, Score, Process;
    RunsSettle(cfg, feed, extended, calls, id);
  }

  // ----- the avoidance label, which is not schedule-free -----

  /** The label grading puts on a neutral decision for a return; Unlabelled where it leaves the old one standing. */
  function Verdict(cfg: Settings, s: Snapshot, ret: real): Avoidance {
    if Direction(s.decision) != 0.0 then Unlabelled
    else if ret <= -cfg.bad then GOOD_AVOIDANCE
    else if ret >= cfg.good then MISSED_OPPORTUNITY
    else Unlabelled
  }

  /** The decision's own horizon lies beyond a week. */
  predicate Outlasts(s: Snapshot) {
    s.expected.Some? && Length(OneWeek) < Length(s.expected.value)
  }

  /** A label from the one-week observation that the decision's own horizon did not earn. */
  predicate Left(cfg: Settings, s: Snapshot, ev: Evaluation) {
    && Outlasts(s)
    && Expected in ev.observations && At(OneWeek) in ev.observations
    && ev.avoidance == Verdict(cfg, s, ev.observations[At(OneWeek)].ret)
  }

  predicate Labelled(cfg: Settings, s: Snapshot, ev: Evaluation) {
    var key := Key(ev.observations);
    if key.None? then ev.avoidance == Unlabelled
    else
      var v := Verdict(cfg, s, ev.observations[key.value].ret);
      ev.avoidance == v || (v == Unlabelled && Left(cfg, s, ev))
  }

  /** When each of the two key horizons is observed. */
  lemma KeysReached(s: Snapshot, feed: Feed, extended: bool, obs: Observations, seen: Option<int>)
    requires Priced(s) && Complete(s, feed, extended, obs, seen, 0, 0)
    ensures At(OneWeek) in obs <==> Passed(seen, Due(s, At(OneWeek)))
    ensures Expected in obs <==> s.expected.Some? && Passed(seen, Due(s, Expected))
  {
    hide Length, Faithful;
    var targets := Targets(s, extended);
    assert targets[3] == At(OneWeek);
    if s.expected.Some? {
      assert targets[|targets| - 1] == Expected;
    }
  }

  lemma RetAt(s: Snapshot, feed: Feed, extended: bool, obs: Observations, seen: Option<int>, l: Label)
    requires Priced(s) && Complete(s, feed, extended, obs, seen, 0, 0) && l in obs
    ensures Placed(s, l) && obs[l].ret == Return(s, feed, Due(s, l))
  {
  }

  lemma GradeLabels(cfg: Settings, s: Snapshot, ev: Evaluation)
    ensures var key, after := Key(ev.observations), Grade(cfg, s, ev).avoidance;
      if key.None? then after == ev.avoidance
      else
        var v := Verdict(cfg, s, ev.observations[key.value].ret);
        after == if v == Unlabelled then ev.avoidance else v
  {
  }

  lemma TrackLabels(
    cfg: Settings, s: Snapshot, feed: Feed, extended: bool, ev: Evaluation, seen: Option<int>, now: int)
    requires Priced(s) && Settled(cfg, s, feed, extended, ev, seen) && Labelled(cfg, s, ev)
    ensures Labelled(cfg, s, TrackOne(cfg, s, feed, extended, ev, now))
  {
    hide Complete, Score, Process, Overall, ObserveAll, Grade, Targets, Direction, Return, Length;
    TrackCompletes(s, feed, extended, ev.observations, seen, now);
    var after := ObserveAll(s, feed, ev.observations, Targets(s, extended), now);
    GradeForgets(cfg, s, ev.(observations := after), ev.(observations := after));
    GradeLabels(cfg, s, ev.(observations := after));
    KeysReached(s, feed, extended, ev.observations, seen);
    KeysReached(s, feed, extended, after, Later(seen, now));
    forall l | l in ev.observations ensures ev.observations[l].ret == after[l].ret {
      RetAt(s, feed, extended, ev.observations, seen, l);
      RetAt(s, feed, extended, after, Later(seen, now), l);
    }
  }

  lemma {:induction false} RunsLabel(cfg: Settings, feed: Feed, extended: bool, calls: seq<Call>, id: string)
    requires Lawful(calls) && id in Decisions(calls)
    ensures Labelled(cfg, Decisions(calls)[id], Run(cfg, feed, extended, calls).evals[id])
  {
    hide Settled, TrackOne, Later, Left;
    var n := |calls| - 1;
    if id in Decisions(calls[..n]) {
      RunsLabel(cfg, feed, extended, calls[..n], id);
      if calls[n].Track? {
        RunsSettle(cfg, feed, extended, calls[..n], id);
        TrackLabels(
          cfg, Decisions(calls)[id], feed, extended, Run(cfg, feed, extended, calls[..n]).evals[id],
          Latest(calls[..n], id), calls[n].now);
      }
    }
  }

  function VerdictAt(cfg: Settings, s: Snapshot, feed: Feed, l: Label): Avoidance
    requires Priced(s) && Placed(s, l)
  {
    Verdict(cfg, s, Return(s, feed, Due(s, l)))
  }

  /** At `t` the decision's own horizon, later than a week and already due, earns no label where one week did. */
  predicate Stale(cfg: Settings, s: Snapshot, feed: Feed, t: int)
    requires Priced(s)
  {
    && Outlasts(s)
    && Due(s, Expected) <= t
    && VerdictAt(cfg, s, feed, Expected) == Unlabelled
    && VerdictAt(cfg, s, feed, At(OneWeek)) != Unlabelled
  }

  ghost predicate EndsAt(calls: seq<Call>, id: string, s: Snapshot, t: int) {
    Lawful(calls) && id in Decisions(calls) && Decisions(calls)[id] == s && Latest(calls, id) == Some(t)
  }

  ghost function LabelAfter(cfg: Settings, feed: Feed, extended: bool, calls: seq<Call>, id: string): Avoidance
    requires Lawful(calls) && id in Decisions(calls)
  {
    Run(cfg, feed, extended, calls).evals[id].avoidance
  }

  ghost predicate LabelIsScheduleFree(cfg: Settings, s: Snapshot, feed: Feed, extended: bool, id: string, t: int) {
    forall calls, calls' :: EndsAt(calls, id, s, t) && EndsAt(calls', id, s, t) ==>
      LabelAfter(cfg, feed, extended, calls, id) == LabelAfter(cfg, feed, extended, calls', id)
  }

  /** Where the label stands at `t`: the key horizon's verdict, unless it is stale. */
  lemma LabelUnlessStale(
    cfg: Settings, s: Snapshot, feed: Feed, extended: bool, calls: seq<Call>, id: string, t: int)
    requires Priced(s) && EndsAt(calls, id, s, t) && !Stale(cfg, s, feed, t)
    ensures LabelAfter(cfg, feed, extended, calls, id) ==
      if Placed(s, Expected) && Due(s, Expected) <= t then VerdictAt(cfg, s, feed, Expected)
      else if Due(s, At(OneWeek)) <= t then VerdictAt(cfg, s, feed, At(OneWeek))
      else Unlabelled
  {
    hide Run, Decisions, Latest, Complete, Grade, Verdict, Length;
    RunsSettle(cfg, feed, extended, calls, id);
    RunsLabel(cfg, feed, extended, calls, id);
    var obs := Run(cfg, feed, extended, calls).evals[id].observations;
    KeysReached(s, feed, extended, obs, Some(t));
    if Expected in obs {
      RetAt(s, feed, extended, obs, Some(t), Expected);
    }
    if At(OneWeek) in obs {
      RetAt(s, feed, extended, obs, Some(t), At(OneWeek));
    }
  }

  /** One call at `now` on an evaluation settled earlier sets the label the key horizon earns, or leaves it. */
  lemma TrackSetsLabel(
    cfg: Settings, s: Snapshot, feed: Feed, extended: bool, ev: Evaluation, seen: Option<int>, now: int)
    requires Priced(s) && Settled(cfg, s, feed, extended, ev, seen) && Passed(Some(now), Due(s, At(OneWeek)))
    requires Later(seen, now) == Some(now)
    ensures var v := if Placed(s, Expected) && Due(s, Expected) <= now then VerdictAt(cfg, s, feed, Expected)
                     else VerdictAt(cfg, s, feed, At(OneWeek));
      TrackOne(cfg, s, feed, extended, ev, now).avoidance == if v == Unlabelled then ev.avoidance else v
  {
    hide Complete, Grade, Verdict, Length, ObserveAll, Targets;
    TrackCompletes(s, feed, extended, ev.observations, seen, now);
    var after := ObserveAll(s, feed, ev.observations, Targets(s, extended), now);
    GradeLabels(cfg, s, ev.(observations := after));
    KeysReached(s, feed, extended, after, Some(now));
    RetAt(s, feed, extended, after, Some(now), Key(after).value);
  }

  /** The schedule that leaves a stale label behind: look once after a week, then once at the end. */
  lemma StaleLabelStays(cfg: Settings, s: Snapshot, feed: Feed, extended: bool, id: string, t: int)
    requires Priced(s) && Stale(cfg, s, feed, t)
    ensures var once, twice := [Record(id, s), Track(t)], [Record(id, s), Track(Due(s, At(OneWeek))), Track(t)];
      && EndsAt(once, id, s, t) && EndsAt(twice, id, s, t)
      && LabelAfter(cfg, feed, extended, once, id) == Unlabelled
      && LabelAfter(cfg, feed, extended, twice, id) == VerdictAt(cfg, s, feed, At(OneWeek))
  {
    hide TrackOne, Settled, VerdictAt, Length;
    var week := Due(s, At(OneWeek));
    var once, early, twice := [Record(id, s), Track(t)], [Record(id, s), Track(week)],
                              [Record(id, s), Track(week), Track(t)];
    assert week < Due(s, Expected) <= t;
    OneCall(id, s, t);
    OneCall(id, s, week);
    FreshIsSettled(cfg, s, feed, extended);
    RunOnce(cfg, s, feed, extended, id, t);
    RunOnce(cfg, s, feed, extended, id, week);
    assert twice == early + [Track(t)];
    TrackLast(early, id, t);
    RunTrack(cfg, feed, extended, early, id, t);
    RunsSettle(cfg, feed, extended, early, id);
    TrackSetsLabel(cfg, s, feed, extended, FRESH, None, t);
    TrackSetsLabel(cfg, s, feed, extended, FRESH, None, week);
    TrackSetsLabel(cfg, s, feed, extended, TrackOne(cfg, s, feed, extended, FRESH, week), Some(week), t);
  }

  lemma RunTrack(cfg: Settings, feed: Feed, extended: bool, calls: seq<Call>, id: string, now: int)
    requires Lawful(calls) && id in Decisions(calls)
    ensures Lawful(calls + [Track(now)]) && Decisions(calls + [Track(now)]) == Decisions(calls)
    ensures Priced(Decisions(calls)[id])
    ensures Run(cfg, feed, extended, calls + [Track(now)]).evals[id] ==
      TrackOne(cfg, Decisions(calls)[id], feed, extended, Run(cfg, feed, extended, calls).evals[id], now)
  {
    hide TrackOne;
    assert (calls + [Track(now)])[..|calls|] == calls;
    DecisionsArePriced(calls, id);
  }

  lemma RunOnce(cfg: Settings, s: Snapshot, feed: Feed, extended: bool, id: string, now: int)
    requires Priced(s)
    ensures Lawful([Record(id, s), Track(now)]) && id in Decisions([Record(id, s), Track(now)])
    ensures Run(cfg, feed, extended, [Record(id, s), Track(now)]).evals[id] ==
      TrackOne(cfg, s, feed, extended, FRESH, now)
  {
    hide TrackOne;
    OneCall(id, s, now);
    var first := [Record(id, s)];
    assert first[..0] == [];
    assert Run(cfg, feed, extended, first).evals[id] == FRESH;
    assert first + [Track(now)] == [Record(id, s), Track(now)];
    RunTrack(cfg, feed, extended, first, id, now);
  }

  /** The label is independent of the schedule exactly when no stale label is possible. */
  lemma LabelIsScheduleFreeIff(cfg: Settings, s: Snapshot, feed: Feed, extended: bool, id: string, t: int)
    requires Priced(s)
    ensures LabelIsScheduleFree(cfg, s, feed, extended, id, t) <==> !Stale(cfg, s, feed, t)
  {
    hide LabelAfter, VerdictAt, Due, Latest, Decisions;
    if Stale(cfg, s, feed, t) {
      StaleLabelStays(cfg, s, feed, extended, id, t);
    } else {
      forall calls, calls' | EndsAt(calls, id, s, t) && EndsAt(calls', id, s, t)
        ensures LabelAfter(cfg, feed, extended, calls, id) == LabelAfter(cfg, feed, extended, calls', id)
      {
        LabelUnlessStale(cfg, s, feed, extended, calls, id, t);
        LabelUnlessStale(cfg, s, feed, extended, calls', id, t);
      }
    }
  }
}
