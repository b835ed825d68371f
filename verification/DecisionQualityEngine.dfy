/** The engine that records, tracks and grades decisions (services/pdca/decision_quality.py). */
module DecisionQualityEngines {
  import opened DecisionQuality
  import opened DecisionRuns
  import opened Numeric
  import opened Sums
  import opened Wrappers

  /** How many observations each decision in `ids` gained. */
  ghost function Gains(
    ids: set<string>, before: map<string, Evaluation>, after: map<string, Evaluation>): map<string, real>
    requires ids <= before.Keys && ids <= after.Keys
  {
    map id | id in ids :: Gain(before[id], after[id])
  }

  function Gain(before: Evaluation, after: Evaluation): real {
    (|after.observations| - |before.observations|) as real
  }

  lemma PrefixWhole<T>(s: seq<T>)
    ensures s[..|s|] == s
  {
  }

  class DecisionQualityEngine {
    var snapshots: map<string, Snapshot>
    var evals: map<string, Evaluation>
    const cfg: Settings

    constructor (cfg: Settings)
      ensures View() == Book(map[], map[]) && this.cfg == cfg
    {
      snapshots, evals := map[], map[];
      this.cfg := cfg;
    }

    function View(): Book
      reads this
    {
      Book(snapshots, evals)
    }

    /** False is the tamper error: an id keeps the first snapshot it was given. */
    method Record(id: string, s: Snapshot) returns (ok: bool)
      requires View().Kept() && Priced(s)
      modifies this
      ensures View() == Recorded(old(View()), id, s) && View().Kept()
      ensures ok <==> snapshots[id] == s
    {
      if id in snapshots {
        return snapshots[id] == s;
      }
      snapshots := snapshots[id := s];
      evals := evals[id := FRESH];
      ok := true;
    }

    /** Looks at every matured horizon of every decision, then grades it; returns how many were new. */
    method Track(now: int, feed: Feed, extended: bool) returns (observed: nat)
      requires View().Kept()
      modifies this`evals
      ensures View() == Tracked(cfg, feed, extended, old(View()), now) && View().Kept()
      ensures observed as real == Total(Gains(snapshots.Keys, old(evals), evals))
    {
      hide TrackOne, Total;
      observed := 0;
      var pending := snapshots.Keys;
      ghost var done: set<string> := {};
      NothingGained(old(evals), evals);
      while pending != {}
        invariant done + pending == snapshots.Keys == evals.Keys && done !! pending
        invariant forall id :: id in done ==>
          evals[id] == TrackOne(cfg, snapshots[id], feed, extended, old(evals)[id], now)
        invariant forall id :: id in pending ==> evals[id] == old(evals)[id]
        invariant observed as real == Total(Gains(done, old(evals), evals))
      {
        var id :| id in pending;
        var s, ev := snapshots[id], evals[id];
        var obs, gained := ObserveTargets(s, feed, extended, ev.observations, now);
        var graded := Evaluate(s, ev.(observations := obs));
        TrackedOne(cfg, s, feed, extended, ev, now, obs, graded);
        GainsOneMore(done, old(evals), evals, id, graded);
        observed := observed + gained;
        evals := evals[id := graded];
        pending, done := pending - {id}, done + {id};
      }
    }

    static method ObserveTargets(s: Snapshot, feed: Feed, extended: bool, before: Observations, now: int)
      returns (obs: Observations, gained: nat)
      requires Priced(s)
      ensures obs == ObserveAll(s, feed, before, Targets(s, extended), now)
      ensures gained == |obs| - |before|
    {
      hide Measure, Targets;
      var targets := Targets(s, extended);
      obs, gained := before, 0;
      for i := 0 to |targets|
        invariant obs == ObserveAll(s, feed, before, targets[..i], now)
        invariant gained == |obs| - |before|
      {
        assert targets[..i + 1][..i] == targets[..i];
        var due := Due(s, targets[i]);
        if !(targets[i] in obs || due > now) {
          var o := MeasureAt(s, feed, obs, due);
          obs := obs[targets[i] := o];
          gained := gained + 1;
        }
      }
      PrefixWhole(targets);
    }

    static method MeasureAt(s: Snapshot, feed: Feed, obs: Observations, due: int) returns (o: Observation)
      requires Priced(s)
      ensures o == Measure(s, feed, obs, due)
    {
      var price := feed.price(s.symbol, due);
      var ret := price / s.reference - 1.0;
      var signed := if s.decision == SELL then -ret else ret;
      var prior, mae, mfe := false, signed, signed;
      for i := 0 to |LABELS|
        invariant prior <==> Lowest(obs, LABELS[..i], due, Adverse()).Some?
        invariant prior <==> Lowest(obs, LABELS[..i], due, Favourable()).Some?
        invariant !prior ==> mae == signed && mfe == signed
        invariant prior ==> mae == Min(signed, Lowest(obs, LABELS[..i], due, Adverse()).value)
        invariant prior ==> mfe == -Min(-signed, Lowest(obs, LABELS[..i], due, Favourable()).value)
      {
        var l := LABELS[i];
        assert LABELS[..i + 1][..i] == LABELS[..i];
        if l in obs && obs[l].at <= due {
          prior, mae, mfe := true, Min(mae, obs[l].mae), Max(mfe, obs[l].mfe);
        }
      }
      PrefixWhole(LABELS);
      if !prior {
        mae, mfe := Min(0.0, signed), Max(0.0, signed);
      }
      o := Observation(price, ret, mae, mfe, due, feed.benchmark(s.ts, due));
    }

    method Evaluate(s: Snapshot, before: Evaluation) returns (ev: Evaluation)
      ensures ev == Grade(cfg, s, before)
    {
      ev := before;
      var key := Key(ev.observations);
      if key.None? {
        ev := ev.(outcome := PENDING);
        return;
      }
      ev := Score(cfg, s, ev, ev.observations[key.value]);
      var p := 100.0;
      if !s.ruleCompliant {
        p := p - 60.0;
      }
      if s.decision in {BUY, SELL} && !s.hadStopPlan {
        p := p - 30.0;
      }
      if !s.skepticConsulted {
        p := p - 10.0;
      }
      if !s.dataHealthOk {
        p := p - 20.0;
      }
      ev := ev.(processScore := Max(0.0, p));
      var overall := 0.45 * ev.outcomeScore + 0.55 * ev.processScore;
      if !s.ruleCompliant {
        overall := Min(overall, 40.0);
      }
      ev := ev.(overall := Round2(overall));
    }
  }

  lemma NothingGained(before: map<string, Evaluation>, after: map<string, Evaluation>)
    ensures Total(Gains({}, before, after)) == 0.0
  {
    assert Gains({}, before, after) == map[];
  }

  lemma GainsOneMore(
    done: set<string>, before: map<string, Evaluation>, after: map<string, Evaluation>, id: string, ev: Evaluation)
    requires done <= before.Keys && done <= after.Keys && id in before && id !in done
    ensures Total(Gains(done + {id}, before, after[id := ev])) ==
      Total(Gains(done, before, after)) + Gain(before[id], ev)
  {
    hide Total, Gain;
    var gains := Gains(done, before, after);
    assert id !in gains;
    TotalUpdate(gains, id, Gain(before[id], ev));
    assert Gains(done + {id}, before, after[id := ev]) == gains[id := Gain(before[id], ev)];
  }

  lemma TrackedOne(
    cfg: Settings, s: Snapshot, feed: Feed, extended: bool, ev: Evaluation, now: int, obs: Observations,
    graded: Evaluation)
    requires Priced(s) && obs == ObserveAll(s, feed, ev.observations, Targets(s, extended), now)
    requires graded == Grade(cfg, s, ev.(observations := obs))
    ensures graded == TrackOne(cfg, s, feed, extended, ev, now)
    ensures graded.observations == obs
  {
    hide ObserveAll;
  }
}
