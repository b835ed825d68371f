/** Sized candidates competing for settled cash (services/capital_allocation/engine.py). */
module CapitalAllocation {
  import opened Numeric
  import opened PositionSizing
  import opened Products
  import opened RiskConfigs
  import opened Sums

  /** Calibrated confidence times the middle of the expected return range. */
  function Edge(s: Sized): real {
    Mul(s.confidence, s.proposal.low + s.proposal.high) / 2.0
  }

  // ----- ranking -----

  function InsertRanked(x: Sized, s: seq<Sized>): seq<Sized> {
    if s == [] || Edge(s[0]) <= Edge(x) then [x] + s else [s[0]] + InsertRanked(x, s[1..])
  }

  /** Best edge first; candidates of equal edge keep their order. */
  function Ranked(s: seq<Sized>): seq<Sized> {
    if s == [] then [] else InsertRanked(s[0], Ranked(s[1..]))
  }

  ghost predicate BestFirst(s: seq<Sized>) {
    forall i, j :: 0 <= i < j < |s| ==> Edge(s[j]) <= Edge(s[i])
  }

  lemma {:induction false} InsertKeepsRanking(x: Sized, s: seq<Sized>)
    requires BestFirst(s)
    ensures BestFirst(InsertRanked(x, s))
    ensures multiset(InsertRanked(x, s)) == multiset(s) + multiset{x}
  {
    hide Edge;
    if s != [] && Edge(s[0]) > Edge(x) {
      InsertKeepsRanking(x, s[1..]);
      var t := InsertRanked(x, s[1..]);
      assert s == [s[0]] + s[1..];
      forall j | 0 <= j < |t|
        ensures Edge(t[j]) <= Edge(s[0])
      {
        assert t[j] in multiset(t);
        assert t[j] == x || t[j] in s[1..];
      }
    }
  }

  lemma {:induction false} RankedIsRanking(s: seq<Sized>)
    ensures BestFirst(Ranked(s)) && multiset(Ranked(s)) == multiset(s)
  {
    if s != [] {
      RankedIsRanking(s[1..]);
      InsertKeepsRanking(s[0], Ranked(s[1..]));
      assert s == [s[0]] + s[1..];
    }
  }

  /** The candidates whose edge is exactly `edge`, in order. */
  function WithEdge(s: seq<Sized>, edge: real): seq<Sized> {
    if s == [] then [] else (if Edge(s[0]) == edge then [s[0]] else []) + WithEdge(s[1..], edge)
  }

  lemma {:induction false} InsertIsStable(x: Sized, s: seq<Sized>, edge: real)
    requires BestFirst(s)
    ensures WithEdge(InsertRanked(x, s), edge) == WithEdge([x] + s, edge)
  {
    hide Edge;
    if s != [] && Edge(s[0]) > Edge(x) {
      InsertIsStable(x, s[1..], edge);
      assert ([x] + s)[1..] == s && ([x] + s[1..])[1..] == s[1..];
      assert ([s[0]] + InsertRanked(x, s[1..]))[1..] == InsertRanked(x, s[1..]);
    }
  }

  /** Ties keep the order the candidates came in. */
  lemma {:induction false} RankingIsStable(s: seq<Sized>, edge: real)
    ensures WithEdge(Ranked(s), edge) == WithEdge(s, edge)
  {
    hide Edge;
    if s != [] {
      RankingIsStable(s[1..], edge);
      RankedIsRanking(s[1..]);
      InsertIsStable(s[0], Ranked(s[1..]), edge);
      assert ([s[0]] + Ranked(s[1..]))[1..] == Ranked(s[1..]);
    }
  }

  /**
   What the ranking means: of two candidates whose expected ranges have the same positive
   middle the more confident one is considered first, and of two that are equally (and at all)
   confident the one with the higher middle.
   */
  lemma BetterIsConsideredFirst(s: seq<Sized>, i: nat, j: nat)
    requires i < j < |Ranked(s)|
    ensures var a, b := Ranked(s)[i], Ranked(s)[j];
      && (a.proposal.low + a.proposal.high == b.proposal.low + b.proposal.high > 0.0 ==> b.confidence <= a.confidence)
      && (a.confidence == b.confidence > 0.0 ==> b.proposal.low + b.proposal.high <= a.proposal.low + a.proposal.high)
  {
    hide Ranked, Mul;
    RankedIsRanking(s);
    var a, b := Ranked(s)[i], Ranked(s)[j];
    var x, y := a.proposal.low + a.proposal.high, b.proposal.low + b.proposal.high;
    assert Edge(b) <= Edge(a);
    if x == y > 0.0 {
      CancelLe(b.confidence, a.confidence, x);
    }
    if a.confidence == b.confidence > 0.0 {
      MulComm(a.confidence, x);
      MulComm(b.confidence, y);
      CancelLe(y, x, a.confidence);
    }
  }

  // ----- the greedy pass -----

  datatype Reason = InsufficientCash | ExposureCapReached

  datatype Result = Result(accepted: seq<Sized>, skipped: seq<(Sized, Reason)>, cashLeft: real, exposure: real)

  predicate FitsCash(r: Result, s: Sized) {
    s.notional <= r.cashLeft + EPS
  }

  predicate FitsCap(r: Result, s: Sized, cap: real) {
    r.exposure + s.notional <= cap + EPS
  }

  function Consider(r: Result, s: Sized, cap: real): Result {
    if !FitsCash(r, s) then r.(skipped := r.skipped + [(s, InsufficientCash)])
    else if !FitsCap(r, s, cap) then r.(skipped := r.skipped + [(s, ExposureCapReached)])
    else Result(r.accepted + [s], r.skipped, r.cashLeft - s.notional, r.exposure + s.notional)
  }

  function ConsiderAll(ranked: seq<Sized>, cash: real, exposure: real, cap: real): Result {
    if ranked == [] then Result([], [], cash, exposure)
    else Consider(ConsiderAll(ranked[..|ranked| - 1], cash, exposure, cap), ranked[|ranked| - 1], cap)
  }

  function Allocate(cfg: RiskConfig, candidates: seq<Sized>, equity: real, cash: real, exposure: real): Result {
    ConsiderAll(Ranked(candidates), cash, exposure, ExposureCap(cfg, equity))
  }

  function NotionalOf(): Sized -> real {
    (s: Sized) => s.notional
  }

  function SkippedOf(skipped: seq<(Sized, Reason)>): seq<Sized> {
    if skipped == [] then [] else SkippedOf(skipped[..|skipped| - 1]) + [skipped[|skipped| - 1].0]
  }

  ghost predicate Positive(s: seq<Sized>) {
    forall x :: x in s ==> x.notional > 0.0
  }

  /** The running figures are the sums they stand for, and the tolerance is spent at most once in all. */
  ghost predicate Books(r: Result, cash: real, exposure: real, cap: real) {
    && r.cashLeft == cash - SumBy(r.accepted, NotionalOf())
    && r.exposure == exposure + SumBy(r.accepted, NotionalOf())
    && (r.accepted != [] ==> r.cashLeft >= -EPS && r.exposure <= cap + EPS)
  }

  lemma {:induction false} PassKeepsBooks(ranked: seq<Sized>, cash: real, exposure: real, cap: real)
    requires Positive(ranked)
    ensures Books(ConsiderAll(ranked, cash, exposure, cap), cash, exposure, cap)
  {
    if ranked != [] {
      var n := |ranked| - 1;
      PassKeepsBooks(ranked[..n], cash, exposure, cap);
      SumSnoc(ConsiderAll(ranked[..n], cash, exposure, cap).accepted, ranked[n], NotionalOf());
    }
  }

  /** Later candidates only ever leave less. */
  lemma {:induction false} LessAndLess(ranked: seq<Sized>, k: nat, cash: real, exposure: real, cap: real)
    requires Positive(ranked) && k <= |ranked|
    ensures ConsiderAll(ranked, cash, exposure, cap).cashLeft <= ConsiderAll(ranked[..k], cash, exposure, cap).cashLeft
    ensures ConsiderAll(ranked, cash, exposure, cap).exposure >= ConsiderAll(ranked[..k], cash, exposure, cap).exposure
    ensures ConsiderAll(ranked[..k], cash, exposure, cap).accepted <= ConsiderAll(ranked, cash, exposure, cap).accepted
  {
    if k < |ranked| {
      var n := |ranked| - 1;
      LessAndLess(ranked[..n], k, cash, exposure, cap);
      assert ranked[..n][..k] == ranked[..k];
    } else {
      assert ranked[..k] == ranked;
    }
  }

  ghost function Outcome(r: Result): multiset<Sized> {
    multiset(r.accepted) + multiset(SkippedOf(r.skipped))
  }

  lemma OneMoreDecided(r: Result, s: Sized, cap: real)
    ensures Outcome(Consider(r, s, cap)) == Outcome(r) + multiset{s}
  {
    var after := Consider(r, s, cap);
    if after.accepted == r.accepted {
      assert after.skipped[..|r.skipped|] == r.skipped;
    }
  }

  /** Every candidate is accepted or skipped, once for each time it was put forward. */
  lemma {:induction false} NobodyLost(ranked: seq<Sized>, cash: real, exposure: real, cap: real)
    ensures Outcome(ConsiderAll(ranked, cash, exposure, cap)) == multiset(ranked)
  {
    hide Outcome, Consider;
    if ranked == [] {
      NobodyYet(cash, exposure);
    } else {
      var n := |ranked| - 1;
      NobodyLost(ranked[..n], cash, exposure, cap);
      OneMoreDecided(ConsiderAll(ranked[..n], cash, exposure, cap), ranked[n], cap);
      assert ranked == ranked[..n] + [ranked[n]];
    }
  }

  lemma NobodyYet(cash: real, exposure: real)
    ensures Outcome(Result([], [], cash, exposure)) == multiset{}
  {
  }

  /** Where in the ranking a skipped candidate stood, and that it did not fit then. */
  lemma {:induction false} SkippedAt(ranked: seq<Sized>, x: (Sized, Reason), cash: real, exposure: real, cap: real)
    returns (k: nat)
    requires x in ConsiderAll(ranked, cash, exposure, cap).skipped
    ensures k < |ranked| && ranked[k] == x.0
    ensures var r := ConsiderAll(ranked[..k], cash, exposure, cap);
      if x.1 == InsufficientCash then !FitsCash(r, x.0) else !FitsCap(r, x.0, cap)
  {
    var n := |ranked| - 1;
    if x in ConsiderAll(ranked[..n], cash, exposure, cap).skipped {
      k := SkippedAt(ranked[..n], x, cash, exposure, cap);
      assert ranked[..n][..k] == ranked[..k];
    } else {
      k := n;
    }
  }

  /** All accepted orders together cost no more than the settled cash and one tolerance, and so for the exposure cap. */
  lemma AllocationWithinCash(cfg: RiskConfig, candidates: seq<Sized>, equity: real, cash: real, exposure: real)
    requires Positive(candidates)
    ensures var r := Allocate(cfg, candidates, equity, cash, exposure);
      r.accepted != [] ==>
        && SumBy(r.accepted, NotionalOf()) <= cash + EPS
        && exposure + SumBy(r.accepted, NotionalOf()) <= ExposureCap(cfg, equity) + EPS
  {
    RankedPositive(candidates);
    PassKeepsBooks(Ranked(candidates), cash, exposure, ExposureCap(cfg, equity));
  }

  lemma RankedPositive(candidates: seq<Sized>)
    requires Positive(candidates)
    ensures Positive(Ranked(candidates))
  {
    RankedIsRanking(candidates);
    forall x | x in Ranked(candidates)
      ensures x.notional > 0.0
    {
      assert x in multiset(candidates);
    }
  }

  /** Whoever was skipped, for the reason given, would still not fit once everyone has been considered. */
  lemma NoSkippedCandidateFits(
    cfg: RiskConfig, candidates: seq<Sized>, equity: real, cash: real, exposure: real, x: (Sized, Reason))
    requires Positive(candidates) && x in Allocate(cfg, candidates, equity, cash, exposure).skipped
    ensures var r := Allocate(cfg, candidates, equity, cash, exposure);
      if x.1 == InsufficientCash then !FitsCash(r, x.0) else !FitsCap(r, x.0, ExposureCap(cfg, equity))
  {
    hide Ranked, ConsiderAll, ExposureCap;
    var cap := ExposureCap(cfg, equity);
    RankedPositive(candidates);
    var k := SkippedAt(Ranked(candidates), x, cash, exposure, cap);
    LessAndLess(Ranked(candidates), k, cash, exposure, cap);
  }

  /** A candidate is skipped only because of accepted ones whose edge is at least its own. */
  lemma SkippedForBetter(
    cfg: RiskConfig, candidates: seq<Sized>, equity: real, cash: real, exposure: real, x: (Sized, Reason))
    returns (better: seq<Sized>)
    requires Positive(candidates) && x in Allocate(cfg, candidates, equity, cash, exposure).skipped
    ensures better <= Allocate(cfg, candidates, equity, cash, exposure).accepted
    ensures forall b :: b in better ==> Edge(b) >= Edge(x.0)
    ensures if x.1 == InsufficientCash then x.0.notional > cash - SumBy(better, NotionalOf()) + EPS
            else exposure + SumBy(better, NotionalOf()) + x.0.notional > ExposureCap(cfg, equity) + EPS
  {
    hide Ranked, ConsiderAll, ExposureCap, Edge;
    var ranked, cap := Ranked(candidates), ExposureCap(cfg, equity);
    RankedPositive(candidates);
    RankedIsRanking(candidates);
    var k := SkippedAt(ranked, x, cash, exposure, cap);
    LessAndLess(ranked, k, cash, exposure, cap);
    PassKeepsBooks(ranked[..k], cash, exposure, cap);
    better := ConsiderAll(ranked[..k], cash, exposure, cap).accepted;
    forall b | b in better
      ensures Edge(b) >= Edge(x.0)
    {
      NobodyLost(ranked[..k], cash, exposure, cap);
      assert b in multiset(ranked[..k]);
    }
  }

  /** Allocation decides every candidate it was given, and nothing else. */
  lemma EveryCandidateIsDecided(cfg: RiskConfig, candidates: seq<Sized>, equity: real, cash: real, exposure: real)
    ensures Outcome(Allocate(cfg, candidates, equity, cash, exposure)) == multiset(candidates)
  {
    hide Outcome, Ranked, ConsiderAll;
    RankedIsRanking(candidates);
    NobodyLost(Ranked(candidates), cash, exposure, ExposureCap(cfg, equity));
  }

  class CapitalAllocationEngine {
    const cfg: RiskConfig

    constructor (cfg: RiskConfig)
      ensures this.cfg == cfg
    {
      this.cfg := cfg;
    }

    method AllocateCash(candidates: seq<Sized>, equity: real, settledCash: real, current: real) returns (r: Result)
      ensures r == Allocate(cfg, candidates, equity, settledCash, current)
    {
      hide Ranked, Mul;
      var ranked, maxTotal := Ranked(candidates), Mul(Mul(equity, cfg.maxTotalExposure), cfg.capStage);
      var accepted, skipped, cashLeft, exposure := [], [], settledCash, current;
      for i := 0 to |ranked|
        invariant Result(accepted, skipped, cashLeft, exposure) == ConsiderAll(ranked[..i], settledCash, current, maxTotal)
      {
        assert ranked[..i + 1][..i] == ranked[..i];
        var s := ranked[i];
        if s.notional > cashLeft + EPS {
          skipped := skipped + [(s, InsufficientCash)];
        } else if exposure + s.notional > maxTotal + EPS {
          skipped := skipped + [(s, ExposureCapReached)];
        } else {
          accepted := accepted + [s];
          cashLeft, exposure := cashLeft - s.notional, exposure + s.notional;
        }
      }
      assert ranked[..|ranked|] == ranked;
      r := Result(accepted, skipped, cashLeft, exposure);
    }
  }
}
