/**
 Firing a stop: which exits it produces, why they always fit once the batch check has
 passed, and why overlapping triggers never claim the same shares twice
 (services/capital_cells/stops.py).
 */
module Stops {
  import opened Numeric
  import opened Sums
  import opened Intents
  import opened CellLedgers
  import opened NettingEngine
  import opened SellReservations
  import opened Wrappers

  datatype StopScope = CELL | SYMBOL | PORTFOLIO

  datatype StopPlan = StopPlan(cell: string, symbol: string, scope: StopScope)

  type Target = (string, string)

  ghost predicate Reached(plan: StopPlan, book: Book, cell: string, symbol: string) {
    match plan.scope
    case CELL => cell == plan.cell && symbol == plan.symbol
    case SYMBOL => symbol == plan.symbol && cell in book && Holding(book, cell, symbol) > EPS
    case PORTFOLIO => cell in book && Holding(book, cell, symbol) > EPS
  }

  /** The targets of a stop, each once, in whatever order the cells are visited. */
  ghost predicate TargetsOf(plan: StopPlan, book: Book, targets: seq<Target>) {
    && NoRepeats(targets)
    && forall c, s :: (c, s) in targets <==> Reached(plan, book, c, s)
  }

  /** What a cell holds beyond what is already claimed for it. */
  ghost function Unclaimed(book: Book, open: map<string, Reservation>, cell: string, symbol: string): real {
    Holding(book, cell, symbol) - ReservedBy(open, cell, symbol)
  }

  /** What a target adds to the plan. */
  ghost function Exit(book: Book, open: map<string, Reservation>, c: string, s: string): seq<Reservation> {
    if c in book && Unclaimed(book, open, c, s) > EPS then [Reservation(c, s, Unclaimed(book, open, c, s))] else []
  }

  /** The exits planned for the targets, touching no state. */
  ghost function Planned(book: Book, open: map<string, Reservation>, targets: seq<Target>): seq<Reservation> {
    if targets == [] then []
    else
      var n := |targets| - 1;
      Planned(book, open, targets[..n]) + Exit(book, open, targets[n].0, targets[n].1)
  }

  /** The batch check: per symbol, the total demand against what is available. */
  ghost predicate Fits(c: Claims, exits: seq<Reservation>) {
    forall symbol :: CanReserve(c, symbol, SumBy(exits, ClaimOn(symbol)))
  }

  function ExitId(stop: string, r: Reservation, suffix: string): string {
    stop + ":" + r.cell + ":" + r.symbol + ":" + suffix
  }

  function ExitIntent(id: string, r: Reservation): Intent {
    Intent(id, r.cell, r.symbol, SELL, r.qty)
  }

  /** The random suffixes drawn for these exits make ids no one holds, all different. */
  ghost predicate Fresh(open: map<string, Reservation>, stop: string, exits: seq<Reservation>, suffix: nat -> string) {
    && (forall k :: 0 <= k < |exits| ==> ExitId(stop, exits[k], suffix(k)) !in open)
    && (forall j, k :: 0 <= j < k < |exits| ==> ExitId(stop, exits[j], suffix(j)) != ExitId(stop, exits[k], suffix(k)))
  }

  datatype Commitment = Commitment(claims: Claims, intents: seq<Intent>, stopped: bool)

  /** Reserves the exits one by one and stops at the first refusal; earlier ones stay reserved. */
  ghost function Commit(c: Claims, stop: string, exits: seq<Reservation>, suffix: nat -> string): Commitment {
    if exits == [] then Commitment(c, [], false)
    else
      var n := |exits| - 1;
      var before := Commit(c, stop, exits[..n], suffix);
      var id := ExitId(stop, exits[n], suffix(n));
      if before.stopped then before
      else
        match Reserve(before.claims, id, exits[n])
        case Granted(claims) => Commitment(claims, before.intents + [ExitIntent(id, exits[n])], false)
        case _ => before.(stopped := true)
  }

  ghost predicate Worthwhile(exits: seq<Reservation>) {
    forall r :: r in exits ==> r.qty > EPS
  }

  lemma CommitSnoc(c: Claims, stop: string, exits: seq<Reservation>, suffix: nat -> string, k: nat)
    requires k < |exits| && !Commit(c, stop, exits[..k], suffix).stopped
    ensures var before := Commit(c, stop, exits[..k], suffix);
            var id := ExitId(stop, exits[k], suffix(k));
            Commit(c, stop, exits[..k + 1], suffix)
            == match Reserve(before.claims, id, exits[k])
               case Granted(claims) => Commitment(claims, before.intents + [ExitIntent(id, exits[k])], false)
               case _ => before.(stopped := true)
  {
    assert exits[..k + 1][..k] == exits[..k];
  }

  /** Room for the whole demand of a symbol is room for each exit in turn, tolerance and all. */
  lemma RoomForNext(master: real, reserved: real, sooner: real, qty: real, demand: real)
    requires sooner >= 0.0 && qty > EPS && sooner + qty <= demand
    requires demand <= Max(0.0, master - reserved) + EPS
    ensures qty <= Max(0.0, master - (reserved + sooner)) + EPS
  {
  }

  lemma DemandSoFar(exits: seq<Reservation>, k: nat, symbol: string)
    requires Worthwhile(exits) && k < |exits| && exits[k].symbol == symbol
    ensures 0.0 <= SumBy(exits[..k], ClaimOn(symbol))
    ensures SumBy(exits[..k], ClaimOn(symbol)) + exits[k].qty <= SumBy(exits, ClaimOn(symbol))
  {
    forall r | r in exits
      ensures ClaimOn(symbol)(r) >= 0.0
    {
    }
    SumNonNegative(exits[..k], ClaimOn(symbol));
    SumPrefix(exits, k, ClaimOn(symbol));
    SumPrefixLe(exits, k + 1, ClaimOn(symbol));
  }

  /**
   Once the batch check has passed, no reservation of the commit loop is refused, and each
   sum over the open reservations grows by exactly the exits' share of it.
   */
  lemma {:induction false} CommitGrants(
    c: Claims, stop: string, exits: seq<Reservation>, suffix: nat -> string, k: nat, f: Reservation -> real)
    requires Worthwhile(exits) && Fits(c, exits) && Fresh(c.open, stop, exits, suffix) && k <= |exits|
    ensures var r := Commit(c, stop, exits[..k], suffix);
            && !r.stopped && r.claims.master == c.master && (c.Positive() ==> r.claims.Positive())
            && SumOpen(r.claims.open, f) == SumOpen(c.open, f) + SumBy(exits[..k], f)
            && OnlyAdds(r.claims.open, c.open, stop, exits, suffix, k)
    decreases k
  {
    if k > 0 {
      var e, before := exits[k - 1], Commit(c, stop, exits[..k - 1], suffix);
      assert e in exits;
      CommitGrants(c, stop, exits, suffix, k - 1, ClaimOn(e.symbol));
      CommitGrants(c, stop, exits, suffix, k - 1, f);
      CommitSnoc(c, stop, exits, suffix, k - 1);
      NewId(before.claims.open, c.open, stop, exits, suffix, k - 1);
      DemandSoFar(exits, k - 1, e.symbol);
      assert CanReserve(c, e.symbol, SumBy(exits, ClaimOn(e.symbol)));
      RoomForNext(c.MasterQty(e.symbol), Reserved(c.open, e.symbol), SumBy(exits[..k - 1], ClaimOn(e.symbol)), e.qty,
                  SumBy(exits, ClaimOn(e.symbol)));
      SumOpenAdd(before.claims.open, ExitId(stop, e, suffix(k - 1)), e, f);
      SumPrefix(exits, k - 1, f);
    } else {
      assert exits[..0] == [];
    }
  }

  /** Every id that was not there before is that of one of the first `k` exits. */
  ghost predicate OnlyAdds(
    now: map<string, Reservation>, before: map<string, Reservation>, stop: string, exits: seq<Reservation>, suffix: nat -> string, k: nat)
    requires k <= |exits|
  {
    forall id :: id in now && id !in before ==> exists j :: 0 <= j < k && id == ExitId(stop, exits[j], suffix(j))
  }

  lemma NewId(
    now: map<string, Reservation>, before: map<string, Reservation>, stop: string, exits: seq<Reservation>, suffix: nat -> string, k: nat)
    requires k < |exits| && Fresh(before, stop, exits, suffix) && OnlyAdds(now, before, stop, exits, suffix, k)
    ensures ExitId(stop, exits[k], suffix(k)) !in now
    ensures OnlyAdds(now[ExitId(stop, exits[k], suffix(k)) := exits[k]], before, stop, exits, suffix, k + 1)
  {
    hide ExitId;
  }

  lemma {:induction false} PlannedWorthwhile(book: Book, open: map<string, Reservation>, targets: seq<Target>)
    ensures Worthwhile(Planned(book, open, targets))
  {
    if targets != [] {
      PlannedWorthwhile(book, open, targets[..|targets| - 1]);
    }
  }

  lemma ExitAdds(
    before: seq<Reservation>, book: Book, open: map<string, Reservation>, d: string, t: string, c: string, s: string)
    ensures SumBy(before + Exit(book, open, d, t), ClaimBy(c, s))
         == SumBy(before, ClaimBy(c, s))
          + if (d, t) == (c, s) && c in book && Unclaimed(book, open, c, s) > EPS then Unclaimed(book, open, c, s) else 0.0
  {
    hide Unclaimed;
    if d in book && Unclaimed(book, open, d, t) > EPS {
      SumSnoc(before, Reservation(d, t, Unclaimed(book, open, d, t)), ClaimBy(c, s));
    } else {
      assert before + [] == before;
    }
  }

  lemma PlannedLast(book: Book, open: map<string, Reservation>, targets: seq<Target>)
    requires targets != []
    ensures var n := |targets| - 1;
            Planned(book, open, targets) == Planned(book, open, targets[..n]) + Exit(book, open, targets[n].0, targets[n].1)
    ensures targets == targets[..|targets| - 1] + [targets[|targets| - 1]]
    ensures NoRepeats(targets) ==> NoRepeats(targets[..|targets| - 1]) && targets[|targets| - 1] !in targets[..|targets| - 1]
  {
    hide Unclaimed;
  }

  /** Each (cell, symbol) is asked for once, for all that is unclaimed. */
  lemma {:induction false} PlannedFor(
    book: Book, open: map<string, Reservation>, targets: seq<Target>, c: string, s: string)
    requires NoRepeats(targets)
    ensures SumBy(Planned(book, open, targets), ClaimBy(c, s))
         == if (c, s) in targets && c in book && Unclaimed(book, open, c, s) > EPS then Unclaimed(book, open, c, s) else 0.0
  {
    hide Unclaimed, ClaimBy, NoRepeats, Exit;
    if targets != [] {
      var n := |targets| - 1;
      PlannedLast(book, open, targets);
      PlannedFor(book, open, targets[..n], c, s);
      ExitAdds(Planned(book, open, targets[..n]), book, open, targets[n].0, targets[n].1, c, s);
      assert targets[n] == (targets[n].0, targets[n].1);
    }
  }

  // ----- one trigger -----

  datatype Fired = Exits(intents: seq<Intent>) | UnknownStop | OversellError | Interrupted

  /** The claims after a trigger: those of the commit when the batch fits, else unchanged. */
  ghost function Claimed(c: Claims, book: Book, stop: string, targets: seq<Target>, suffix: nat -> string): Claims {
    var exits := Planned(book, c.open, targets);
    if Fits(c, exits) then Commit(c, stop, exits, suffix).claims else c
  }

  /** A trigger that fires brings every target's claim up to its holding, and touches no other claim. */
  lemma TriggerClaims(
    c: Claims, book: Book, stop: string, targets: seq<Target>, suffix: nat -> string, cell: string, symbol: string)
    requires NoRepeats(targets) && Fits(c, Planned(book, c.open, targets))
    requires Fresh(c.open, stop, Planned(book, c.open, targets), suffix)
    ensures !Commit(c, stop, Planned(book, c.open, targets), suffix).stopped
    ensures var after := Claimed(c, book, stop, targets, suffix);
            ReservedBy(after.open, cell, symbol)
            == if (cell, symbol) in targets && cell in book && Unclaimed(book, c.open, cell, symbol) > EPS
               then Holding(book, cell, symbol) else ReservedBy(c.open, cell, symbol)
  {
    var exits := Planned(book, c.open, targets);
    PlannedWorthwhile(book, c.open, targets);
    CommitGrants(c, stop, exits, suffix, |exits|, ClaimBy(cell, symbol));
    assert exits[..|exits|] == exits;
    PlannedFor(book, c.open, targets, cell, symbol);
  }

  lemma {:induction false} NothingUnclaimed(book: Book, open: map<string, Reservation>, targets: seq<Target>)
    requires forall c, s :: (c, s) in targets && c in book ==> Unclaimed(book, open, c, s) <= EPS
    ensures Planned(book, open, targets) == []
  {
    if targets != [] {
      var n := |targets| - 1;
      forall c, s | (c, s) in targets[..n] && c in book
        ensures Unclaimed(book, open, c, s) <= EPS
      {
        assert (c, s) in targets;
      }
      NothingUnclaimed(book, open, targets[..n]);
      var (c, s) := targets[n];
      assert (c, s) == targets[n] && targets[n] in targets;
    }
  }

  /** After a stop has fired, any stop that reaches no further yields no exit. */
  lemma RefireYieldsNothing(
    c: Claims, book: Book, stop: string, targets: seq<Target>, suffix: nat -> string, again: seq<Target>)
    requires NoRepeats(targets) && Fits(c, Planned(book, c.open, targets))
    requires Fresh(c.open, stop, Planned(book, c.open, targets), suffix)
    requires forall t :: t in again ==> t in targets
    ensures Planned(book, Claimed(c, book, stop, targets, suffix).open, again) == []
  {
    var after := Claimed(c, book, stop, targets, suffix);
    forall d, s | (d, s) in again && d in book
      ensures Unclaimed(book, after.open, d, s) <= EPS
    {
      TriggerClaims(c, book, stop, targets, suffix, d, s);
    }
    NothingUnclaimed(book, after.open, again);
  }

  // ----- runs of overlapping triggers -----

  datatype Op =
    | Fire(stop: string, plan: StopPlan, targets: seq<Target>, suffix: nat -> string)
    | Finish(id: string)
    | Sync(symbol: string, qty: real)

  ghost function Act(c: Claims, book: Book, op: Op): Claims {
    match op
    case Fire(stop, _, targets, suffix) => Claimed(c, book, stop, targets, suffix)
    case Finish(id) => c.(open := c.open - {id})
    case Sync(symbol, qty) => c.(master := c.master[symbol := qty])
  }

  ghost predicate ProperOp(c: Claims, book: Book, op: Op) {
    op.Fire? ==> TargetsOf(op.plan, book, op.targets) && Fresh(c.open, op.stop, Planned(book, c.open, op.targets), op.suffix)
  }

  /** No cell's exits in flight exceed its holding. */
  ghost predicate Covered(c: Claims, book: Book) {
    c.Positive() && forall cell, symbol :: ReservedBy(c.open, cell, symbol) <= Holding(book, cell, symbol)
  }

  /** The exits in flight of a symbol exceed the master position by at most one tolerance. */
  ghost predicate WithinMaster(c: Claims) {
    forall symbol :: Reserved(c.open, symbol) <= Max(0.0, c.MasterQty(symbol)) + EPS
  }

  lemma FinishLowers(c: Claims, id: string, f: Reservation -> real)
    requires forall r: Reservation :: r.qty > 0.0 ==> f(r) >= 0.0
    requires c.Positive()
    ensures SumOpen((c.open - {id}), f) <= SumOpen(c.open, f)
  {
    if id in c.open {
      SumOpenRemove(c.open, id, f);
    } else {
      assert c.open - {id} == c.open;
    }
  }

  lemma ActKeepsCovered(c: Claims, book: Book, op: Op)
    requires Covered(c, book) && ProperOp(c, book, op)
    ensures Covered(Act(c, book, op), book)
  {
    match op
    case Fire(stop, _, targets, suffix) =>
      var exits := Planned(book, c.open, targets);
      if Fits(c, exits) {
        PlannedWorthwhile(book, c.open, targets);
        CommitGrants(c, stop, exits, suffix, |exits|, ClaimOn(""));
        assert exits[..|exits|] == exits;
        forall cell, symbol
          ensures ReservedBy(Act(c, book, op).open, cell, symbol) <= Holding(book, cell, symbol)
        {
          TriggerClaims(c, book, stop, targets, suffix, cell, symbol);
        }
      }
    case Finish(id) =>
      forall cell, symbol
        ensures ReservedBy(Act(c, book, op).open, cell, symbol) <= Holding(book, cell, symbol)
      {
        FinishLowers(c, id, ClaimBy(cell, symbol));
      }
    case Sync(_, _) =>
  }

  ghost predicate NeverLowers(c: Claims, op: Op) {
    op.Sync? ==> op.qty >= c.MasterQty(op.symbol)
  }

  lemma ActKeepsWithinMaster(c: Claims, book: Book, op: Op)
    requires c.Positive() && WithinMaster(c) && ProperOp(c, book, op) && NeverLowers(c, op)
    ensures WithinMaster(Act(c, book, op))
  {
    match op
    case Fire(stop, _, targets, suffix) =>
      var exits := Planned(book, c.open, targets);
      if Fits(c, exits) {
        PlannedWorthwhile(book, c.open, targets);
        assert exits[..|exits|] == exits;
        forall symbol
          ensures Reserved(Act(c, book, op).open, symbol) <= Max(0.0, Act(c, book, op).MasterQty(symbol)) + EPS
        {
          CommitGrants(c, stop, exits, suffix, |exits|, ClaimOn(symbol));
          NoneOrMore(exits, symbol);
          assert CanReserve(c, symbol, SumBy(exits, ClaimOn(symbol)));
        }
      }
    case Finish(id) =>
      forall symbol
        ensures Reserved(Act(c, book, op).open, symbol) <= Max(0.0, c.MasterQty(symbol)) + EPS
      {
        FinishLowers(c, id, ClaimOn(symbol));
      }
    case Sync(_, _) =>
  }

  /** A symbol's demand is nothing, or more than dust. */
  lemma {:induction false} NoneOrMore(exits: seq<Reservation>, symbol: string)
    requires Worthwhile(exits)
    ensures SumBy(exits, ClaimOn(symbol)) == 0.0 || SumBy(exits, ClaimOn(symbol)) > EPS
  {
    if exits != [] {
      assert exits[|exits| - 1] in exits;
      NoneOrMore(exits[..|exits| - 1], symbol);
    }
  }

  ghost function After(c: Claims, book: Book, ops: seq<Op>): Claims {
    if ops == [] then c else Act(After(c, book, ops[..|ops| - 1]), book, ops[|ops| - 1])
  }

  ghost predicate ProperRun(c: Claims, book: Book, ops: seq<Op>) {
    forall i :: 0 <= i < |ops| ==> ProperOp(After(c, book, ops[..i]), book, ops[i])
  }

  lemma ShorterRun(c: Claims, book: Book, ops: seq<Op>)
    requires ops != [] && ProperRun(c, book, ops)
    ensures var n := |ops| - 1;
            ProperRun(c, book, ops[..n]) && ProperOp(After(c, book, ops[..n]), book, ops[n])
  {
    var n := |ops| - 1;
    forall i | 0 <= i < n
      ensures ProperOp(After(c, book, ops[..n][..i]), book, ops[..n][i])
    {
      assert ops[..n][..i] == ops[..i];
    }
  }

  /**
   Over any sequence of overlapping triggers, releases and syncs on unchanged cells, each
   (cell, symbol) is claimed at most its holding.
   */
  lemma {:induction false} NeverDoubleClaimed(c: Claims, book: Book, ops: seq<Op>)
    requires Covered(c, book) && ProperRun(c, book, ops)
    ensures Covered(After(c, book, ops), book)
  {
    if ops != [] {
      var n := |ops| - 1;
      ShorterRun(c, book, ops);
      NeverDoubleClaimed(c, book, ops[..n]);
      ActKeepsCovered(After(c, book, ops[..n]), book, ops[n]);
    }
  }

  /**
   As long as no sync lowers a master position, the claims on a symbol stay within the
   master position plus one tolerance, however many triggers are fired.
   */
  lemma {:induction false} ToleranceNeverAccumulates(c: Claims, book: Book, ops: seq<Op>)
    requires Covered(c, book) && WithinMaster(c) && ProperRun(c, book, ops)
    requires forall i :: 0 <= i < |ops| ==> NeverLowers(After(c, book, ops[..i]), ops[i])
    ensures WithinMaster(After(c, book, ops))
  {
    if ops != [] {
      var n := |ops| - 1;
      ShorterRun(c, book, ops);
      NeverDoubleClaimed(c, book, ops[..n]);
      forall i | 0 <= i < n
        ensures NeverLowers(After(c, book, ops[..n][..i]), ops[..n][i])
      {
        assert ops[..n][..i] == ops[..i];
      }
      ToleranceNeverAccumulates(c, book, ops[..n]);
      assert NeverLowers(After(c, book, ops[..n]), ops[n]);
      ActKeepsWithinMaster(After(c, book, ops[..n]), book, ops[n]);
    }
  }

  // ----- the exits in flight and the netting engine -----

  /** Distinct exits, each of them in flight. */
  ghost predicate InFlight(exits: seq<Intent>, open: map<string, Reservation>) {
    && UniqueIds(exits)
    && forall i :: 0 <= i < |exits| ==> exits[i].id in open && exits[i] == ExitIntent(exits[i].id, open[exits[i].id])
  }

  lemma {:induction false} DemandWithinClaims(
    exits: seq<Intent>, open: map<string, Reservation>, cell: string, symbol: string)
    requires InFlight(exits, open) && forall id :: id in open ==> open[id].qty > 0.0
    ensures SellDemand(exits, cell, symbol) <= ReservedBy(open, cell, symbol)
    decreases |exits|
  {
    if exits == [] {
      SumOpenNonNegative(open, ClaimBy(cell, symbol));
    } else {
      var n := |exits| - 1;
      SumOpenRemove(open, exits[n].id, ClaimBy(cell, symbol));
      DemandWithinClaims(exits[..n], open - {exits[n].id}, cell, symbol);
    }
  }

  /** Whatever exits are still in flight, netting accepts them together: it finds no cell short. */
  lemma ExitsInFlightPassNetting(exits: seq<Intent>, c: Claims, book: Book)
    requires Covered(c, book) && InFlight(exits, c.open)
    ensures UniqueIds(exits) && KnownCells(exits, book) && NoCellShort(exits, book)
  {
    forall cell, symbol
      ensures SellDemand(exits, cell, symbol) <= Holding(book, cell, symbol)
    {
      DemandWithinClaims(exits, c.open, cell, symbol);
    }
    forall x | x in exits
      ensures x.cell in book
    {
      ClaimIsPositive(c.open, x.id);
      assert ReservedBy(c.open, x.cell, x.symbol) <= Holding(book, x.cell, x.symbol);
    }
  }

  lemma ClaimIsPositive(open: map<string, Reservation>, id: string)
    requires id in open && forall i :: i in open ==> open[i].qty > 0.0
    ensures ReservedBy(open, open[id].cell, open[id].symbol) > 0.0
  {
    var f := ClaimBy(open[id].cell, open[id].symbol);
    SumOpenRemove(open, id, f);
    SumOpenNonNegative(open - {id}, f);
  }

  // ----- the registry -----

  /** What a trigger returns, from the state before it. */
  ghost function FireResult(c: Claims, stop: string, exits: seq<Reservation>, suffix: nat -> string): Fired {
    if !Fits(c, exits) then OversellError
    else
      var r := Commit(c, stop, exits, suffix);
      if r.stopped then Interrupted else Exits(r.intents)
  }

  class CellStopRegistry {
    const sales: SellReservationLedger
    var stops: map<string, StopPlan>

    constructor (sales: SellReservationLedger)
      ensures this.sales == sales && stops == map[]
    {
      this.sales, stops := sales, map[];
    }

    method Register(stop: string, plan: StopPlan) returns (isNew: bool)
      modifies this
      ensures isNew <==> stop !in old(stops)
      ensures stops == if isNew then old(stops)[stop := plan] else old(stops)
    {
      if stop in stops {
        return false;
      }
      stops := stops[stop := plan];
      isNew := true;
    }

    method Cancel(stop: string) returns (known: bool)
      modifies this
      ensures known <==> stop in old(stops)
      ensures stops == if known then old(stops) - {stop} else old(stops)
    {
      if stop !in stops {
        return false;
      }
      stops := stops - {stop};
      known := true;
    }

    /** The targets of one cell: the symbols it holds, limited to `symbol` unless `all`. */
    method CellTargets(id: string, cell: CellLedger, symbol: string, all: bool) returns (targets: seq<Target>)
      ensures NoRepeats(targets)
      ensures forall c, s :: (c, s) in targets <==>
                c == id && (all || s == symbol) && cell.State().PositionQty(s) > EPS
    {
      targets := [];
      var rest := cell.positions.Keys;
      while rest != {}
        invariant rest <= cell.positions.Keys && NoRepeats(targets)
        invariant forall c, s :: (c, s) in targets <==>
                    c == id && s in cell.positions.Keys - rest && (all || s == symbol) && cell.positions[s].qty > EPS
      {
        var s :| s in rest;
        if (all || s == symbol) && cell.positions[s].qty > EPS {
          targets := targets + [(id, s)];
        }
        rest := rest - {s};
      }
    }

    method FindTargets(plan: StopPlan, cells: Cells) returns (targets: seq<Target>)
      ensures TargetsOf(plan, BookOf(cells), targets)
    {
      if plan.scope == CELL {
        return [(plan.cell, plan.symbol)];
      }
      targets := [];
      var rest := cells.Keys;
      while rest != {}
        invariant rest <= cells.Keys && NoRepeats(targets)
        invariant forall c, s :: (c, s) in targets <==> c !in rest && Reached(plan, BookOf(cells), c, s)
      {
        var id :| id in rest;
        var more := CellTargets(id, cells[id], plan.symbol, plan.scope == PORTFOLIO);
        assert forall t :: t in targets ==> t == (t.0, t.1) && t.0 != id;
        assert forall t :: t in more ==> t == (t.0, t.1) && t.0 == id;
        NoRepeatsAppend(targets, more);
        targets := targets + more;
        rest := rest - {id};
      }
    }

    method PlanExits(targets: seq<Target>, cells: Cells) returns (exits: seq<Reservation>)
      ensures exits == Planned(BookOf(cells), sales.reservations, targets)
    {
      exits := [];
      for i := 0 to |targets|
        invariant exits == Planned(BookOf(cells), sales.reservations, targets[..i])
      {
        var (c, s) := targets[i];
        assert targets[..i + 1][..i] == targets[..i];
        if c in cells {
          var held := cells[c].State().PositionQty(s);
          var taken := sales.SumClaims(ClaimBy(c, s));
          var qty := held - taken;
          if qty > EPS {
            exits := exits + [Reservation(c, s, qty)];
          } else {
            assert exits + [] == exits;
          }
        } else {
          assert exits + [] == exits;
        }
      }
      assert targets[..|targets|] == targets;
    }

    /** Adds up the demand per symbol and checks each against what is available. */
    method CheckBatch(exits: seq<Reservation>) returns (ok: bool)
      ensures ok <==> Fits(sales.State(), exits)
    {
      var demand: map<string, real> := map[];
      for i := 0 to |exits|
        invariant forall s :: SumBy(exits[..i], ClaimOn(s)) == if s in demand then demand[s] else 0.0
      {
        var e := exits[i];
        forall s
          ensures SumBy(exits[..i + 1], ClaimOn(s)) == SumBy(exits[..i], ClaimOn(s)) + ClaimOn(s)(e)
        {
          SumPrefix(exits, i, ClaimOn(s));
        }
        demand := demand[e.symbol := (if e.symbol in demand then demand[e.symbol] else 0.0) + e.qty];
      }
      assert exits[..|exits|] == exits;
      var rest := demand.Keys;
      while rest != {}
        invariant rest <= demand.Keys
        invariant forall s :: s !in rest ==> CanReserve(sales.State(), s, SumBy(exits, ClaimOn(s)))
      {
        var s :| s in rest;
        ok := sales.CheckCanReserve(s, demand[s]);
        if !ok {
          assert !CanReserve(sales.State(), s, SumBy(exits, ClaimOn(s)));
          return;
        }
        rest := rest - {s};
      }
      ok := true;
    }

    method CommitExits(
      stop: string, exits: seq<Reservation>, suffix: nat -> string) returns (intents: seq<Intent>, stopped: bool)
      modifies sales
      ensures var r := Commit(old(sales.State()), stop, exits, suffix);
              sales.State() == r.claims && stopped == r.stopped && (!stopped ==> intents == r.intents)
    {
      ghost var start := sales.State();
      intents, stopped := [], false;
      for i := 0 to |exits|
        invariant Commit(start, stop, exits[..i], suffix) == Commitment(sales.State(), intents, false) && !stopped
      {
        CommitSnoc(start, stop, exits, suffix, i);
        var id := ExitId(stop, exits[i], suffix(i));
        var claim := sales.ReserveSell(id, exits[i]);
        if !claim.Granted? {
          CommitStops(start, stop, exits, suffix, i + 1);
          return [], true;
        }
        intents := intents + [ExitIntent(id, exits[i])];
      }
      assert exits[..|exits|] == exits;
    }

    /**
     Fires a stop. With ids no one holds, a batch that passes the check is reserved whole
     and returned; otherwise nothing is reserved at all.
     */
    method Trigger(stop: string, cells: Cells, suffix: nat -> string) returns (r: Fired, ghost targets: seq<Target>)
      modifies sales
      ensures r == UnknownStop <==> stop !in stops
      ensures stop in stops ==> TargetsOf(stops[stop], BookOf(cells), targets)
      ensures stop in stops ==>
                r == FireResult(old(sales.State()), stop, Planned(BookOf(cells), old(sales.reservations), targets), suffix)
      ensures sales.State() ==
                if stop in stops then Claimed(old(sales.State()), BookOf(cells), stop, targets, suffix) else old(sales.State())
      ensures Fresh(old(sales.reservations), stop, Planned(BookOf(cells), old(sales.reservations), targets), suffix) ==>
                r != Interrupted && (!r.Exits? ==> sales.State() == old(sales.State()))
    {
      hide Planned, Commit, Fits, TargetsOf, Fresh;
      targets := [];
      if stop !in stops {
        return UnknownStop, targets;
      }
      ghost var before := sales.State();
      var reached := FindTargets(stops[stop], cells);
      targets := reached;
      var exits := PlanExits(reached, cells);
      var ok := CheckBatch(exits);
      if !ok {
        return OversellError, targets;
      }
      if Fresh(before.open, stop, exits, suffix) {
        TriggerClaims(before, BookOf(cells), stop, targets, suffix, "", "");
      }
      var intents, stopped := CommitExits(stop, exits, suffix);
      r := if stopped then Interrupted else Exits(intents);
    }
  }

  /** A refusal is final. */
  lemma {:induction false} CommitStops(c: Claims, stop: string, exits: seq<Reservation>, suffix: nat -> string, k: nat)
    requires k <= |exits| && Commit(c, stop, exits[..k], suffix).stopped
    ensures Commit(c, stop, exits, suffix) == Commit(c, stop, exits[..k], suffix)
    decreases |exits|
  {
    if k == |exits| {
      assert exits[..k] == exits;
    } else {
      var shorter := exits[..|exits| - 1];
      assert shorter[..k] == exits[..k];
      CommitStops(c, stop, shorter, suffix, k);
    }
  }
}
