/**
 Whose shares a stop may sell (services/capital_cells/stops.py): a cell's own, one symbol's in
 every cell, or everything; and that it leaves nothing in its scope unprotected.
 */
module StopScopes {
  import opened Numeric
  import opened Sums
  import opened Intents
  import opened CellLedgers
  import opened NettingEngine
  import opened SellReservations
  import opened Stops
  import opened Wrappers

  /** What a trigger asks to sell: exits of the book's cells, each for exactly what no other exit has claimed. */
  ghost predicate SellsTheUnclaimed(c: Claims, book: Book, intents: seq<Intent>) {
    forall x :: x in intents ==>
      && x.side == SELL && x.cell in book && x.qty > EPS
      && x.qty == Holding(book, x.cell, x.symbol) - ReservedBy(c.open, x.cell, x.symbol)
  }

  lemma {:induction false} PlannedFrom(book: Book, open: map<string, Reservation>, targets: seq<Target>, r: Reservation)
    requires r in Planned(book, open, targets)
    ensures (r.cell, r.symbol) in targets && r.cell in book
    ensures r.qty == Unclaimed(book, open, r.cell, r.symbol) > EPS
  {
    hide Unclaimed;
    var n := |targets| - 1;
    if r in Planned(book, open, targets[..n]) {
      PlannedFrom(book, open, targets[..n], r);
    } else {
      assert targets[n] == (r.cell, r.symbol) && targets[n] in targets;
    }
  }

  lemma {:induction false} IntentsFrom(c: Claims, stop: string, exits: seq<Reservation>, suffix: nat -> string, x: Intent)
    requires x in Commit(c, stop, exits, suffix).intents
    ensures x.side == SELL && Reservation(x.cell, x.symbol, x.qty) in exits
  {
    hide ExitId, Reserve;
    var n := |exits| - 1;
    if x in Commit(c, stop, exits[..n], suffix).intents {
      IntentsFrom(c, stop, exits[..n], suffix, x);
    } else {
      assert exits[n] == Reservation(x.cell, x.symbol, x.qty) && exits[n] in exits;
    }
  }

  lemma IntentsFromTargets(
    c: Claims, book: Book, stop: string, targets: seq<Target>, suffix: nat -> string, x: Intent)
    requires x in Commit(c, stop, Planned(book, c.open, targets), suffix).intents
    ensures (x.cell, x.symbol) in targets && x.side == SELL && x.cell in book
    ensures x.qty == Unclaimed(book, c.open, x.cell, x.symbol) > EPS
  {
    hide Commit, Planned, Unclaimed;
    IntentsFrom(c, stop, Planned(book, c.open, targets), suffix, x);
    PlannedFrom(book, c.open, targets, Reservation(x.cell, x.symbol, x.qty));
  }

  /** The exits a stop returns: only its own cell's, only its own symbol's, as its scope says. */
  lemma ExitsStayInScope(
    c: Claims, book: Book, plan: StopPlan, stop: string, targets: seq<Target>, suffix: nat -> string, intents: seq<Intent>)
    requires TargetsOf(plan, book, targets)
    requires FireResult(c, stop, Planned(book, c.open, targets), suffix) == Exits(intents)
    ensures SellsTheUnclaimed(c, book, intents)
    ensures plan.scope == CELL ==> forall x :: x in intents ==> x.cell == plan.cell && x.symbol == plan.symbol
    ensures plan.scope == SYMBOL ==> forall x :: x in intents ==> x.symbol == plan.symbol
  {
    hide Commit, Planned, Fits;
    forall x | x in intents
      ensures x.side == SELL && x.cell in book && x.qty > EPS
      ensures x.qty == Holding(book, x.cell, x.symbol) - ReservedBy(c.open, x.cell, x.symbol)
      ensures plan.scope == CELL ==> x.cell == plan.cell && x.symbol == plan.symbol
      ensures plan.scope == SYMBOL ==> x.symbol == plan.symbol
    {
      IntentsFromTargets(c, book, stop, targets, suffix, x);
    }
  }

  /** What a stop of this plan is there to protect. */
  predicate Protects(plan: StopPlan, cell: string, symbol: string) {
    match plan.scope
    case CELL => cell == plan.cell && symbol == plan.symbol
    case SYMBOL => symbol == plan.symbol
    case PORTFOLIO => true
  }

  /**
   A stop that fires leaves nothing it protects unclaimed, cell by cell and symbol by symbol,
   beyond one tolerance, and changes no other claim.
   */
  lemma ScopeIsClaimed(
    c: Claims, book: Book, plan: StopPlan, stop: string, targets: seq<Target>, suffix: nat -> string,
    cell: string, symbol: string)
    requires c.Positive() && TargetsOf(plan, book, targets) && Fits(c, Planned(book, c.open, targets))
    requires Fresh(c.open, stop, Planned(book, c.open, targets), suffix)
    ensures var held, before := Holding(book, cell, symbol), ReservedBy(c.open, cell, symbol);
            ReservedBy(Claimed(c, book, stop, targets, suffix).open, cell, symbol)
            == if Protects(plan, cell, symbol) && held - before > EPS then held else before
  {
    hide Planned, Commit, Fits, Fresh, Claimed;
    TriggerClaims(c, book, stop, targets, suffix, cell, symbol);
    SumOpenNonNegative(c.open, ClaimBy(cell, symbol));
  }

  // ----- what is refused -----

  /**
   A claim is granted exactly when it is for something, under a new id, and keeps the claims
   on its symbol within the master position (or within what they already were), to one tolerance.
   */
  lemma GrantedIff(c: Claims, id: string, r: Reservation)
    ensures Reserve(c, id, r).Granted? <==>
      && r.qty > 0.0 && id !in c.open
      && Reserved(c.open, r.symbol) + r.qty
         <= Max(if r.symbol in c.master then c.master[r.symbol] else 0.0, Reserved(c.open, r.symbol)) + EPS
    ensures Reserve(c, id, r).Granted? ==> Reserve(c, id, r).claims == c.(open := c.open[id := r])
  {
  }

  /**
   With new ids, a stop fires exactly when in every symbol the claims there are and the exits
   it plans stay within the master position, to one tolerance; otherwise it is refused whole.
   */
  lemma FiresIff(c: Claims, book: Book, stop: string, targets: seq<Target>, suffix: nat -> string)
    requires NoRepeats(targets) && Fresh(c.open, stop, Planned(book, c.open, targets), suffix)
    ensures var exits := Planned(book, c.open, targets);
      var fits := forall symbol ::
        Reserved(c.open, symbol) + SumBy(exits, ClaimOn(symbol))
        <= Max(if symbol in c.master then c.master[symbol] else 0.0, Reserved(c.open, symbol)) + EPS;
      && (FireResult(c, stop, exits, suffix).Exits? <==> fits)
      && (FireResult(c, stop, exits, suffix) == OversellError <==> !fits)
  {
    hide Commit, Planned, Fresh;
    var exits := Planned(book, c.open, targets);
    forall symbol
      ensures CanReserve(c, symbol, SumBy(exits, ClaimOn(symbol))) <==>
        Reserved(c.open, symbol) + SumBy(exits, ClaimOn(symbol))
        <= Max(if symbol in c.master then c.master[symbol] else 0.0, Reserved(c.open, symbol)) + EPS
    {
    }
    if Fits(c, exits) {
      TriggerClaims(c, book, stop, targets, suffix, "", "");
    }
  }

  /** An exit that is done gives back its own claim and no other, so that its shares can be claimed again. */
  lemma FinishingFrees(c: Claims, book: Book, id: string, cell: string, symbol: string)
    requires id in c.open
    ensures var after := Act(c, book, Finish(id));
      && after.master == c.master && id !in after.open
      && ReservedBy(after.open, cell, symbol)
         == ReservedBy(c.open, cell, symbol)
            - (if c.open[id].cell == cell && c.open[id].symbol == symbol then c.open[id].qty else 0.0)
      && Reserved(after.open, symbol) == Reserved(c.open, symbol) - (if c.open[id].symbol == symbol then c.open[id].qty else 0.0)
  {
    SumOpenRemove(c.open, id, ClaimBy(cell, symbol));
    SumOpenRemove(c.open, id, ClaimOn(symbol));
  }
}
