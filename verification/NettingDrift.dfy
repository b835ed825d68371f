/**
 Netting at any real quantities (services/capital_cells/netting.py): how far the two cutoffs
 can make what a cell crosses and is owed differ from what it asked for.
 */
module NettingDrift {
  import opened Numeric
  import opened Sums
  import opened Intents
  import opened Matching
  import opened Netting

  // ----- one step of the match -----

  /** How many intents have stepped aside on either side. */
  function Passed(from: Heads, to: Heads): int {
    to.bi - from.bi + to.si - from.si
  }

  /** What `open` lost beyond what was crossed: nothing is gained, and at most two tolerances per intent lost. */
  ghost predicate LosesLittle(open: real, later: real, crossed: real, passed: int) {
    0.0 <= open - later - crossed <= Dust(2 * passed)
  }

  lemma CrossedBy(buy: Intent, sell: Intent, q: real, price: real, cell: string)
    ensures SumBy(CrossOf(buy, sell, q, price), BoughtBy(cell)) == if q > EPS && buy.cell == cell then q else 0.0
    ensures SumBy(CrossOf(buy, sell, q, price), SoldBy(cell)) == if q > EPS && sell.cell == cell then q else 0.0
  {
    var made := CrossOf(buy, sell, q, price);
    if made != [] {
      assert made[..0] == [];
    }
  }

  /** What one step crosses. */
  function Made(price: real, buys: seq<Intent>, sells: seq<Intent>, h: Heads): seq<Cross>
    requires Open(buys, sells, h)
  {
    CrossOf(buys[h.bi], sells[h.si], Min(h.buyLeft, h.sellLeft), price)
  }

  lemma BuyStepLosesLittle(price: real, buys: seq<Intent>, sells: seq<Intent>, h: Heads, cell: string)
    requires ValidIntents(buys) && ValidIntents(sells) && Sane(buys, sells, h) && Open(buys, sells, h)
    ensures var next := Advance(buys, sells, h);
            LosesLittle(OpenAmount(buys, h.bi, h.buyLeft, OfCell(cell)), OpenAmount(buys, next.bi, next.buyLeft, OfCell(cell)),
                        SumBy(Made(price, buys, sells, h), BoughtBy(cell)), Passed(h, next))
  {
    CrossedBy(buys[h.bi], sells[h.si], Min(h.buyLeft, h.sellLeft), price, cell);
  }

  lemma SellStepLosesLittle(price: real, buys: seq<Intent>, sells: seq<Intent>, h: Heads, cell: string)
    requires ValidIntents(buys) && ValidIntents(sells) && Sane(buys, sells, h) && Open(buys, sells, h)
    ensures var next := Advance(buys, sells, h);
            LosesLittle(OpenAmount(sells, h.si, h.sellLeft, OfCell(cell)), OpenAmount(sells, next.si, next.sellLeft, OfCell(cell)),
                        SumBy(Made(price, buys, sells, h), SoldBy(cell)), Passed(h, next))
  {
    CrossedBy(buys[h.bi], sells[h.si], Min(h.buyLeft, h.sellLeft), price, cell);
  }

  // ----- the whole match -----

  /** What a cell bought and sold across is what its purchases and sales lost, less a little. */
  lemma {:induction false} GreedyNear(price: real, buys: seq<Intent>, sells: seq<Intent>, h: Heads, cell: string)
    requires ValidIntents(buys) && ValidIntents(sells) && Sane(buys, sells, h)
    ensures var m := Greedy(price, buys, sells, h);
      && LosesLittle(OpenAmount(buys, h.bi, h.buyLeft, OfCell(cell)), OpenAmount(buys, m.end.bi, m.end.buyLeft, OfCell(cell)),
                     SumBy(m.crosses, BoughtBy(cell)), Passed(h, m.end))
      && LosesLittle(OpenAmount(sells, h.si, h.sellLeft, OfCell(cell)), OpenAmount(sells, m.end.si, m.end.sellLeft, OfCell(cell)),
                     SumBy(m.crosses, SoldBy(cell)), Passed(h, m.end))
    decreases |buys| + |sells| - h.bi - h.si
  {
    hide OpenAmount, Imbalance;
    if Open(buys, sells, h) {
      var next := Advance(buys, sells, h);
      var made := Made(price, buys, sells, h);
      NextIsSane(buys, sells, h);
      GreedyNear(price, buys, sells, next, cell);
      BuyStepLosesLittle(price, buys, sells, h, cell);
      SellStepLosesLittle(price, buys, sells, h, cell);
      SumAppend(made, Greedy(price, buys, sells, next).crosses, BoughtBy(cell));
      SumAppend(made, Greedy(price, buys, sells, next).crosses, SoldBy(cell));
    }
  }

  // ----- what is left over -----

  /** The residual keeps what is open for a cell, less at most one tolerance per intent. */
  lemma {:induction false} ResidualNear(intents: seq<Intent>, k: nat, left: real, cell: string)
    requires ValidIntents(intents) && k <= |intents| && (k < |intents| ==> left > 0.0)
    ensures var open := OpenAmount(intents, k, left, OfCell(cell));
            open - Dust(|intents| - k) <= SumBy(Residual(intents, k, left), QtyFor(cell)) <= open
    decreases |intents| - k
  {
    if k < |intents| {
      if k + 1 < |intents| { assert intents[k + 1] in intents; }
      var first, rest := if left > EPS then [intents[k].(qty := left)] else [], Residual(intents, k + 1, QtyAt(intents, k + 1));
      ResidualNear(intents, k + 1, QtyAt(intents, k + 1), cell);
      SumAppend(first, rest, QtyFor(cell));
      assert SumBy(first, QtyFor(cell)) == if left > EPS && intents[k].cell == cell then left else 0.0 by {
        if first != [] { assert first[..0] == []; }
      }
    }
  }

  /** Whatever is open for one cell is part of what is open in all. */
  lemma OpenForCell(intents: seq<Intent>, k: nat, left: real, cell: string)
    requires ValidIntents(intents) && (k < |intents| ==> left > 0.0)
    ensures 0.0 <= OpenAmount(intents, k, left, OfCell(cell)) <= OpenAmount(intents, k, left, Everyone())
  {
    if k < |intents| {
      TailNonNegative(intents, k + 1, OfCell(cell));
    }
  }

  /** What the broker order owes a cell, signed; without an order nothing is owed. */
  ghost function Owed(r: SymbolNet, cell: string): real {
    if r.side == NoOrder then 0.0 else SumBy(r.residual, SignedFor(cell))
  }

  /** The residual of the side that has none of the order is within dust. */
  lemma OtherSideIsDust(net: real, buyOpen: real, sellOpen: real, bi: nat, si: nat, m: nat, n: nat)
    requires bi <= m && si <= n && m + n >= 1 && buyOpen >= 0.0 && sellOpen >= 0.0
    requires net - Dust(bi) <= buyOpen - sellOpen <= net + Dust(si)
    requires (bi == m && buyOpen == 0.0) || (si == n && sellOpen == 0.0)
    ensures net > EPS ==> sellOpen <= Dust(m + n)
    ensures net < -EPS ==> buyOpen <= Dust(m + n)
    ensures -EPS <= net <= EPS ==> buyOpen + sellOpen <= Dust(m + n + 1)
  {
  }

  lemma ResidualOfSide(symbol: string, intents: seq<Intent>, price: real, x: Intent)
    requires x in NetOf(symbol, intents, price).residual && NetOf(symbol, intents, price).side != NoOrder
    ensures NetOf(symbol, intents, price).side == Order(x.side) && x.qty > EPS
    ensures exists i :: i in intents && x == i.(qty := x.qty)
  {
    var r, end := NetOf(symbol, intents, price), MatchOf(intents, price).end;
    var side := if r.side == Order(BUY) then BUY else SELL;
    if side == BUY {
      ResidualMembers(Sorted(intents, BUY), end.bi, end.buyLeft, x);
    } else {
      ResidualMembers(Sorted(intents, SELL), end.si, end.sellLeft, x);
    }
    var i :| i in Sorted(intents, side) && x == i.(qty := x.qty);
    SortedShape(intents, side, i);
  }

  /** Where the match of one symbol ends, for one cell: open amounts before and after, and what is owed. */
  datatype CellMatch = CellMatch(
    buyAsked: real, sellAsked: real, buyOpen: real, sellOpen: real, bought: real, sold: real, owed: real)

  ghost function CellMatchOf(symbol: string, intents: seq<Intent>, price: real, cell: string): CellMatch {
    var buys, sells, m := Sorted(intents, BUY), Sorted(intents, SELL), MatchOf(intents, price);
    CellMatch(OpenAmount(buys, 0, QtyAt(buys, 0), OfCell(cell)), OpenAmount(sells, 0, QtyAt(sells, 0), OfCell(cell)),
              OpenAmount(buys, m.end.bi, m.end.buyLeft, OfCell(cell)), OpenAmount(sells, m.end.si, m.end.sellLeft, OfCell(cell)),
              SumBy(m.crosses, BoughtBy(cell)), SumBy(m.crosses, SoldBy(cell)),
              Owed(NetOf(symbol, intents, price), cell))
  }

  lemma CrossedNear(symbol: string, intents: seq<Intent>, price: real, cell: string)
    requires ValidIntents(intents)
    ensures var c := CellMatchOf(symbol, intents, price, cell);
      && 0.0 <= c.buyAsked - c.buyOpen - c.bought <= Dust(2 * |intents|)
      && 0.0 <= c.sellAsked - c.sellOpen - c.sold <= Dust(2 * |intents|)
  {
    hide OpenAmount, Greedy, SortById, NetOf, Owed;
    var buys, sells := Sorted(intents, BUY), Sorted(intents, SELL);
    SortedValid(intents, BUY);
    SortedValid(intents, SELL);
    SortedSizes(intents);
    StartIsSane(buys, sells);
    GreedyDrift(price, buys, sells, Start(buys, sells));
    GreedyNear(price, buys, sells, Start(buys, sells), cell);
  }

  lemma OwedNear(symbol: string, intents: seq<Intent>, price: real, cell: string)
    requires ValidIntents(intents)
    ensures var c := CellMatchOf(symbol, intents, price, cell);
            Abs(c.buyOpen - c.sellOpen - c.owed) <= Dust(2 * |intents|)
  {
    if intents != [] {
      OwedNearSome(symbol, intents, price, cell);
    } else {
      assert Sorted([], BUY) == [] && Sorted([], SELL) == [];
    }
  }

  /** The cell's part of the residual, by the side of the order. */
  lemma OwedBySide(symbol: string, intents: seq<Intent>, price: real, cell: string)
    ensures var r, end := NetOf(symbol, intents, price), MatchOf(intents, price).end;
            Owed(r, cell) ==
              if r.side == NoOrder then 0.0
              else if r.side == Order(BUY) then SumBy(Residual(Sorted(intents, BUY), end.bi, end.buyLeft), QtyFor(cell))
              else -SumBy(Residual(Sorted(intents, SELL), end.si, end.sellLeft), QtyFor(cell))
  {
    hide Sorted, Greedy;
    var r := NetOf(symbol, intents, price);
    if r.side != NoOrder {
      forall x | x in r.residual
        ensures r.side == Order(x.side)
      {
        ResidualOfSide(symbol, intents, price, x);
      }
      SignedResidual(r.residual, r.side, cell);
    }
  }

  lemma SideIs(symbol: string, intents: seq<Intent>, price: real)
    ensures var net := SumBy(Sorted(intents, BUY), QtyOf()) - SumBy(Sorted(intents, SELL), QtyOf());
            NetOf(symbol, intents, price).side == SideOfNet(net)
  {
  }

  lemma OwedNearSome(symbol: string, intents: seq<Intent>, price: real, cell: string)
    requires ValidIntents(intents) && intents != []
    ensures var c := CellMatchOf(symbol, intents, price, cell);
            Abs(c.buyOpen - c.sellOpen - c.owed) <= Dust(2 * |intents|)
  {
    hide OpenAmount, Greedy, Sorted, Residual, Owed, NetOf, SumBy;
    var buys, sells, end := Sorted(intents, BUY), Sorted(intents, SELL), MatchOf(intents, price).end;
    SortedValid(intents, BUY);
    SortedValid(intents, SELL);
    SortedSizes(intents);
    StartIsSane(buys, sells);
    GreedyDrift(price, buys, sells, Start(buys, sells));
    SideIs(symbol, intents, price);
    var buyOpen, sellOpen := MatchLeaves(price, buys, sells, end);
    OpenForCell(buys, end.bi, end.buyLeft, cell);
    OpenForCell(sells, end.si, end.sellLeft, cell);
    ResidualNear(buys, end.bi, end.buyLeft, cell);
    ResidualNear(sells, end.si, end.sellLeft, cell);
    OtherSideIsDust(SumBy(buys, QtyOf()) - SumBy(sells, QtyOf()), buyOpen, sellOpen, end.bi, end.si, |buys|, |sells|);
    OwedBySide(symbol, intents, price, cell);
  }

  lemma CrossedAndOwed(symbol: string, intents: seq<Intent>, price: real, cell: string)
    ensures var r, c := NetOf(symbol, intents, price), CellMatchOf(symbol, intents, price, cell);
            CrossedFor(r.crosses, cell) == c.bought - c.sold && Owed(r, cell) == c.owed
            && c.buyAsked - c.sellAsked == SumBy(intents, SignedFor(cell))
  {
    hide OpenAmount, Greedy, Sorted, Residual, Owed, SumBy;
    CellTotals(intents, cell);
  }

  /**
   At any real quantities: what a cell crosses internally plus what the broker order still
   owes it is what it asked for, within four tolerances per intent of the symbol.
   */
  lemma NetNearlyPreservesMeaning(symbol: string, intents: seq<Intent>, price: real, cell: string)
    requires ValidIntents(intents)
    ensures var r := NetOf(symbol, intents, price);
            Abs(CrossedFor(r.crosses, cell) + Owed(r, cell) - SumBy(intents, SignedFor(cell))) <= Dust(4 * |intents|)
  {
    hide NetOf, CellMatchOf, CrossedFor, Owed;
    CrossedNear(symbol, intents, price, cell);
    OwedNear(symbol, intents, price, cell);
    CrossedAndOwed(symbol, intents, price, cell);
  }
}
