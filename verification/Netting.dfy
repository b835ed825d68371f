/**
 Internal netting of many cells' intents (services/capital_cells/netting.py): the
 net broker order, the internal crosses and the residual each cell is still owed.
 */
module Netting {
  import opened Numeric
  import opened Sums
  import opened Intents
  import opened Matching

  datatype BrokerSide = NoOrder | Order(side: Side)

  datatype SymbolNet = SymbolNet(
    symbol: string, grossBuy: real, grossSell: real, crossQty: real,
    side: BrokerSide, qty: real,
    crosses: seq<Cross>, contributing: seq<Intent>, residual: seq<Intent>)

  function SideOfNet(net: real): BrokerSide {
    if net > EPS then Order(BUY) else if net < -EPS then Order(SELL) else NoOrder
  }

  ghost function Sorted(intents: seq<Intent>, side: Side): seq<Intent> {
    SortById(OfSide(intents, side))
  }

  ghost function MatchOf(intents: seq<Intent>, price: real): Match {
    var buys, sells := Sorted(intents, BUY), Sorted(intents, SELL);
    Greedy(price, buys, sells, Start(buys, sells))
  }

  /** The netting result of one symbol. */
  ghost function NetOf(symbol: string, intents: seq<Intent>, price: real): SymbolNet {
    var buys, sells := Sorted(intents, BUY), Sorted(intents, SELL);
    var m := MatchOf(intents, price);
    var grossBuy, grossSell := SumBy(buys, QtyOf()), SumBy(sells, QtyOf());
    var side := SideOfNet(grossBuy - grossSell);
    SymbolNet(symbol, grossBuy, grossSell, SumBy(m.crosses, CrossQty()), side, Abs(grossBuy - grossSell),
              m.crosses, intents,
              if side == Order(BUY) then Residual(buys, m.end.bi, m.end.buyLeft) else Residual(sells, m.end.si, m.end.sellLeft))
  }

  // ----- shape of the sorted lists -----

  lemma SortedShape(intents: seq<Intent>, side: Side, x: Intent)
    ensures x in Sorted(intents, side) <==> x in intents && x.side == side
  {
    SortMembers(OfSide(intents, side), x);
    OfSideMembers(intents, side, x);
  }

  lemma SortedSizes(intents: seq<Intent>)
    ensures |Sorted(intents, BUY)| + |Sorted(intents, SELL)| == |intents|
  {
    SidesCount(intents);
    SortKeeps(OfSide(intents, BUY));
    SortKeeps(OfSide(intents, SELL));
    assert |multiset(Sorted(intents, BUY))| == |multiset(OfSide(intents, BUY))|;
    assert |multiset(Sorted(intents, SELL))| == |multiset(OfSide(intents, SELL))|;
  }

  lemma SortedValid(intents: seq<Intent>, side: Side)
    requires ValidIntents(intents)
    ensures ValidIntents(Sorted(intents, side))
    ensures WholeIntents(intents) ==> WholeIntents(Sorted(intents, side))
  {
    forall x | x in Sorted(intents, side)
      ensures x in intents
    {
      SortedShape(intents, side, x);
    }
  }

  lemma StartIsSane(buys: seq<Intent>, sells: seq<Intent>)
    requires ValidIntents(buys) && ValidIntents(sells)
    ensures Sane(buys, sells, Start(buys, sells))
    ensures WholeIntents(buys) && WholeIntents(sells) ==> WholeHeads(Start(buys, sells))
    ensures OpenAmount(buys, 0, QtyAt(buys, 0), Everyone()) == SumBy(buys, QtyOf())
    ensures OpenAmount(sells, 0, QtyAt(sells, 0), Everyone()) == SumBy(sells, QtyOf())
  {
    if buys != [] { assert buys[0] in buys; }
    if sells != [] { assert sells[0] in sells; }
    TailIsSum(buys, 0, Everyone(), QtyOf());
    TailIsSum(sells, 0, Everyone(), QtyOf());
    assert buys[0..] == buys && sells[0..] == sells;
  }

  // ----- the tolerance gap -----

  /** What one side of the match leaves: open amount and residual differ by dust at most. */
  ghost predicate LeavesAbout(intents: seq<Intent>, k: nat, left: real, open: real, kept: real) {
    && k <= |intents| && open == OpenAmount(intents, k, left, Everyone()) && kept == SumBy(Residual(intents, k, left), QtyOf())
    && kept >= 0.0 && open - Dust(|intents| - k) <= kept <= open
  }

  lemma MatchLeaves(
    price: real, buys: seq<Intent>, sells: seq<Intent>, end: Heads) returns (buyOpen: real, sellOpen: real)
    requires ValidIntents(buys) && ValidIntents(sells) && end == Greedy(price, buys, sells, Start(buys, sells)).end
    ensures LeavesAbout(buys, end.bi, end.buyLeft, buyOpen, SumBy(Residual(buys, end.bi, end.buyLeft), QtyOf()))
    ensures LeavesAbout(sells, end.si, end.sellLeft, sellOpen, SumBy(Residual(sells, end.si, end.sellLeft), QtyOf()))
    ensures var net := SumBy(buys, QtyOf()) - SumBy(sells, QtyOf());
            net - Dust(end.bi) <= buyOpen - sellOpen <= net + Dust(end.si)
    ensures (end.bi == |buys| && buyOpen == 0.0) || (end.si == |sells| && sellOpen == 0.0)
  {
    StartIsSane(buys, sells);
    GreedyDrift(price, buys, sells, Start(buys, sells));
    ResidualAmount(buys, end.bi, end.buyLeft);
    ResidualAmount(sells, end.si, end.sellLeft);
    buyOpen, sellOpen := OpenAmount(buys, end.bi, end.buyLeft, Everyone()), OpenAmount(sells, end.si, end.sellLeft, Everyone());
  }

  lemma MatchGap(price: real, buys: seq<Intent>, sells: seq<Intent>, end: Heads, count: nat)
    requires ValidIntents(buys) && ValidIntents(sells) && |buys| + |sells| == count >= 1
    requires end == Greedy(price, buys, sells, Start(buys, sells)).end
    ensures var net := SumBy(buys, QtyOf()) - SumBy(sells, QtyOf());
            var buyLeft := SumBy(Residual(buys, end.bi, end.buyLeft), QtyOf());
            var sellLeft := SumBy(Residual(sells, end.si, end.sellLeft), QtyOf());
            Abs((if net > EPS then buyLeft else sellLeft) - Abs(net)) <= Dust(count)
  {
    var buyOpen, sellOpen := MatchLeaves(price, buys, sells, end);
    GapBound(SumBy(buys, QtyOf()) - SumBy(sells, QtyOf()), buyOpen, sellOpen,
             SumBy(Residual(buys, end.bi, end.buyLeft), QtyOf()), SumBy(Residual(sells, end.si, end.sellLeft), QtyOf()),
             end.bi, end.si, |buys|, |sells|, count);
  }

  /** The residual differs from the net order by at most the dust tolerance per intent. */
  lemma ResidualGap(symbol: string, intents: seq<Intent>, price: real)
    requires ValidIntents(intents) && intents != []
    ensures var r := NetOf(symbol, intents, price);
            Abs(SumBy(r.residual, QtyOf()) - r.qty) <= Dust(|intents|)
  {
    MatchGapOf(intents, price);
    NetFields(symbol, intents, price);
  }

  lemma MatchGapOf(intents: seq<Intent>, price: real)
    requires ValidIntents(intents) && intents != []
    ensures Abs(LeftOver(intents, price) - Abs(NetQty(intents))) <= Dust(|intents|)
  {
    hide Sorted, Greedy, Residual;
    SortedSizes(intents);
    SortedValid(intents, BUY);
    SortedValid(intents, SELL);
    var buys, sells, end := Sorted(intents, BUY), Sorted(intents, SELL), MatchOf(intents, price).end;
    MatchGap(price, buys, sells, end, |intents|);
    LeftOverOf(intents, price, buys, sells, end);
  }

  lemma LeftOverOf(intents: seq<Intent>, price: real, buys: seq<Intent>, sells: seq<Intent>, end: Heads)
    requires buys == Sorted(intents, BUY) && sells == Sorted(intents, SELL) && end == MatchOf(intents, price).end
    ensures NetQty(intents) == SumBy(buys, QtyOf()) - SumBy(sells, QtyOf())
    ensures LeftOver(intents, price) == if NetQty(intents) > EPS then SumBy(Residual(buys, end.bi, end.buyLeft), QtyOf())
                                        else SumBy(Residual(sells, end.si, end.sellLeft), QtyOf())
  {
  }

  ghost function NetQty(intents: seq<Intent>): real {
    SumBy(Sorted(intents, BUY), QtyOf()) - SumBy(Sorted(intents, SELL), QtyOf())
  }

  /** The total of the residual on the net side. */
  ghost function LeftOver(intents: seq<Intent>, price: real): real {
    var end := MatchOf(intents, price).end;
    if NetQty(intents) > EPS then SumBy(Residual(Sorted(intents, BUY), end.bi, end.buyLeft), QtyOf())
    else SumBy(Residual(Sorted(intents, SELL), end.si, end.sellLeft), QtyOf())
  }

  lemma NetFields(symbol: string, intents: seq<Intent>, price: real)
    ensures NetOf(symbol, intents, price).qty == Abs(NetQty(intents))
    ensures SumBy(NetOf(symbol, intents, price).residual, QtyOf()) == LeftOver(intents, price)
  {
  }

  /** `drift` and `loss` of either side are bounded by the intents finished and unfinished. */
  lemma GapBound(
    net: real, buyOpen: real, sellOpen: real, buyLeft: real, sellLeft: real, bi: nat, si: nat, m: nat, n: nat,
    count: nat)
    requires bi <= m && si <= n && m + n == count >= 1 && buyLeft >= 0.0 && sellLeft >= 0.0
    requires net - Dust(bi) <= buyOpen - sellOpen <= net + Dust(si)
    requires buyOpen - Dust(m - bi) <= buyLeft <= buyOpen
    requires sellOpen - Dust(n - si) <= sellLeft <= sellOpen
    requires (bi == m && buyOpen == 0.0) || (si == n && sellOpen == 0.0)
    ensures Abs((if net > EPS then buyLeft else sellLeft) - Abs(net)) <= Dust(count)
  {
  }

  /** What the result type refuses to be constructed with. */
  predicate GuardFires(r: SymbolNet, residualTotal: real) {
    Abs(residualTotal - r.qty) > MICRO
  }

  /** Up to 1000 intents per symbol the construction guard cannot fire. */
  lemma GuardNeverFires(symbol: string, intents: seq<Intent>, price: real)
    requires ValidIntents(intents) && |intents| <= 1000
    ensures var r := NetOf(symbol, intents, price); !GuardFires(r, SumBy(r.residual, QtyOf()))
  {
    if intents != [] {
      ResidualGap(symbol, intents, price);
    }
  }

  /** What the residual asks the broker to sell for a cell. */
  ghost function StillToSell(r: SymbolNet, cell: string): real {
    if r.side == Order(SELL) then SumBy(r.residual, QtyFor(cell)) else 0.0
  }

  /** Across and at the broker together, a cell sells no more than its own sales asked for: no premise on units. */
  lemma SalesWithinDemand(symbol: string, intents: seq<Intent>, price: real, cell: string)
    requires ValidIntents(intents)
    ensures var r := NetOf(symbol, intents, price);
            && SumBy(r.crosses, SoldBy(cell)) <= SumBy(OfSide(intents, SELL), QtyFor(cell))
            && SumBy(r.crosses, SoldBy(cell)) + StillToSell(r, cell) <= SumBy(OfSide(intents, SELL), QtyFor(cell))
  {
    hide SortById, OfSide, Greedy, Residual;
    var buys, sells, end := Sorted(intents, BUY), Sorted(intents, SELL), MatchOf(intents, price).end;
    SortedValid(intents, BUY);
    SortedValid(intents, SELL);
    StartIsSane(buys, sells);
    GreedyDrift(price, buys, sells, Start(buys, sells));
    GreedySoldWithin(price, buys, sells, Start(buys, sells), cell);
    SideTotal(intents, SELL, cell);
    ResidualWithin(sells, end.si, end.sellLeft, cell);
    OpenNonNegative(sells, end.si, end.sellLeft, cell);
  }

  lemma OpenNonNegative(intents: seq<Intent>, k: nat, left: real, cell: string)
    requires ValidIntents(intents) && (k < |intents| ==> left > 0.0)
    ensures OpenAmount(intents, k, left, OfCell(cell)) >= 0.0
  {
    if k < |intents| {
      TailNonNegative(intents, k + 1, OfCell(cell));
    }
  }

  // ----- determinism -----

  lemma NetFollowsSides(symbol: string, a: seq<Intent>, b: seq<Intent>, price: real)
    requires Sorted(a, BUY) == Sorted(b, BUY) && Sorted(a, SELL) == Sorted(b, SELL)
    ensures NetOf(symbol, a, price) == NetOf(symbol, b, price).(contributing := a)
  {
    hide Sorted, Greedy, Residual;
  }

  lemma SidesIgnoreOrder(a: seq<Intent>, b: seq<Intent>, side: Side)
    requires multiset(a) == multiset(b) && UniqueIds(a)
    ensures Sorted(a, side) == Sorted(b, side)
  {
    hide SortById, OfSide, OfSymbol;
    SelectReordered(a, b, "", side);
    OfSideUnique(a, side);
    SortIgnoresOrder(OfSide(a, side), OfSide(b, side));
  }

  /** The result does not depend on the order of the batch; only the record of it does. */
  lemma NetIgnoresOrder(symbol: string, a: seq<Intent>, b: seq<Intent>, price: real)
    requires multiset(a) == multiset(b) && UniqueIds(a)
    ensures NetOf(symbol, a, price) == NetOf(symbol, b, price).(contributing := a)
  {
    hide *;
    SidesIgnoreOrder(a, b, BUY);
    SidesIgnoreOrder(a, b, SELL);
    NetFollowsSides(symbol, a, b, price);
  }

  // ----- whole units: netting preserves meaning -----

  /** At the end the side with less to trade is finished, and the other has the net open. */
  lemma EndOfMatch(symbol: string, intents: seq<Intent>, price: real)
    requires ValidIntents(intents) && WholeIntents(intents)
    ensures var r, m := NetOf(symbol, intents, price), MatchOf(intents, price);
            var buys, sells := Sorted(intents, BUY), Sorted(intents, SELL);
            var buyOpen := OpenAmount(buys, m.end.bi, m.end.buyLeft, Everyone());
            var sellOpen := OpenAmount(sells, m.end.si, m.end.sellLeft, Everyone());
            && Sane(buys, sells, m.end) && WholeHeads(m.end)
            && buyOpen == Max(0.0, r.grossBuy - r.grossSell) && sellOpen == Max(0.0, r.grossSell - r.grossBuy)
            && r.crossQty == Min(r.grossBuy, r.grossSell)
            && (buyOpen == 0.0 ==> m.end.bi == |buys|) && (sellOpen == 0.0 ==> m.end.si == |sells|)
            && Whole(buyOpen) && Whole(sellOpen)
  {
    var buys, sells := Sorted(intents, BUY), Sorted(intents, SELL);
    SortedValid(intents, BUY);
    SortedValid(intents, SELL);
    StartIsSane(buys, sells);
    GreedyDrift(price, buys, sells, Start(buys, sells));
    GreedyExactVolume(price, buys, sells, Start(buys, sells));
    var end := MatchOf(intents, price).end;
    OpenPositive(buys, end.bi, end.buyLeft);
    OpenPositive(sells, end.si, end.sellLeft);
  }

  lemma OpenPositive(intents: seq<Intent>, k: nat, left: real)
    requires ValidIntents(intents) && k <= |intents| && (k < |intents| ==> left > 0.0)
    ensures OpenAmount(intents, k, left, Everyone()) >= 0.0
    ensures OpenAmount(intents, k, left, Everyone()) == 0.0 <==> k == |intents|
    ensures WholeIntents(intents) && (k < |intents| ==> Whole(left)) ==> Whole(OpenAmount(intents, k, left, Everyone()))
  {
    if k < |intents| {
      TailNonNegative(intents, k + 1, Everyone());
      if WholeIntents(intents) && Whole(left) {
        TailWhole(intents, k + 1);
        WholeSum(left, Tail(intents, k + 1, Everyone()));
      }
    }
  }

  lemma {:induction false} TailWhole(intents: seq<Intent>, k: nat)
    requires WholeIntents(intents)
    ensures Whole(Tail(intents, k, Everyone()))
    decreases |intents| - k
  {
    if k < |intents| {
      TailWhole(intents, k + 1);
      assert intents[k] in intents;
      WholeSum(intents[k].qty, Tail(intents, k + 1, Everyone()));
    }
  }

  /** The signed quantity the crosses bring to a cell. */
  ghost function CrossedFor(crosses: seq<Cross>, cell: string): real {
    SumBy(crosses, BoughtBy(cell)) - SumBy(crosses, SoldBy(cell))
  }

  /**
   In whole units, for every cell: what it crosses internally plus what the residual
   still owes it is exactly what it asked for; the residual lies on the net side only
   and sums to the net order; the volume crossed is the smaller of the two gross flows.
   */
  lemma NetPreservesMeaning(symbol: string, intents: seq<Intent>, price: real, cell: string)
    requires ValidIntents(intents) && WholeIntents(intents)
    ensures var r := NetOf(symbol, intents, price);
            && CrossedFor(r.crosses, cell) + SumBy(r.residual, SignedFor(cell)) == SumBy(intents, SignedFor(cell))
            && SumBy(r.residual, QtyOf()) == r.qty
            && WholeIntents(r.residual) && Whole(r.qty)
            && (forall x :: x in r.residual ==> r.side == Order(x.side) && x.qty > 0.0)
            && (r.side == NoOrder <==> r.residual == [])
            && (r.side == NoOrder <==> r.qty == 0.0)
            && r.crossQty == Min(r.grossBuy, r.grossSell)
            && (forall c :: c in r.crosses ==> Whole(c.qty))
  {
    var r, m := NetOf(symbol, intents, price), MatchOf(intents, price);
    var buys, sells := Sorted(intents, BUY), Sorted(intents, SELL);
    EndOfMatch(symbol, intents, price);
    SortedValid(intents, BUY);
    SortedValid(intents, SELL);
    StartIsSane(buys, sells);
    GreedyExactBuyer(price, buys, sells, Start(buys, sells), cell);
    GreedyExactSeller(price, buys, sells, Start(buys, sells), cell);
    GreedyExactVolume(price, buys, sells, Start(buys, sells));
    CellTotals(intents, cell);
    WholeNoDust(r.qty) by { WholeNet(symbol, intents, price); }
    ResidualExact(buys, m.end.bi, m.end.buyLeft, cell);
    ResidualExact(sells, m.end.si, m.end.sellLeft, cell);
    forall x | x in r.residual
      ensures r.side == Order(x.side) && x.qty > 0.0
    {
      ResidualSide(symbol, intents, price, x);
    }
    SignedResidual(r.residual, r.side, cell);
    if r.side == NoOrder {
      assert m.end.si == |sells|;
    } else {
      ResidualNotEmpty(r.residual, r.qty);
    }
  }

  lemma ResidualNotEmpty(residual: seq<Intent>, qty: real)
    requires SumBy(residual, QtyOf()) == qty && qty > 0.0
    ensures residual != []
  {
  }

  lemma WholeNet(symbol: string, intents: seq<Intent>, price: real)
    requires ValidIntents(intents) && WholeIntents(intents)
    ensures Whole(NetOf(symbol, intents, price).qty) && Whole(NetOf(symbol, intents, price).grossBuy - NetOf(symbol, intents, price).grossSell)
    ensures NetOf(symbol, intents, price).side == NoOrder <==> NetOf(symbol, intents, price).qty == 0.0
    ensures NetOf(symbol, intents, price).side == Order(BUY) <==> NetOf(symbol, intents, price).grossBuy > NetOf(symbol, intents, price).grossSell
  {
    hide Sorted, MatchOf, OpenAmount, Micros;
    var r := NetOf(symbol, intents, price);
    EndOfMatch(symbol, intents, price);
    WholeSum(0.0, r.qty);
    WholeNoDust(r.grossBuy - r.grossSell);
  }

  lemma SideTotal(intents: seq<Intent>, side: Side, cell: string)
    ensures var s := Sorted(intents, side);
            OpenAmount(s, 0, QtyAt(s, 0), OfCell(cell)) == SumBy(OfSide(intents, side), QtyFor(cell))
  {
    var s := Sorted(intents, side);
    TailIsSum(s, 0, OfCell(cell), QtyFor(cell));
    assert s[0..] == s;
    SortKeeps(OfSide(intents, side));
    SumPermutation(s, OfSide(intents, side), QtyFor(cell));
  }

  /** A cell's signed demand, from the sorted lists. */
  lemma CellTotals(intents: seq<Intent>, cell: string)
    ensures var buys, sells := Sorted(intents, BUY), Sorted(intents, SELL);
            OpenAmount(buys, 0, QtyAt(buys, 0), OfCell(cell)) - OpenAmount(sells, 0, QtyAt(sells, 0), OfCell(cell))
            == SumBy(intents, SignedFor(cell))
  {
    SideTotal(intents, BUY, cell);
    SideTotal(intents, SELL, cell);
    SignedBySide(intents, cell);
  }

  lemma ResidualSide(symbol: string, intents: seq<Intent>, price: real, x: Intent)
    requires ValidIntents(intents) && WholeIntents(intents)
    requires x in NetOf(symbol, intents, price).residual
    ensures NetOf(symbol, intents, price).side == Order(x.side) && x.qty > 0.0
    ensures exists i :: i in intents && x == i.(qty := x.qty)
  {
    var r, m := NetOf(symbol, intents, price), MatchOf(intents, price);
    WholeNet(symbol, intents, price);
    EndOfMatch(symbol, intents, price);
    var side := if r.side == Order(BUY) then BUY else SELL;
    if side == BUY {
      ResidualMembers(Sorted(intents, BUY), m.end.bi, m.end.buyLeft, x);
    } else {
      ResidualMembers(Sorted(intents, SELL), m.end.si, m.end.sellLeft, x);
    }
    var i :| i in Sorted(intents, side) && x == i.(qty := x.qty);
    SortedShape(intents, side, i);
  }

  lemma {:induction false} SignedResidual(residual: seq<Intent>, side: BrokerSide, cell: string)
    requires forall x :: x in residual ==> side == Order(x.side)
    ensures SumBy(residual, SignedFor(cell)) == if side == Order(BUY) then SumBy(residual, QtyFor(cell)) else -SumBy(residual, QtyFor(cell))
  {
    if residual != [] {
      SignedResidual(residual[..|residual| - 1], side, cell);
    }
  }
}
