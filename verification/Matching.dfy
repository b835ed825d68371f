/**
 The greedy two-pointer match of one symbol's purchases against its sales
 (services/capital_cells/netting.py) and what it conserves.
 */
module Matching {
  import opened Numeric
  import opened Sums
  import opened Intents

  datatype Cross = Cross(symbol: string, buyCell: string, sellCell: string, qty: real, price: real)

  /** The two pointers, and what the intents they point at have left. */
  datatype Heads = Heads(bi: nat, si: nat, buyLeft: real, sellLeft: real)

  /** The crosses made, and where the pointers stopped. */
  datatype Match = Match(crosses: seq<Cross>, end: Heads)

  /** The quantity of intent `k`, 0 past the end. */
  function QtyAt(intents: seq<Intent>, k: nat): real {
    if k < |intents| then intents[k].qty else 0.0
  }

  function Start(buys: seq<Intent>, sells: seq<Intent>): Heads {
    Heads(0, 0, QtyAt(buys, 0), QtyAt(sells, 0))
  }

  /** A cross of no more than dust is not recorded. */
  function CrossOf(buy: Intent, sell: Intent, qty: real, price: real): seq<Cross> {
    if qty > EPS then [Cross(buy.symbol, buy.cell, sell.cell, qty, price)] else []
  }

  predicate Open(buys: seq<Intent>, sells: seq<Intent>, h: Heads) {
    h.bi < |buys| && h.si < |sells|
  }

  /** Matches the heads for as much as both have left; a head with only dust left steps aside. */
  function Advance(buys: seq<Intent>, sells: seq<Intent>, h: Heads): Heads
    requires Open(buys, sells, h)
  {
    var q := Min(h.buyLeft, h.sellLeft);
    var b, s := h.buyLeft - q, h.sellLeft - q;
    Heads(if b <= EPS then h.bi + 1 else h.bi,
          if s <= EPS then h.si + 1 else h.si,
          if b <= EPS then QtyAt(buys, h.bi + 1) else b,
          if s <= EPS then QtyAt(sells, h.si + 1) else s)
  }

  function Greedy(price: real, buys: seq<Intent>, sells: seq<Intent>, h: Heads): Match
    decreases |buys| + |sells| - h.bi - h.si
  {
    if !Open(buys, sells, h) then Match([], h)
    else
      var rest := Greedy(price, buys, sells, Advance(buys, sells, h));
      Match(CrossOf(buys[h.bi], sells[h.si], Min(h.buyLeft, h.sellLeft), price) + rest.crosses, rest.end)
  }

  // ----- amounts -----

  type Selection = Intent -> bool

  ghost function Everyone(): Selection {
    (i: Intent) => true
  }

  ghost function OfCell(cell: string): Selection {
    (i: Intent) => i.cell == cell
  }

  /** The quantity the selected intents from position `k` on ask for. */
  ghost function Tail(intents: seq<Intent>, k: nat, who: Selection): real
    decreases |intents| - k
  {
    if k >= |intents| then 0.0
    else (if who(intents[k]) then intents[k].qty else 0.0) + Tail(intents, k + 1, who)
  }

  /** The same, when the intent at `k` has only `left` left. */
  ghost function OpenAmount(intents: seq<Intent>, k: nat, left: real, who: Selection): real {
    if k >= |intents| then 0.0
    else (if who(intents[k]) then left else 0.0) + Tail(intents, k + 1, who)
  }

  lemma {:induction false} TailIsSum(intents: seq<Intent>, k: nat, who: Selection, f: Intent -> real)
    requires k <= |intents|
    requires forall i :: f(i) == if who(i) then i.qty else 0.0
    ensures Tail(intents, k, who) == SumBy(intents[k..], f)
    decreases |intents| - k
  {
    if k < |intents| {
      TailIsSum(intents, k + 1, who, f);
      assert intents[k..] == [intents[k]] + intents[k + 1..];
      SumCons(intents[k], intents[k + 1..], f);
    }
  }

  lemma {:induction false} TailNonNegative(intents: seq<Intent>, k: nat, who: Selection)
    requires ValidIntents(intents)
    ensures 0.0 <= Tail(intents, k, who) <= Tail(intents, k, Everyone())
    decreases |intents| - k
  {
    if k < |intents| {
      TailNonNegative(intents, k + 1, who);
      assert intents[k] in intents;
    }
  }

  ghost function BoughtBy(cell: string): Cross -> real {
    (c: Cross) => if c.buyCell == cell then c.qty else 0.0
  }

  ghost function SoldBy(cell: string): Cross -> real {
    (c: Cross) => if c.sellCell == cell then c.qty else 0.0
  }

  ghost function CrossQty(): Cross -> real {
    (c: Cross) => c.qty
  }

  // ----- the real tolerance: how far apart the two sides can drift -----

  /** The heads have something left, unless their side is finished. */
  ghost predicate Sane(buys: seq<Intent>, sells: seq<Intent>, h: Heads) {
    && h.bi <= |buys| && h.si <= |sells|
    && (h.bi < |buys| ==> 0.0 < h.buyLeft <= buys[h.bi].qty)
    && (h.si < |sells| ==> 0.0 < h.sellLeft <= sells[h.si].qty)
  }

  /** How much more the purchases have open than the sales. */
  ghost function Imbalance(buys: seq<Intent>, sells: seq<Intent>, h: Heads): real {
    OpenAmount(buys, h.bi, h.buyLeft, Everyone()) - OpenAmount(sells, h.si, h.sellLeft, Everyone())
  }

  /**
   Each intent that steps aside drops at most the dust tolerance, so the imbalance
   drifts by at most that much per intent; one side is finished at the end.
   */
  lemma {:induction false} GreedyDrift(price: real, buys: seq<Intent>, sells: seq<Intent>, h: Heads)
    requires ValidIntents(buys) && ValidIntents(sells) && Sane(buys, sells, h)
    ensures var end := Greedy(price, buys, sells, h).end;
            && Sane(buys, sells, end) && !Open(buys, sells, end) && h.bi <= end.bi && h.si <= end.si
            && Imbalance(buys, sells, h) - Dust(end.bi - h.bi) <= Imbalance(buys, sells, end)
            && Imbalance(buys, sells, end) <= Imbalance(buys, sells, h) + Dust(end.si - h.si)
    decreases |buys| + |sells| - h.bi - h.si
  {
    if Open(buys, sells, h) {
      var next := Advance(buys, sells, h);
      NextIsSane(buys, sells, h);
      GreedyDrift(price, buys, sells, next);
    }
  }

  lemma NextIsSane(buys: seq<Intent>, sells: seq<Intent>, h: Heads)
    requires ValidIntents(buys) && ValidIntents(sells) && Sane(buys, sells, h) && Open(buys, sells, h)
    ensures var next := Advance(buys, sells, h);
            && Sane(buys, sells, next)
            && Imbalance(buys, sells, h) - (if next.bi > h.bi then EPS else 0.0) <= Imbalance(buys, sells, next)
            && Imbalance(buys, sells, next) <= Imbalance(buys, sells, h) + (if next.si > h.si then EPS else 0.0)
  {
    if h.bi + 1 < |buys| { assert buys[h.bi + 1] in buys; }
    if h.si + 1 < |sells| { assert sells[h.si + 1] in sells; }
  }

  /** Crosses name cells of the two lists, at the transfer price, for more than dust. */
  lemma {:induction false} GreedyCrossShape(price: real, buys: seq<Intent>, sells: seq<Intent>, h: Heads, c: Cross)
    requires c in Greedy(price, buys, sells, h).crosses
    ensures c.qty > EPS && c.price == price
    ensures exists x :: x in buys && x.symbol == c.symbol && x.cell == c.buyCell
    ensures exists x :: x in sells && x.cell == c.sellCell
    decreases |buys| + |sells| - h.bi - h.si
  {
    if c in CrossOf(buys[h.bi], sells[h.si], Min(h.buyLeft, h.sellLeft), price) {
      assert buys[h.bi] in buys && sells[h.si] in sells;
    } else {
      GreedyCrossShape(price, buys, sells, Advance(buys, sells, h), c);
    }
  }

  /** What a cell sells across never exceeds what its sales lose, whatever dust is dropped on the way. */
  lemma {:induction false} GreedySoldWithin(price: real, buys: seq<Intent>, sells: seq<Intent>, h: Heads, cell: string)
    requires ValidIntents(buys) && ValidIntents(sells) && Sane(buys, sells, h)
    ensures var m := Greedy(price, buys, sells, h);
            SumBy(m.crosses, SoldBy(cell))
            <= OpenAmount(sells, h.si, h.sellLeft, OfCell(cell)) - OpenAmount(sells, m.end.si, m.end.sellLeft, OfCell(cell))
    decreases |buys| + |sells| - h.bi - h.si
  {
    hide Tail, Imbalance;
    if Open(buys, sells, h) {
      var next := Advance(buys, sells, h);
      NextIsSane(buys, sells, h);
      GreedySoldWithin(price, buys, sells, next, cell);
      var q := Min(h.buyLeft, h.sellLeft);
      var made, rest := CrossOf(buys[h.bi], sells[h.si], q, price), Greedy(price, buys, sells, next).crosses;
      SumAppend(made, rest, SoldBy(cell));
      assert SumBy(made, SoldBy(cell)) <= if sells[h.si].cell == cell then q else 0.0 by {
        if made != [] { assert made[..0] == []; }
      }
      SaleLoses(sells, h, next, q, cell);
    }
  }

  lemma SaleLoses(sells: seq<Intent>, h: Heads, next: Heads, q: real, cell: string)
    requires h.si < |sells| && 0.0 <= q <= h.sellLeft
    requires (next.si == h.si && next.sellLeft == h.sellLeft - q) || (next.si == h.si + 1 && next.sellLeft == QtyAt(sells, next.si))
    ensures OpenAmount(sells, next.si, next.sellLeft, OfCell(cell))
         <= OpenAmount(sells, h.si, h.sellLeft, OfCell(cell)) - if sells[h.si].cell == cell then q else 0.0
  {
  }

  // ----- whole units: exact conservation -----

  ghost predicate WholeHeads(h: Heads) {
    Whole(h.buyLeft) && Whole(h.sellLeft)
  }

  /** In whole units a head that steps aside has nothing left, and every cross is recorded. */
  lemma NextIsWhole(buys: seq<Intent>, sells: seq<Intent>, h: Heads)
    requires ValidIntents(buys) && ValidIntents(sells) && WholeIntents(buys) && WholeIntents(sells)
    requires Sane(buys, sells, h) && WholeHeads(h) && Open(buys, sells, h)
    ensures var next, q := Advance(buys, sells, h), Min(h.buyLeft, h.sellLeft);
            && Sane(buys, sells, next) && WholeHeads(next) && q > EPS && Whole(q)
            && (next.bi > h.bi ==> h.buyLeft == q) && (next.si > h.si ==> h.sellLeft == q)
  {
    NextIsSane(buys, sells, h);
    var q := Min(h.buyLeft, h.sellLeft);
    WholeSum(h.buyLeft, q);
    WholeSum(h.sellLeft, q);
    WholeNoDust(h.buyLeft - q);
    WholeNoDust(h.sellLeft - q);
    WholeNoDust(q);
    WholeSum(q, q);
    if h.bi + 1 < |buys| { assert buys[h.bi + 1] in buys; }
    if h.si + 1 < |sells| { assert sells[h.si + 1] in sells; }
  }

  /** The cross a step of whole units makes. */
  ghost function StepCross(price: real, buys: seq<Intent>, sells: seq<Intent>, h: Heads): Cross
    requires Open(buys, sells, h)
  {
    Cross(buys[h.bi].symbol, buys[h.bi].cell, sells[h.si].cell, Min(h.buyLeft, h.sellLeft), price)
  }

  /** One step takes the crossed quantity from what either side has open, and nothing else. */
  lemma StepExact(price: real, buys: seq<Intent>, sells: seq<Intent>, h: Heads, who: Selection)
    requires ValidIntents(buys) && ValidIntents(sells) && WholeIntents(buys) && WholeIntents(sells)
    requires Sane(buys, sells, h) && WholeHeads(h) && Open(buys, sells, h)
    ensures var next, c := Advance(buys, sells, h), StepCross(price, buys, sells, h);
            && Sane(buys, sells, next) && WholeHeads(next) && Whole(c.qty)
            && Greedy(price, buys, sells, h).crosses == [c] + Greedy(price, buys, sells, next).crosses
            && Greedy(price, buys, sells, h).end == Greedy(price, buys, sells, next).end
            && OpenAmount(buys, next.bi, next.buyLeft, who)
               == OpenAmount(buys, h.bi, h.buyLeft, who) - (if who(buys[h.bi]) then c.qty else 0.0)
            && OpenAmount(sells, next.si, next.sellLeft, who)
               == OpenAmount(sells, h.si, h.sellLeft, who) - (if who(sells[h.si]) then c.qty else 0.0)
  {
    NextIsWhole(buys, sells, h);
  }

  /** What a cell bought across is exactly what its purchases lost. */
  lemma {:induction false} GreedyExactBuyer(price: real, buys: seq<Intent>, sells: seq<Intent>, h: Heads, cell: string)
    requires ValidIntents(buys) && ValidIntents(sells) && WholeIntents(buys) && WholeIntents(sells)
    requires Sane(buys, sells, h) && WholeHeads(h)
    ensures var m := Greedy(price, buys, sells, h);
            SumBy(m.crosses, BoughtBy(cell))
            == OpenAmount(buys, h.bi, h.buyLeft, OfCell(cell)) - OpenAmount(buys, m.end.bi, m.end.buyLeft, OfCell(cell))
    decreases |buys| + |sells| - h.bi - h.si
  {
    if Open(buys, sells, h) {
      var next := Advance(buys, sells, h);
      StepExact(price, buys, sells, h, OfCell(cell));
      GreedyExactBuyer(price, buys, sells, next, cell);
      SumCons(StepCross(price, buys, sells, h), Greedy(price, buys, sells, next).crosses, BoughtBy(cell));
    }
  }

  /** What a cell sold across is exactly what its sales lost. */
  lemma {:induction false} GreedyExactSeller(price: real, buys: seq<Intent>, sells: seq<Intent>, h: Heads, cell: string)
    requires ValidIntents(buys) && ValidIntents(sells) && WholeIntents(buys) && WholeIntents(sells)
    requires Sane(buys, sells, h) && WholeHeads(h)
    ensures var m := Greedy(price, buys, sells, h);
            SumBy(m.crosses, SoldBy(cell))
            == OpenAmount(sells, h.si, h.sellLeft, OfCell(cell)) - OpenAmount(sells, m.end.si, m.end.sellLeft, OfCell(cell))
    decreases |buys| + |sells| - h.bi - h.si
  {
    if Open(buys, sells, h) {
      var next := Advance(buys, sells, h);
      StepExact(price, buys, sells, h, OfCell(cell));
      GreedyExactSeller(price, buys, sells, next, cell);
      SumCons(StepCross(price, buys, sells, h), Greedy(price, buys, sells, next).crosses, SoldBy(cell));
    }
  }

  /** The volume crossed is what both sides lost, in whole units throughout. */
  lemma {:induction false} GreedyExactVolume(price: real, buys: seq<Intent>, sells: seq<Intent>, h: Heads)
    requires ValidIntents(buys) && ValidIntents(sells) && WholeIntents(buys) && WholeIntents(sells)
    requires Sane(buys, sells, h) && WholeHeads(h)
    ensures var m := Greedy(price, buys, sells, h);
            && WholeHeads(m.end) && (forall c :: c in m.crosses ==> Whole(c.qty))
            && SumBy(m.crosses, CrossQty())
               == OpenAmount(buys, h.bi, h.buyLeft, Everyone()) - OpenAmount(buys, m.end.bi, m.end.buyLeft, Everyone())
               == OpenAmount(sells, h.si, h.sellLeft, Everyone()) - OpenAmount(sells, m.end.si, m.end.sellLeft, Everyone())
    decreases |buys| + |sells| - h.bi - h.si
  {
    if Open(buys, sells, h) {
      var next := Advance(buys, sells, h);
      StepExact(price, buys, sells, h, Everyone());
      GreedyExactVolume(price, buys, sells, next);
      SumCons(StepCross(price, buys, sells, h), Greedy(price, buys, sells, next).crosses, CrossQty());
    }
  }

  // ----- what is left over -----

  /** The intents from `k` on that still ask for more than dust, the first of them reduced to `left`. */
  function Residual(intents: seq<Intent>, k: nat, left: real): seq<Intent>
    decreases |intents| - k
  {
    if k >= |intents| then []
    else (if left > EPS then [intents[k].(qty := left)] else []) + Residual(intents, k + 1, QtyAt(intents, k + 1))
  }

  /** The residual drops at most the dust tolerance per intent. */
  lemma {:induction false} ResidualAmount(intents: seq<Intent>, k: nat, left: real)
    requires ValidIntents(intents) && k <= |intents| && (k < |intents| ==> left > 0.0)
    ensures var open := OpenAmount(intents, k, left, Everyone());
            open - Dust(|intents| - k) <= SumBy(Residual(intents, k, left), QtyOf()) <= open
    ensures SumBy(Residual(intents, k, left), QtyOf()) >= 0.0
    decreases |intents| - k
  {
    if k < |intents| {
      if k + 1 < |intents| { assert intents[k + 1] in intents; }
      var rest := Residual(intents, k + 1, QtyAt(intents, k + 1));
      ResidualAmount(intents, k + 1, QtyAt(intents, k + 1));
      SumAppend(if left > EPS then [intents[k].(qty := left)] else [], rest, QtyOf());
      SumCons(intents[k].(qty := left), [], QtyOf());
      assert [intents[k].(qty := left)] + [] == [intents[k].(qty := left)];
    }
  }

  /** Nor does the residual hold more for a cell than is open for it. */
  lemma {:induction false} ResidualWithin(intents: seq<Intent>, k: nat, left: real, cell: string)
    requires ValidIntents(intents) && k <= |intents| && (k < |intents| ==> left > 0.0)
    ensures SumBy(Residual(intents, k, left), QtyFor(cell)) <= OpenAmount(intents, k, left, OfCell(cell))
    decreases |intents| - k
  {
    if k < |intents| {
      if k + 1 < |intents| { assert intents[k + 1] in intents; }
      var first, rest := if left > EPS then [intents[k].(qty := left)] else [], Residual(intents, k + 1, QtyAt(intents, k + 1));
      ResidualWithin(intents, k + 1, QtyAt(intents, k + 1), cell);
      SumAppend(first, rest, QtyFor(cell));
      assert SumBy(first, QtyFor(cell)) <= if intents[k].cell == cell then left else 0.0 by {
        if first != [] { assert first[..0] == []; }
      }
    }
  }

  lemma {:induction false} ResidualMembers(intents: seq<Intent>, k: nat, left: real, x: Intent)
    requires x in Residual(intents, k, left)
    ensures x.qty > EPS
    ensures exists i :: i in intents && x == i.(qty := x.qty)
    decreases |intents| - k
  {
    if left > EPS && x == intents[k].(qty := left) {
      assert intents[k] in intents;
    } else {
      ResidualMembers(intents, k + 1, QtyAt(intents, k + 1), x);
    }
  }

  /** `r` is worth `all` in total and `own` to the cell, in whole units. */
  ghost predicate Worth(r: seq<Intent>, cell: string, own: real, all: real) {
    WholeIntents(r) && SumBy(r, QtyFor(cell)) == own && SumBy(r, QtyOf()) == all
  }

  lemma WorthOneMore(i: Intent, left: real, rest: seq<Intent>, cell: string, own: real, all: real)
    requires Worth(rest, cell, own, all) && Whole(left)
    ensures Worth([i.(qty := left)] + rest, cell, own + (if i.cell == cell then left else 0.0), all + left)
  {
    SumCons(i.(qty := left), rest, QtyFor(cell));
    SumCons(i.(qty := left), rest, QtyOf());
  }

  /** In whole units the residual is exactly what is left open, cell by cell. */
  lemma {:induction false} ResidualExact(intents: seq<Intent>, k: nat, left: real, cell: string)
    requires ValidIntents(intents) && WholeIntents(intents) && k <= |intents| && (k < |intents| ==> left > 0.0 && Whole(left))
    ensures Worth(Residual(intents, k, left), cell, OpenAmount(intents, k, left, OfCell(cell)), OpenAmount(intents, k, left, Everyone()))
    decreases |intents| - k
  {
    if k < |intents| {
      if k + 1 < |intents| { assert intents[k + 1] in intents; }
      WholeNoDust(left);
      var next := QtyAt(intents, k + 1);
      ResidualExact(intents, k + 1, next, cell);
      WorthOneMore(intents[k], left, Residual(intents, k + 1, next), cell,
                   OpenAmount(intents, k + 1, next, OfCell(cell)), OpenAmount(intents, k + 1, next, Everyone()));
    }
  }
}
