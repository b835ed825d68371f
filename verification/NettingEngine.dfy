/**
 The netting engine's own loops (services/capital_cells/netting.py), proved to compute
 the netting result of module Netting.
 */
module NettingEngine {
  import opened Numeric
  import opened Sums
  import opened Intents
  import opened Matching
  import opened Netting
  import opened CellLedgers

  // ----- one symbol -----

  method Select(intents: seq<Intent>, side: Side) returns (r: seq<Intent>)
    ensures r == Sorted(intents, side)
  {
    r := [];
    for i := 0 to |intents|
      invariant r == OfSide(intents[..i], side)
    {
      assert intents[..i + 1][..i] == intents[..i];
      if intents[i].side == side {
        r := r + [intents[i]];
      } else {
        assert r + [] == r;
      }
    }
    assert intents[..|intents|] == intents;
    r := SortById(r);
  }

  method TotalQty(intents: seq<Intent>) returns (total: real)
    ensures total == SumBy(intents, QtyOf())
  {
    total := 0.0;
    for i := 0 to |intents|
      invariant total == SumBy(intents[..i], QtyOf())
    {
      SumPrefix(intents, i, QtyOf());
      total := total + intents[i].qty;
    }
    assert intents[..|intents|] == intents;
  }

  method TotalCrossed(crosses: seq<Cross>) returns (total: real)
    ensures total == SumBy(crosses, CrossQty())
  {
    total := 0.0;
    for i := 0 to |crosses|
      invariant total == SumBy(crosses[..i], CrossQty())
    {
      SumPrefix(crosses, i, CrossQty());
      total := total + crosses[i].qty;
    }
    assert crosses[..|crosses|] == crosses;
  }

  /** What position `k` of a remainder list has left, 0 past the end. */
  ghost function LeftAt(remaining: array<real>, k: nat): real
    reads remaining
  {
    if k < remaining.Length then remaining[k] else 0.0
  }

  /** The pointer's list of remainders: dust behind it, full quantities ahead of it. */
  ghost predicate Pointed(intents: seq<Intent>, remaining: array<real>, k: nat)
    reads remaining
  {
    && remaining.Length == |intents| && k <= |intents|
    && (forall i :: 0 <= i < k ==> remaining[i] <= EPS)
    && (forall i :: k < i < |intents| ==> remaining[i] == intents[i].qty)
  }

  /** One pass of the two-pointer loop. */
  method MatchStep(
    price: real, buys: seq<Intent>, sells: seq<Intent>, buyRemaining: array<real>, sellRemaining: array<real>,
                   bi: nat, si: nat)
    returns (cross: seq<Cross>, nextBi: nat, nextSi: nat)
    requires buyRemaining != sellRemaining && bi < |buys| && si < |sells|
    requires Pointed(buys, buyRemaining, bi) && Pointed(sells, sellRemaining, si)
    modifies buyRemaining, sellRemaining
    ensures var h := Heads(bi, si, old(buyRemaining[bi]), old(sellRemaining[si]));
            && cross == CrossOf(buys[bi], sells[si], Min(h.buyLeft, h.sellLeft), price)
            && nextBi <= |buys| && nextSi <= |sells|
            && Advance(buys, sells, h) == Heads(nextBi, nextSi, LeftAt(buyRemaining, nextBi), LeftAt(sellRemaining, nextSi))
    ensures Pointed(buys, buyRemaining, nextBi) && Pointed(sells, sellRemaining, nextSi)
  {
    var q := Min(buyRemaining[bi], sellRemaining[si]);
    cross := [];
    if q > EPS {
      cross := [Cross(buys[bi].symbol, buys[bi].cell, sells[si].cell, q, price)];
    }
    buyRemaining[bi] := buyRemaining[bi] - q;
    sellRemaining[si] := sellRemaining[si] - q;
    nextBi, nextSi := bi, si;
    if buyRemaining[bi] <= EPS { nextBi := bi + 1; }
    if sellRemaining[si] <= EPS { nextSi := si + 1; }
  }

  lemma GreedyContinues(
    price: real, buys: seq<Intent>, sells: seq<Intent>, crosses: seq<Cross>, h: Heads, cross: seq<Cross>)
    requires Open(buys, sells, h) && cross == CrossOf(buys[h.bi], sells[h.si], Min(h.buyLeft, h.sellLeft), price)
    ensures crosses + Greedy(price, buys, sells, h).crosses
         == (crosses + cross) + Greedy(price, buys, sells, Advance(buys, sells, h)).crosses
    ensures Greedy(price, buys, sells, h).end == Greedy(price, buys, sells, Advance(buys, sells, h)).end
  {
    Reassociate(crosses, cross, Greedy(price, buys, sells, Advance(buys, sells, h)).crosses);
  }

  lemma Reassociate<T>(a: seq<T>, b: seq<T>, c: seq<T>)
    ensures a + (b + c) == (a + b) + c
  {
  }

  /** The two-pointer loop. */
  method MatchLoop(price: real, buys: seq<Intent>, sells: seq<Intent>)
    returns (crosses: seq<Cross>, buyRemaining: array<real>, sellRemaining: array<real>, ghost end: Heads)
    ensures Greedy(price, buys, sells, Start(buys, sells)) == Match(crosses, end)
    ensures Pointed(buys, buyRemaining, end.bi) && LeftAt(buyRemaining, end.bi) == end.buyLeft
    ensures Pointed(sells, sellRemaining, end.si) && LeftAt(sellRemaining, end.si) == end.sellLeft
  {
    crosses := [];
    buyRemaining := new real[|buys|](i => QtyAt(buys, i));
    sellRemaining := new real[|sells|](i => QtyAt(sells, i));
    var bi, si := 0, 0;
    end := Start(buys, sells);
    ghost var all := Greedy(price, buys, sells, end);
    assert [] + all.crosses == all.crosses;
    while bi < |buys| && si < |sells|
      invariant fresh(buyRemaining) && fresh(sellRemaining) && buyRemaining != sellRemaining
      invariant 0 <= bi && 0 <= si && Pointed(buys, buyRemaining, bi) && Pointed(sells, sellRemaining, si)
      invariant end == Heads(bi, si, LeftAt(buyRemaining, bi), LeftAt(sellRemaining, si))
      invariant all.crosses == crosses + Greedy(price, buys, sells, end).crosses
      invariant all.end == Greedy(price, buys, sells, end).end
      decreases |buys| + |sells| - bi - si
    {
      var cross, nextBi, nextSi := MatchStep(price, buys, sells, buyRemaining, sellRemaining, bi, si);
      GreedyContinues(price, buys, sells, crosses, end, cross);
      end := Advance(buys, sells, end);
      crosses, bi, si := crosses + cross, nextBi, nextSi;
    }
    assert crosses + [] == crosses;
  }

  /** Keeps the intents with more than dust remaining, reduced to what remains. */
  method Leftovers(intents: seq<Intent>, remaining: array<real>, ghost k: nat) returns (residual: seq<Intent>)
    requires Pointed(intents, remaining, k)
    ensures residual == Residual(intents, k, LeftAt(remaining, k))
  {
    residual := [];
    assert [] + Residual(intents, k, LeftAt(remaining, k)) == Residual(intents, k, LeftAt(remaining, k));
    for i := 0 to |intents|
      invariant i <= k ==> residual == []
      invariant i >= k ==> residual + Residual(intents, i, LeftAt(remaining, i)) == Residual(intents, k, LeftAt(remaining, k))
    {
      if remaining[i] > EPS {
        ghost var rest := Residual(intents, i + 1, QtyAt(intents, i + 1));
        assert residual + ([intents[i].(qty := remaining[i])] + rest) == residual + [intents[i].(qty := remaining[i])] + rest;
        residual := residual + [intents[i].(qty := remaining[i])];
      } else if i >= k {
        assert [] + Residual(intents, i + 1, QtyAt(intents, i + 1)) == Residual(intents, i + 1, QtyAt(intents, i + 1));
      }
    }
    assert residual + [] == residual;
  }

  method NetSymbol(symbol: string, intents: seq<Intent>, price: real) returns (r: SymbolNet)
    ensures r == NetOf(symbol, intents, price)
  {
    var buys := Select(intents, BUY);
    var sells := Select(intents, SELL);
    var grossBuy := TotalQty(buys);
    var grossSell := TotalQty(sells);
    var crosses, buyRemaining, sellRemaining, end := MatchLoop(price, buys, sells);
    var netQty := grossBuy - grossSell;
    var netSide := if netQty > EPS then Order(BUY) else if netQty < -EPS then Order(SELL) else NoOrder;
    var residual;
    if netSide == Order(BUY) {
      residual := Leftovers(buys, buyRemaining, end.bi);
    } else {
      residual := Leftovers(sells, sellRemaining, end.si);
    }
    var crossed := TotalCrossed(crosses);
    r := SymbolNet(symbol, grossBuy, grossSell, crossed, netSide, Abs(netQty), crosses, intents, residual);
  }

  // ----- the batch -----

  datatype BatchCheck = Accepted | DuplicateIntentId | UnknownCell | CellShortSell

  ghost function SellsFrom(cell: string, symbol: string): Intent -> real {
    (i: Intent) => if i.side == SELL && i.cell == cell && i.symbol == symbol then i.qty else 0.0
  }

  /** The total a batch wants to sell from (cell, symbol). */
  ghost function SellDemand(intents: seq<Intent>, cell: string, symbol: string): real {
    SumBy(intents, SellsFrom(cell, symbol))
  }

  ghost predicate KnownCells(intents: seq<Intent>, book: Book) {
    forall i :: i in intents ==> i.cell in book
  }

  /** No cell sells more of a symbol, in total, than it holds. */
  ghost predicate NoCellShort(intents: seq<Intent>, book: Book) {
    forall c, s :: c in book ==> SellDemand(intents, c, s) <= Holding(book, c, s) + EPS
  }

  type Demand = map<(string, string), real>

  /** `demand` records exactly the pairs sold, with their totals. */
  ghost predicate Records(demand: Demand, intents: seq<Intent>) {
    && (forall c, s :: (c, s) in demand ==> demand[(c, s)] == SellDemand(intents, c, s))
    && (forall c, s :: (c, s) !in demand ==> SellDemand(intents, c, s) == 0.0)
    && (forall c, s :: (c, s) in demand ==> exists i :: i in intents && i.cell == c)
  }

  /** Adds one intent to the record. */
  function Record(demand: Demand, intent: Intent): Demand {
    if intent.side == SELL then
      var key := (intent.cell, intent.symbol);
      demand[key := (if key in demand then demand[key] else 0.0) + intent.qty]
    else demand
  }

  lemma RecordKeeps(demand: Demand, intents: seq<Intent>, i: nat)
    requires i < |intents| && Records(demand, intents[..i])
    ensures Records(Record(demand, intents[i]), intents[..i + 1])
  {
    var next := Record(demand, intents[i]);
    assert intents[..i + 1] == intents[..i] + [intents[i]];
    forall c, s
      ensures SellDemand(intents[..i + 1], c, s) == SellDemand(intents[..i], c, s) + SellsFrom(c, s)(intents[i])
    {
      SumPrefix(intents, i, SellsFrom(c, s));
    }
  }

  /** Ids and cells, in input order; collects the sales per (cell, symbol) on the way. */
  method ValidateIds(intents: seq<Intent>, cells: Cells) returns (r: BatchCheck, demand: Demand)
    ensures r == Accepted || r == DuplicateIntentId || r == UnknownCell
    ensures r == Accepted ==> UniqueIds(intents) && KnownCells(intents, BookOf(cells)) && Records(demand, intents)
    ensures r == DuplicateIntentId ==>
              exists i, j :: 0 <= j < i < |intents| && intents[j].id == intents[i].id && KnownCells(intents[..i], BookOf(cells))
    ensures r == UnknownCell ==>
              exists i :: 0 <= i < |intents| && intents[i].cell !in cells && UniqueIds(intents[..i + 1])
  {
    var seen: set<string> := {};
    demand := map[];
    for i := 0 to |intents|
      invariant seen == set j | 0 <= j < i :: intents[j].id
      invariant UniqueIds(intents[..i]) && KnownCells(intents[..i], BookOf(cells)) && Records(demand, intents[..i])
    {
      if intents[i].id in seen {
        return DuplicateIntentId, demand;
      }
      assert UniqueIds(intents[..i + 1]);
      seen := seen + {intents[i].id};
      if intents[i].cell !in cells {
        return UnknownCell, demand;
      }
      RecordKeeps(demand, intents, i);
      demand := Record(demand, intents[i]);
    }
    assert intents[..|intents|] == intents;
    r := Accepted;
  }

  /**
   A batch is accepted exactly when its ids are unique, its cells exist, and no cell's
   total sale of a symbol exceeds its holding.
   */
  method ValidateBatch(intents: seq<Intent>, cells: Cells) returns (r: BatchCheck)
    requires SoundBook(BookOf(cells))
    ensures r == Accepted <==> UniqueIds(intents) && KnownCells(intents, BookOf(cells)) && NoCellShort(intents, BookOf(cells))
    ensures r == CellShortSell ==> UniqueIds(intents) && KnownCells(intents, BookOf(cells))
  {
    var demand;
    r, demand := ValidateIds(intents, cells);
    if r != Accepted {
      return;
    }
    var keys := demand.Keys;
    while keys != {}
      invariant keys <= demand.Keys
      invariant forall key :: key in demand && key !in keys ==> demand[key] <= Holding(BookOf(cells), key.0, key.1) + EPS
    {
      var key :| key in keys;
      var held := if key.1 in cells[key.0].positions then cells[key.0].positions[key.1].qty else 0.0;
      assert held == Holding(BookOf(cells), key.0, key.1);
      if demand[key] > held + EPS {
        assert SellDemand(intents, key.0, key.1) > Holding(BookOf(cells), key.0, key.1) + EPS;
        return CellShortSell;
      }
      keys := keys - {key};
    }
    forall c, s | c in BookOf(cells)
      ensures SellDemand(intents, c, s) <= Holding(BookOf(cells), c, s) + EPS
    {
      if (c, s) !in demand {
        assert BookOf(cells)[c].Sound();
      }
    }
  }

  /** The symbols of a batch, each once, in order of first appearance. */
  function SymbolsOf(intents: seq<Intent>): seq<string> {
    if intents == [] then []
    else
      var before, s := SymbolsOf(intents[..|intents| - 1]), intents[|intents| - 1].symbol;
      if s in before then before else before + [s]
  }

  /** The results of the first `k` of the listed symbols. */
  ghost function NetFirst(
    symbols: seq<string>, intents: seq<Intent>, prices: string -> real, k: nat): (r: seq<SymbolNet>)
    requires k <= |symbols|
    ensures |r| == k
  {
    if k == 0 then []
    else
      var s := symbols[k - 1];
      NetFirst(symbols, intents, prices, k - 1) + [NetOf(s, OfSymbol(intents, s), prices(s))]
  }

  /** The result of every symbol of the batch. */
  ghost function NetAll(intents: seq<Intent>, prices: string -> real): seq<SymbolNet> {
    var symbols := SymbolsOf(intents);
    NetFirst(symbols, intents, prices, |symbols|)
  }

  lemma {:induction false} SymbolsListed(intents: seq<Intent>, s: string)
    ensures s in SymbolsOf(intents) <==> exists i :: i in intents && i.symbol == s
    ensures forall j, k :: 0 <= j < k < |SymbolsOf(intents)| ==> SymbolsOf(intents)[j] != SymbolsOf(intents)[k]
    ensures s !in SymbolsOf(intents) ==> OfSymbol(intents, s) == []
  {
    if intents != [] {
      SymbolsListed(intents[..|intents| - 1], s);
      assert intents == intents[..|intents| - 1] + [intents[|intents| - 1]];
    }
  }

  lemma SameGroup(a: seq<Intent>, b: seq<Intent>, s: string)
    requires multiset(a) == multiset(b)
    ensures multiset(OfSymbol(a, s)) == multiset(OfSymbol(b, s))
  {
    forall x: Intent
      ensures multiset(OfSymbol(a, s))[x] == multiset(OfSymbol(b, s))[x]
    {
      OfSymbolCount(a, s, x);
      OfSymbolCount(b, s, x);
    }
  }

  /**
   The order of a batch does not matter: a reordered batch names the same symbols and nets
   each of them the same, down to every cross and residual; only the record of who
   contributed keeps the order.
   */
  lemma BatchOrderIsIrrelevant(a: seq<Intent>, b: seq<Intent>, s: string, price: real)
    requires multiset(a) == multiset(b) && UniqueIds(a)
    ensures s in SymbolsOf(a) <==> s in SymbolsOf(b)
    ensures NetOf(s, OfSymbol(a, s), price) == NetOf(s, OfSymbol(b, s), price).(contributing := OfSymbol(a, s))
  {
    hide NetOf, OfSymbol, UniqueIds;
    SymbolsListed(a, s);
    SymbolsListed(b, s);
    assert forall x :: x in a <==> x in multiset(a);
    assert forall x :: x in b <==> x in multiset(b);
    SameGroup(a, b, s);
    OfSymbolUnique(a, s);
    NetIgnoresOrder(s, OfSymbol(a, s), OfSymbol(b, s), price);
  }

  datatype NetResult = Netted(bySymbol: seq<SymbolNet>) | Rejected(check: BatchCheck) | Inconsistent(symbol: string)

  method GroupBySymbol(intents: seq<Intent>) returns (order: seq<string>, groups: map<string, seq<Intent>>)
    ensures order == SymbolsOf(intents)
    ensures forall s :: s in order ==> s in groups && groups[s] == OfSymbol(intents, s)
  {
    order, groups := [], map[];
    for i := 0 to |intents|
      invariant order == SymbolsOf(intents[..i])
      invariant forall s :: s in groups <==> s in order
      invariant forall s :: s in groups ==> groups[s] == OfSymbol(intents[..i], s)
    {
      var s := intents[i].symbol;
      assert intents[..i + 1][..i] == intents[..i];
      SymbolsListed(intents[..i], s);
      if s !in groups {
        order := order + [s];
      }
      groups := groups[s := (if s in groups then groups[s] else []) + [intents[i]]];
      assert forall t :: t in groups && t != s ==> OfSymbol(intents[..i], t) + [] == OfSymbol(intents[..i], t);
    }
    assert intents[..|intents|] == intents;
  }

  /** Nets one symbol of the batch and applies the construction guard. */
  method NetGroup(
    intents: seq<Intent>, symbol: string, group: seq<Intent>, price: real) returns (net: SymbolNet, consistent: bool)
    requires ValidIntents(intents) && group == OfSymbol(intents, symbol)
    ensures net == NetOf(symbol, group, price)
    ensures |intents| <= 1000 ==> consistent
  {
    net := NetSymbol(symbol, group, price);
    var owed := TotalQty(net.residual);
    consistent := !GuardFires(net, owed);
    GroupFits(intents, symbol);
    if |intents| <= 1000 {
      GuardNeverFires(symbol, group, price);
    }
  }

  method NetSymbols(intents: seq<Intent>, prices: string -> real) returns (r: NetResult)
    requires ValidIntents(intents)
    ensures r == Netted(NetAll(intents, prices)) || (r.Inconsistent? && |intents| > 1000)
  {
    hide NetOf, OfSymbol, SymbolsOf;
    var order, groups := GroupBySymbol(intents);
    var results: seq<SymbolNet> := [];
    for k := 0 to |order|
      invariant results == NetFirst(order, intents, prices, k)
    {
      var net, consistent := NetGroup(intents, order[k], groups[order[k]], prices(order[k]));
      if !consistent {
        return Inconsistent(order[k]);
      }
      results := results + [net];
    }
    r := Netted(results);
  }

  /** Rejects a bad batch before any plan is drawn up; otherwise nets every symbol. */
  method Net(intents: seq<Intent>, cells: Cells, prices: string -> real) returns (r: NetResult)
    requires ValidIntents(intents) && SoundBook(BookOf(cells))
    ensures r.Rejected? <==> !(UniqueIds(intents) && KnownCells(intents, BookOf(cells)) && NoCellShort(intents, BookOf(cells)))
    ensures r.Netted? ==> r.bySymbol == NetAll(intents, prices)
    ensures r.Inconsistent? ==> |intents| > 1000
  {
    var check := ValidateBatch(intents, cells);
    if check != Accepted {
      return Rejected(check);
    }
    r := NetSymbols(intents, prices);
  }

  lemma GroupFits(intents: seq<Intent>, s: string)
    requires ValidIntents(intents)
    ensures ValidIntents(OfSymbol(intents, s)) && |OfSymbol(intents, s)| <= |intents|
  {
    forall x | x in OfSymbol(intents, s)
      ensures x in intents
    {
      OfSymbolMembers(intents, s, x);
    }
    GroupSize(intents, s);
  }

  lemma {:induction false} GroupSize(intents: seq<Intent>, s: string)
    ensures |OfSymbol(intents, s)| <= |intents|
  {
    if intents != [] {
      GroupSize(intents[..|intents| - 1], s);
    }
  }
}
