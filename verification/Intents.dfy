/** Cell order intents and their deterministic ordering (packages/schemas/capital_cell.py). */
module Intents {
  import opened Numeric
  import opened Sums

  datatype Side = BUY | SELL

  datatype Intent = Intent(id: string, cell: string, symbol: string, side: Side, qty: real) {
    /** The schema admits positive quantities only. */
    predicate Valid() {
      qty > 0.0
    }
  }

  ghost predicate ValidIntents(intents: seq<Intent>) {
    forall i :: i in intents ==> i.Valid()
  }

  ghost predicate WholeIntents(intents: seq<Intent>) {
    forall i :: i in intents ==> Whole(i.qty)
  }

  ghost predicate UniqueIds(intents: seq<Intent>) {
    forall i, j :: 0 <= i < j < |intents| ==> intents[i].id != intents[j].id
  }

  // ----- lexicographic order on ids -----

  predicate LexLeq(a: string, b: string) {
    a == [] || (b != [] && (a[0] < b[0] || (a[0] == b[0] && LexLeq(a[1..], b[1..]))))
  }

  lemma {:induction false} LexTotal(a: string, b: string)
    ensures LexLeq(a, b) || LexLeq(b, a)
  {
    if a != [] && b != [] { LexTotal(a[1..], b[1..]); }
  }

  lemma {:induction false} LexAntisymmetric(a: string, b: string)
    requires LexLeq(a, b) && LexLeq(b, a)
    ensures a == b
  {
    if a != [] && b != [] {
      LexAntisymmetric(a[1..], b[1..]);
      assert a == [a[0]] + a[1..] && b == [b[0]] + b[1..];
    }
  }

  lemma {:induction false} LexTransitive(a: string, b: string, c: string)
    requires LexLeq(a, b) && LexLeq(b, c)
    ensures LexLeq(a, c)
  {
    if a != [] && a[0] == b[0] && b[0] == c[0] { LexTransitive(a[1..], b[1..], c[1..]); }
  }

  // ----- sorting by id -----

  function InsertById(x: Intent, s: seq<Intent>): seq<Intent> {
    if s == [] then [x]
    else if LexLeq(x.id, s[0].id) then [x] + s
    else [s[0]] + InsertById(x, s[1..])
  }

  /** `sorted(intents, key=intent_id)`. */
  function SortById(s: seq<Intent>): seq<Intent> {
    if s == [] then [] else InsertById(s[0], SortById(s[1..]))
  }

  ghost predicate SortedById(s: seq<Intent>) {
    forall i, j :: 0 <= i < j < |s| ==> LexLeq(s[i].id, s[j].id)
  }

  lemma {:induction false} InsertKeeps(x: Intent, s: seq<Intent>)
    requires SortedById(s)
    ensures SortedById(InsertById(x, s))
    ensures multiset(InsertById(x, s)) == multiset(s) + multiset{x}
  {
    if s == [] {
    } else if LexLeq(x.id, s[0].id) {
      forall j | 0 <= j < |s|
        ensures LexLeq(x.id, s[j].id)
      {
        if j > 0 { LexTransitive(x.id, s[0].id, s[j].id); }
      }
    } else {
      InsertKeeps(x, s[1..]);
      var t := InsertById(x, s[1..]);
      LexTotal(x.id, s[0].id);
      assert s == [s[0]] + s[1..];
      forall j | 0 <= j < |t|
        ensures LexLeq(s[0].id, t[j].id)
      {
        assert t[j] in multiset(t);
        assert t[j] == x || t[j] in s[1..];
      }
    }
  }

  lemma {:induction false} SortKeeps(s: seq<Intent>)
    ensures SortedById(SortById(s)) && multiset(SortById(s)) == multiset(s)
  {
    if s != [] {
      SortKeeps(s[1..]);
      InsertKeeps(s[0], SortById(s[1..]));
      assert s == [s[0]] + s[1..];
    }
  }

  lemma SortMembers(s: seq<Intent>, x: Intent)
    ensures x in SortById(s) <==> x in s
  {
    SortKeeps(s);
    assert x in s <==> x in multiset(s);
    assert x in SortById(s) <==> x in multiset(SortById(s));
  }

  ghost predicate IdsDetermine(s: seq<Intent>) {
    forall x, y :: x in s && y in s && x.id == y.id ==> x == y
  }

  lemma SameHead(a: seq<Intent>, b: seq<Intent>)
    requires SortedById(a) && SortedById(b) && IdsDetermine(a) && multiset(a) == multiset(b)
    requires a != [] && b != []
    ensures a[0] == b[0]
  {
    assert a[0] in multiset(b) && b[0] in multiset(a);
    var i :| 0 <= i < |a| && a[i] == b[0];
    var j :| 0 <= j < |b| && b[j] == a[0];
    LexTotal(a[0].id, a[0].id);
    LexTotal(b[0].id, b[0].id);
    LexAntisymmetric(a[0].id, b[0].id);
  }

  lemma SameTail(a: seq<Intent>, b: seq<Intent>)
    requires a != [] && b != [] && a[0] == b[0] && multiset(a) == multiset(b)
    ensures multiset(a[1..]) == multiset(b[1..])
  {
    assert a == [a[0]] + a[1..] && b == [b[0]] + b[1..];
    assert multiset(a[1..]) == multiset(a) - multiset{a[0]};
    assert multiset(b[1..]) == multiset(b) - multiset{b[0]};
  }

  /** The same intents sort to the same list. */
  lemma {:induction false} SortedListIsUnique(a: seq<Intent>, b: seq<Intent>)
    requires SortedById(a) && SortedById(b) && IdsDetermine(a) && multiset(a) == multiset(b)
    ensures a == b
    decreases |a|
  {
    assert |multiset(a)| == |a| && |multiset(b)| == |b|;
    if a != [] {
      SameHead(a, b);
      SameTail(a, b);
      SortedListIsUnique(a[1..], b[1..]);
      assert a == [a[0]] + a[1..] && b == [b[0]] + b[1..];
    }
  }

  lemma SortIgnoresOrder(a: seq<Intent>, b: seq<Intent>)
    requires multiset(a) == multiset(b) && UniqueIds(a)
    ensures SortById(a) == SortById(b)
  {
    SortKeeps(a);
    SortKeeps(b);
    forall x, y | x in SortById(a) && y in SortById(a) && x.id == y.id
      ensures x == y
    {
      SortMembers(a, x);
      SortMembers(a, y);
    }
    SortedListIsUnique(SortById(a), SortById(b));
  }

  // ----- selecting -----

  function OfSide(s: seq<Intent>, side: Side): seq<Intent> {
    if s == [] then [] else OfSide(s[..|s| - 1], side) + (if s[|s| - 1].side == side then [s[|s| - 1]] else [])
  }

  function OfSymbol(s: seq<Intent>, symbol: string): seq<Intent> {
    if s == [] then [] else OfSymbol(s[..|s| - 1], symbol) + (if s[|s| - 1].symbol == symbol then [s[|s| - 1]] else [])
  }

  lemma LastCounted(s: seq<Intent>, x: Intent)
    requires s != []
    ensures multiset(s)[x] == multiset(s[..|s| - 1])[x] + if s[|s| - 1] == x then 1 else 0
  {
    assert s == s[..|s| - 1] + [s[|s| - 1]];
  }

  lemma {:induction false} OfSideCount(s: seq<Intent>, side: Side, x: Intent)
    ensures multiset(OfSide(s, side))[x] == if x.side == side then multiset(s)[x] else 0
  {
    if s != [] {
      OfSideCount(s[..|s| - 1], side, x);
      LastCounted(s, x);
    }
  }

  lemma OfSideMembers(s: seq<Intent>, side: Side, x: Intent)
    ensures x in OfSide(s, side) <==> x in s && x.side == side
  {
    OfSideCount(s, side, x);
    assert x in s <==> x in multiset(s);
    assert x in OfSide(s, side) <==> x in multiset(OfSide(s, side));
  }

  /** Every intent is on one of the two sides. */
  lemma {:induction false} SidesCount(s: seq<Intent>)
    ensures |OfSide(s, BUY)| + |OfSide(s, SELL)| == |s|
  {
    if s != [] {
      SidesCount(s[..|s| - 1]);
    }
  }

  lemma {:induction false} OfSymbolCount(s: seq<Intent>, symbol: string, x: Intent)
    ensures multiset(OfSymbol(s, symbol))[x] == if x.symbol == symbol then multiset(s)[x] else 0
  {
    if s != [] {
      OfSymbolCount(s[..|s| - 1], symbol, x);
      LastCounted(s, x);
    }
  }

  lemma OfSymbolMembers(s: seq<Intent>, symbol: string, x: Intent)
    ensures x in OfSymbol(s, symbol) <==> x in s && x.symbol == symbol
  {
    OfSymbolCount(s, symbol, x);
    assert x in s <==> x in multiset(s);
    assert x in OfSymbol(s, symbol) <==> x in multiset(OfSymbol(s, symbol));
  }

  lemma {:induction false} OfSymbolUnique(s: seq<Intent>, symbol: string)
    requires UniqueIds(s)
    ensures UniqueIds(OfSymbol(s, symbol))
  {
    if s != [] {
      var t := s[..|s| - 1];
      OfSymbolUnique(t, symbol);
      forall i | 0 <= i < |OfSymbol(t, symbol)|
        ensures OfSymbol(t, symbol)[i].id != s[|s| - 1].id
      {
        OfSymbolMembers(t, symbol, OfSymbol(t, symbol)[i]);
      }
    }
  }

  lemma {:induction false} OfSideUnique(s: seq<Intent>, side: Side)
    requires UniqueIds(s)
    ensures UniqueIds(OfSide(s, side))
  {
    if s != [] {
      var t := s[..|s| - 1];
      OfSideUnique(t, side);
      forall i | 0 <= i < |OfSide(t, side)|
        ensures OfSide(t, side)[i].id != s[|s| - 1].id
      {
        OfSideMembers(t, side, OfSide(t, side)[i]);
      }
    }
  }

  /** Selecting commutes with reordering. */
  lemma SelectReordered(a: seq<Intent>, b: seq<Intent>, symbol: string, side: Side)
    requires multiset(a) == multiset(b)
    ensures multiset(OfSymbol(a, symbol)) == multiset(OfSymbol(b, symbol))
    ensures multiset(OfSide(a, side)) == multiset(OfSide(b, side))
  {
    forall x
      ensures multiset(OfSymbol(a, symbol))[x] == multiset(OfSymbol(b, symbol))[x]
    {
      OfSymbolCount(a, symbol, x);
      OfSymbolCount(b, symbol, x);
    }
    forall x
      ensures multiset(OfSide(a, side))[x] == multiset(OfSide(b, side))[x]
    {
      OfSideCount(a, side, x);
      OfSideCount(b, side, x);
    }
  }

  // ----- quantities -----

  ghost function QtyOf(): Intent -> real {
    (i: Intent) => i.qty
  }

  /** The quantity an intent asks for on behalf of `cell`. */
  ghost function QtyFor(cell: string): Intent -> real {
    (i: Intent) => if i.cell == cell then i.qty else 0.0
  }

  /** The same, signed: bought positive, sold negative. */
  ghost function SignedFor(cell: string): Intent -> real {
    (i: Intent) => if i.cell != cell then 0.0 else if i.side == BUY then i.qty else -i.qty
  }

  ghost function SignedIn(cell: string, symbol: string): Intent -> real {
    (i: Intent) => if i.cell != cell || i.symbol != symbol then 0.0 else if i.side == BUY then i.qty else -i.qty
  }

  /** Splitting by side splits the signed quantity. */
  lemma {:induction false} SignedBySide(s: seq<Intent>, cell: string)
    ensures SumBy(s, SignedFor(cell)) == SumBy(OfSide(s, BUY), QtyFor(cell)) - SumBy(OfSide(s, SELL), QtyFor(cell))
  {
    if s != [] {
      var t, x := s[..|s| - 1], s[|s| - 1];
      SignedBySide(t, cell);
      SumSnoc(OfSide(t, x.side), x, QtyFor(cell));
      assert OfSide(t, BUY) + [] == OfSide(t, BUY) && OfSide(t, SELL) + [] == OfSide(t, SELL);
    }
  }

  lemma {:induction false} SignedOfSymbol(s: seq<Intent>, cell: string, symbol: string)
    ensures SumBy(OfSymbol(s, symbol), SignedFor(cell)) == SumBy(s, SignedIn(cell, symbol))
  {
    if s != [] {
      var t, x := s[..|s| - 1], s[|s| - 1];
      SignedOfSymbol(t, cell, symbol);
      SumSnoc(OfSymbol(t, symbol), x, SignedFor(cell));
      assert OfSymbol(t, symbol) + [] == OfSymbol(t, symbol);
    }
  }
}
