/**
 Checking a batch of legs against the cell ledgers and then posting it, sales first
 (`_validate_crosses`, `apply_crosses_to_cells` in services/capital_cells/netting.py and
 their counterparts in services/capital_cells/fill_allocation.py).
 */
module Posting {
  import opened Numeric
  import opened Sums
  import opened CellLedgers
  import opened Batches
  import opened Matching
  import opened Lots

  datatype LegCheck = Fine | UnknownLedger | WouldShort | WouldOverdraw

  type Sold = map<(string, string), real>
  type Delta = map<string, real>

  function SoldOf(sold: Sold, c: string, s: string): real {
    if (c, s) in sold then sold[(c, s)] else 0.0
  }

  function DeltaOf(delta: Delta, c: string): real {
    if c in delta then delta[c] else 0.0
  }

  /** The two dictionaries accumulate exactly what the legs seen so far sell and cost. */
  ghost predicate Accumulated(sold: Sold, delta: Delta, legs: seq<Leg>) {
    && (forall c, s :: SoldOf(sold, c, s) == Taken(legs, c, s))
    && (forall c :: DeltaOf(delta, c) == SumBy(legs, CashTo(c)))
    && (forall c, s :: (c, s) in sold ==> exists l :: l in legs && l.cell == c)
    && (forall c :: c in delta ==> exists l :: l in legs && l.cell == c)
  }

  function AddSold(sold: Sold, l: Leg): Sold {
    if l.qty < 0.0 then sold[(l.cell, l.symbol) := SoldOf(sold, l.cell, l.symbol) - l.qty] else sold
  }

  function AddDelta(delta: Delta, l: Leg): Delta {
    delta[l.cell := DeltaOf(delta, l.cell) - Notional(l.qty, l.price) - l.fees]
  }

  lemma AccumulateOne(sold: Sold, delta: Delta, legs: seq<Leg>, i: nat)
    requires i < |legs| && Accumulated(sold, delta, legs[..i])
    ensures Accumulated(AddSold(sold, legs[i]), AddDelta(delta, legs[i]), legs[..i + 1])
  {
    var l := legs[i];
    assert legs[..i + 1] == legs[..i] + [l];
    forall c, s
      ensures SoldOf(AddSold(sold, l), c, s) == Taken(legs[..i + 1], c, s)
    {
      TakenOneMore(legs, i, c, s);
    }
    forall c
      ensures DeltaOf(AddDelta(delta, l), c) == SumBy(legs[..i + 1], CashTo(c))
    {
      SumPrefix(legs, i, CashTo(c));
    }
    assert l in legs[..i + 1];
  }

  method Accumulate(cells: Cells, legs: seq<Leg>) returns (known: bool, sold: Sold, delta: Delta)
    ensures known <==> Addressed(legs, BookOf(cells))
    ensures known ==> Accumulated(sold, delta, legs)
  {
    sold, delta := map[], map[];
    for i := 0 to |legs|
      invariant Addressed(legs[..i], BookOf(cells)) && Accumulated(sold, delta, legs[..i])
    {
      if legs[i].cell !in cells {
        return false, sold, delta;
      }
      AccumulateOne(sold, delta, legs, i);
      sold, delta := AddSold(sold, legs[i]), AddDelta(delta, legs[i]);
    }
    assert legs[..|legs|] == legs;
    known := true;
  }

  method CoversSales(cells: Cells, sold: Sold) returns (ok: bool)
    requires forall c, s :: (c, s) in sold ==> c in cells
    ensures ok <==> forall c, s :: (c, s) in sold ==> sold[(c, s)] <= Holding(BookOf(cells), c, s) + EPS
  {
    var keys := sold.Keys;
    while keys != {}
      invariant keys <= sold.Keys
      invariant forall c, s :: (c, s) in sold && (c, s) !in keys ==> sold[(c, s)] <= Holding(BookOf(cells), c, s) + EPS
    {
      var key :| key in keys;
      var held := cells[key.0].State().PositionQty(key.1);
      assert key == (key.0, key.1);
      if sold[key] > held + EPS {
        return false;
      }
      keys := keys - {key};
    }
    ok := true;
  }

  method CoversCash(cells: Cells, delta: Delta) returns (ok: bool)
    requires forall c :: c in delta ==> c in cells
    ensures ok <==> forall c :: c in delta ==> BookOf(cells)[c].cash + delta[c] >= -EPS
  {
    var keys := delta.Keys;
    while keys != {}
      invariant keys <= delta.Keys
      invariant forall c :: c in delta && c !in keys ==> BookOf(cells)[c].cash + delta[c] >= -EPS
    {
      var c :| c in keys;
      if cells[c].cash + delta[c] < -EPS {
        return false;
      }
      keys := keys - {c};
    }
    ok := true;
  }

  ghost predicate SalesCovered(book: Book, legs: seq<Leg>) {
    forall c, s :: c in book ==> Taken(legs, c, s) <= Holding(book, c, s) + EPS
  }

  /** The check looks only at the pairs and cells the legs mention; that is enough. */
  lemma CheckedKeysSuffice(book: Book, legs: seq<Leg>, sold: Sold, delta: Delta)
    requires SoundBook(book) && Addressed(legs, book) && Accumulated(sold, delta, legs)
    ensures SalesCovered(book, legs) <==> forall c, s :: (c, s) in sold ==> sold[(c, s)] <= Holding(book, c, s) + EPS
    ensures Validated(book, legs) <==>
              SalesCovered(book, legs) && forall c :: c in delta ==> book[c].cash + delta[c] >= -EPS
  {
    forall c, s | (c, s) in sold
      ensures c in book && sold[(c, s)] == Taken(legs, c, s)
    {
      assert SoldOf(sold, c, s) == Taken(legs, c, s);
    }
    forall c, s | c in book && (c, s) !in sold
      ensures Taken(legs, c, s) <= Holding(book, c, s) + EPS
    {
      assert SoldOf(sold, c, s) == Taken(legs, c, s);
      assert book[c].Sound();
    }
    forall c | c in delta
      ensures c in book && delta[c] == SumBy(legs, CashTo(c))
    {
      assert DeltaOf(delta, c) == SumBy(legs, CashTo(c));
    }
    forall c | c in book && c !in delta
      ensures book[c].cash + SumBy(legs, CashTo(c)) >= -EPS
    {
      assert DeltaOf(delta, c) == SumBy(legs, CashTo(c));
      assert book[c].Sound();
    }
  }

  /** Checks every leg before any of them is posted. */
  method ValidateLegs(cells: Cells, legs: seq<Leg>) returns (r: LegCheck)
    requires SoundBook(BookOf(cells))
    ensures r == UnknownLedger <==> !Addressed(legs, BookOf(cells))
    ensures r == Fine <==> Addressed(legs, BookOf(cells)) && Validated(BookOf(cells), legs)
    ensures r == WouldShort <==> Addressed(legs, BookOf(cells)) && !SalesCovered(BookOf(cells), legs)
  {
    var known, sold, delta := Accumulate(cells, legs);
    if !known {
      return UnknownLedger;
    }
    CheckedKeysSuffice(BookOf(cells), legs, sold, delta);
    var covered := CoversSales(cells, sold);
    if !covered {
      return WouldShort;
    }
    var funded := CoversCash(cells, delta);
    r := if funded then Fine else WouldOverdraw;
  }

  datatype BatchResult = Done | NotApplied(check: LegCheck) | Interrupted(error: CellError)

  /** Checks, then posts the sales and after them the purchases. */
  method ApplyBatch(cells: Cells, sales: seq<Leg>, purchases: seq<Leg>) returns (r: BatchResult)
    requires Distinct(cells) && SoundBook(BookOf(cells))
    requires forall l :: l in sales + purchases ==> l.kind == BROKER_FILL || (l.kind == INTERNAL_CROSS && l.fees == 0.0)
    modifies cells.Values
    ensures r.NotApplied? ==> BookOf(cells) == old(BookOf(cells))
    ensures r.NotApplied? <==> !(Addressed(sales + purchases, old(BookOf(cells))) && Validated(old(BookOf(cells)), sales + purchases))
    ensures !r.NotApplied? ==>
              ApplyLegs(old(BookOf(cells)), sales + purchases)
              == Applied(BookOf(cells), if r.Interrupted? then Stopped(r.error) else NoRefusal)
  {
    var legs := sales + purchases;
    var check := ValidateLegs(cells, legs);
    if check != Fine {
      return NotApplied(check);
    }
    var refusal := PostLegs(cells, legs);
    r := if refusal.Stopped? then Interrupted(refusal.error) else Done;
  }

  // ----- internal crosses -----

  function SaleLeg(c: Cross): Leg {
    Leg(INTERNAL_CROSS, c.sellCell, c.symbol, -c.qty, c.price, 0.0)
  }

  function PurchaseLeg(c: Cross): Leg {
    Leg(INTERNAL_CROSS, c.buyCell, c.symbol, c.qty, c.price, 0.0)
  }

  function SaleLegs(crosses: seq<Cross>): (legs: seq<Leg>)
    ensures |legs| == |crosses| && forall i :: 0 <= i < |legs| ==> legs[i] == SaleLeg(crosses[i])
  {
    seq(|crosses|, i requires 0 <= i < |crosses| => SaleLeg(crosses[i]))
  }

  function PurchaseLegs(crosses: seq<Cross>): (legs: seq<Leg>)
    ensures |legs| == |crosses| && forall i :: 0 <= i < |legs| ==> legs[i] == PurchaseLeg(crosses[i])
  {
    seq(|crosses|, i requires 0 <= i < |crosses| => PurchaseLeg(crosses[i]))
  }

  ghost predicate ProperCrosses(crosses: seq<Cross>) {
    forall c :: c in crosses ==> c.qty > 0.0 && c.price >= 0.0
  }

  ghost predicate WholeCrosses(crosses: seq<Cross>) {
    forall c :: c in crosses ==> Whole(c.qty)
  }

  lemma CrossLegsProper(c: Cross)
    requires c.qty > 0.0 && c.price >= 0.0
    ensures ProperSale(SaleLeg(c)) && ProperPurchase(PurchaseLeg(c))
  {
    NotionalLaws(c.qty, 0.0, c.price);
  }

  lemma AddressedParts(a: seq<Leg>, b: seq<Leg>, book: Book)
    requires Addressed(a + b, book)
    ensures Addressed(a, book) && Addressed(b, book)
  {
    forall l | l in a || l in b
      ensures l in a + b
    {
    }
  }

  lemma CrossSale(crosses: seq<Cross>, l: Leg)
    requires ProperCrosses(crosses) && l in SaleLegs(crosses)
    ensures ProperSale(l)
  {
    hide ProperSale;
    var i :| 0 <= i < |crosses| && l == SaleLegs(crosses)[i];
    assert crosses[i] in crosses;
    CrossLegsProper(crosses[i]);
  }

  lemma CrossPurchase(crosses: seq<Cross>, l: Leg)
    requires ProperCrosses(crosses) && l in PurchaseLegs(crosses)
    ensures ProperPurchase(l)
  {
    hide ProperPurchase;
    var i :| 0 <= i < |crosses| && l == PurchaseLegs(crosses)[i];
    assert crosses[i] in crosses;
    CrossLegsProper(crosses[i]);
  }

  lemma CrossesAreProper(book: Book, crosses: seq<Cross>)
    requires SoundBook(book) && ProperCrosses(crosses)
    requires Addressed(SaleLegs(crosses) + PurchaseLegs(crosses), book)
    ensures ProperBatch(book, SaleLegs(crosses), PurchaseLegs(crosses))
  {
    hide ProperSale, ProperPurchase, SoundBook, Addressed, SaleLegs, PurchaseLegs, ProperCrosses;
    AddressedParts(SaleLegs(crosses), PurchaseLegs(crosses), book);
    forall l | l in SaleLegs(crosses) { CrossSale(crosses, l); }
    forall l | l in PurchaseLegs(crosses) { CrossPurchase(crosses, l); }
  }

  lemma WholeCrossLegs(crosses: seq<Cross>)
    requires WholeCrosses(crosses)
    ensures WholeLegs(SaleLegs(crosses)) && WholeLegs(SaleLegs(crosses) + PurchaseLegs(crosses))
  {
    hide Whole;
    forall i | 0 <= i < |crosses|
      ensures Whole(-crosses[i].qty) && Whole(crosses[i].qty)
    {
      assert crosses[i] in crosses;
      WholeNegated(crosses[i].qty);
    }
  }

  /** Total virtual cash and total shares are untouched by crosses. */
  lemma {:induction false} CrossesCancel(crosses: seq<Cross>, symbol: string)
    ensures SumBy(SaleLegs(crosses), CashMoved()) + SumBy(PurchaseLegs(crosses), CashMoved()) == 0.0
    ensures SumBy(SaleLegs(crosses), SharesMoved(symbol)) + SumBy(PurchaseLegs(crosses), SharesMoved(symbol)) == 0.0
  {
    if crosses != [] {
      var n := |crosses| - 1;
      var c := crosses[n];
      CrossesCancel(crosses[..n], symbol);
      assert SaleLegs(crosses)[..n] == SaleLegs(crosses[..n]);
      assert PurchaseLegs(crosses)[..n] == PurchaseLegs(crosses[..n]);
      NotionalLaws(c.qty, 0.0, c.price);
    }
  }

  /**
   Validated whole-unit crosses are applied to every cell or to none, and leave the
   total of virtual cash and of every symbol's shares where it was.
   */
  method ApplyCrossesToCells(cells: Cells, crosses: seq<Cross>) returns (r: BatchResult)
    requires Distinct(cells) && SoundBook(BookOf(cells)) && ProperCrosses(crosses)
    modifies cells.Values
    ensures r.NotApplied? ==> BookOf(cells) == old(BookOf(cells))
    ensures !r.NotApplied? ==>
              && Addressed(SaleLegs(crosses) + PurchaseLegs(crosses), old(BookOf(cells)))
              && ApplyLegs(old(BookOf(cells)), SaleLegs(crosses) + PurchaseLegs(crosses))
                 == Applied(BookOf(cells), if r.Interrupted? then Stopped(r.error) else NoRefusal)
    ensures old(WholeBook(BookOf(cells))) && WholeCrosses(crosses) ==> !r.Interrupted?
    ensures r.Done? ==> TotalCash(BookOf(cells)) == old(TotalCash(BookOf(cells)))
    ensures r.Done? && old(WholeBook(BookOf(cells))) && WholeCrosses(crosses) ==>
              forall s :: TotalShares(BookOf(cells), s) == old(TotalShares(BookOf(cells), s))
  {
    hide ApplyLegs, Validated, TotalCash, TotalShares, SoundBook, WholeBook, WholeCrosses, ProperCrosses, Distinct;
    ghost var book := BookOf(cells);
    r := ApplyBatch(cells, SaleLegs(crosses), PurchaseLegs(crosses));
    if !r.NotApplied? && WholeBook(book) && WholeCrosses(crosses) {
      WholeCrossesPost(book, crosses);
    }
    if r.Done? {
      CrossCashTotal(book, crosses);
      if WholeBook(book) && WholeCrosses(crosses) {
        WholeCrossLegs(crosses);
        forall s { CrossShareTotal(book, crosses, s); }
      }
    }
  }

  lemma WholeCrossesPost(book: Book, crosses: seq<Cross>)
    requires SoundBook(book) && ProperCrosses(crosses) && WholeBook(book)
    requires WholeCrosses(crosses)
    requires Addressed(SaleLegs(crosses) + PurchaseLegs(crosses), book)
    ensures ApplyLegs(book, SaleLegs(crosses) + PurchaseLegs(crosses)).refusal == NoRefusal
       <==> Validated(book, SaleLegs(crosses) + PurchaseLegs(crosses))
  {
    hide *;
    CrossesAreProper(book, crosses);
    WholeCrossLegs(crosses);
    WholeBatchPostsIffValidated(book, SaleLegs(crosses), PurchaseLegs(crosses));
  }

  lemma CrossCashTotal(book: Book, crosses: seq<Cross>)
    requires SoundBook(book) && Addressed(SaleLegs(crosses) + PurchaseLegs(crosses), book)
    requires ApplyLegs(book, SaleLegs(crosses) + PurchaseLegs(crosses)).refusal == NoRefusal
    ensures TotalCash(ApplyLegs(book, SaleLegs(crosses) + PurchaseLegs(crosses)).book) == TotalCash(book)
  {
    LegsMoveTotalCash(book, SaleLegs(crosses) + PurchaseLegs(crosses));
    SumAppend(SaleLegs(crosses), PurchaseLegs(crosses), CashMoved());
    CrossesCancel(crosses, "");
  }

  lemma CrossShareTotal(book: Book, crosses: seq<Cross>, s: string)
    requires SoundBook(book) && WholeBook(book)
    requires Addressed(SaleLegs(crosses) + PurchaseLegs(crosses), book) && WholeLegs(SaleLegs(crosses) + PurchaseLegs(crosses))
    requires ApplyLegs(book, SaleLegs(crosses) + PurchaseLegs(crosses)).refusal == NoRefusal
    ensures TotalShares(ApplyLegs(book, SaleLegs(crosses) + PurchaseLegs(crosses)).book, s) == TotalShares(book, s)
  {
    LegsMoveTotalShares(book, SaleLegs(crosses) + PurchaseLegs(crosses), s);
    SumAppend(SaleLegs(crosses), PurchaseLegs(crosses), SharesMoved(s));
    CrossesCancel(crosses, s);
  }

  // ----- below the dust tolerance -----

  /** Cell A holds `held` shares; cell B can pay for them, and a tolerance more, at 10.00. */
  function DustBook(held: real): Book {
    map["A" := CellState(0.0, map["X" := Lot(held, 10.0)], 0.0, []),
        "B" := CellState(10.0 * (held + EPS), map[], 0.0, [])]
  }

  function DustCrosses(held: real): seq<Cross> {
    [Cross("X", "B", "A", held - 0.5 * EPS, 10.0), Cross("X", "B", "A", 1.2 * EPS, 10.0)]
  }

  function DustBatch(held: real): seq<Leg> {
    SaleLegs(DustCrosses(held)) + PurchaseLegs(DustCrosses(held))
  }

  /**
   Below the dust tolerance the claim that nothing can raise after validation is false
   for every holding: these two crosses, each for more than the tolerance, pass the check,
   the first sale is posted and closes the seller's position, and the second is refused.
   */
  lemma DustInterruptsValidatedCrosses(held: real)
    requires held > 2.0 * EPS
    ensures var book, legs := DustBook(held), DustBatch(held);
            && SoundBook(book) && ProperCrosses(DustCrosses(held)) && Addressed(legs, book)
            && Validated(book, legs)
            && ApplyLegs(book, legs[..1]).refusal == NoRefusal
            && ApplyLegs(book, legs).refusal.Stopped?
  {
    hide *;
    DustLegs(held);
    DustValidated(held);
    DustFirst(held);
    DustStops(held);
  }

  /** The first sale goes through. */
  lemma DustFirst(held: real)
    requires held > 2.0 * EPS && SoundBook(DustBook(held)) && Addressed(DustBatch(held), DustBook(held)) && |DustBatch(held)| == 4
    ensures ApplyLegs(DustBook(held), DustBatch(held)[..1]).refusal == NoRefusal
  {
    DustSale(held);
    DustLegs(held);
    FirstLeg(DustBook(held), DustBatch(held));
  }

  /** The second sale finds its position closed. */
  lemma DustStops(held: real)
    requires held > 2.0 * EPS && SoundBook(DustBook(held)) && ProperCrosses(DustCrosses(held))
    requires Addressed(DustBatch(held), DustBook(held))
    ensures ApplyLegs(DustBook(held), DustBatch(held)).refusal.Stopped?
  {
    hide ApplyLegs, Validated, ProperBatch, ProperSale, ProperPurchase;
    var book, sales, purchases := DustBook(held), SaleLegs(DustCrosses(held)), PurchaseLegs(DustCrosses(held));
    CrossesAreProper(book, DustCrosses(held));
    PostsIff(book, sales, purchases);
    DustClosed(held);
  }

  lemma DustClosed(held: real)
    requires held > 2.0 * EPS
    ensures !StillOpen(DustBook(held), SaleLegs(DustCrosses(held)), 1)
  {
    var sales := SaleLegs(DustCrosses(held));
    assert sales[..1] == [] + [sales[0]];
    SumSnoc([], sales[0], TakenFrom("A", "X"));
    assert Taken(sales[..1], "A", "X") == held - 0.5 * EPS;
  }

  lemma DustLegs(held: real)
    requires held > 2.0 * EPS
    ensures var book, legs := DustBook(held), DustBatch(held);
            && SoundBook(book) && ProperCrosses(DustCrosses(held)) && Addressed(legs, book) && |legs| == 4
            && legs[0] == Leg(INTERNAL_CROSS, "A", "X", -(held - 0.5 * EPS), 10.0, 0.0)
            && legs[1] == Leg(INTERNAL_CROSS, "A", "X", -1.2 * EPS, 10.0, 0.0)
            && legs[2] == Leg(INTERNAL_CROSS, "B", "X", held - 0.5 * EPS, 10.0, 0.0)
            && legs[3] == Leg(INTERNAL_CROSS, "B", "X", 1.2 * EPS, 10.0, 0.0)
  {
  }

  lemma DustValidated(held: real)
    requires held > 2.0 * EPS
    ensures Validated(DustBook(held), DustBatch(held))
  {
    DustLegs(held);
    FourLegs(DustBatch(held));
  }

  lemma DustSale(held: real)
    requires held > 2.0 * EPS
    ensures ApplyFill(DustBook(held)["A"], INTERNAL_CROSS, "X", -(held - 0.5 * EPS), 10.0, 0.0).Posted?
  {
  }

  lemma FirstLeg(book: Book, legs: seq<Leg>)
    requires SoundBook(book) && Addressed(legs, book) && legs != []
    ensures ApplyLegs(book, legs[..1]) == ApplyLeg(book, legs[0])
  {
    assert legs[..0] == [];
    OneMoreLeg(book, legs, 0);
  }

  lemma FourLegs(legs: seq<Leg>)
    requires |legs| == 4
    ensures forall c, s :: Taken(legs, c, s)
              == TakenFrom(c, s)(legs[0]) + TakenFrom(c, s)(legs[1]) + TakenFrom(c, s)(legs[2]) + TakenFrom(c, s)(legs[3])
    ensures forall c :: SumBy(legs, CashTo(c)) == CashTo(c)(legs[0]) + CashTo(c)(legs[1]) + CashTo(c)(legs[2]) + CashTo(c)(legs[3])
  {
    forall f: Leg -> real
      ensures SumBy(legs, f) == f(legs[0]) + f(legs[1]) + f(legs[2]) + f(legs[3])
    {
      assert legs[..0] == [] && legs[..4] == legs;
      SumPrefix(legs, 0, f);
      SumPrefix(legs, 1, f);
      SumPrefix(legs, 2, f);
      SumPrefix(legs, 3, f);
    }
  }
}
