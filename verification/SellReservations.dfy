/** Shares already claimed by protective exits in flight (services/capital_cells/stops.py). */
module SellReservations {
  import opened Numeric
  import opened Sums

  /** So many shares of a symbol, claimed on behalf of one cell. */
  datatype Reservation = Reservation(cell: string, symbol: string, qty: real)

  datatype Claims = Claims(master: map<string, real>, open: map<string, Reservation>) {
    function MasterQty(symbol: string): real {
      if symbol in master then master[symbol] else 0.0
    }

    ghost predicate Positive() {
      forall id :: id in open ==> open[id].qty > 0.0
    }
  }

  function ClaimOn(symbol: string): Reservation -> real {
    (r: Reservation) => if r.symbol == symbol then r.qty else 0.0
  }

  function ClaimBy(cell: string, symbol: string): Reservation -> real {
    (r: Reservation) => if r.cell == cell && r.symbol == symbol then r.qty else 0.0
  }

  ghost function Amounts(open: map<string, Reservation>, f: Reservation -> real): map<string, real> {
    map id | id in open :: f(open[id])
  }

  ghost function SumOpen(open: map<string, Reservation>, f: Reservation -> real): real {
    Total(Amounts(open, f))
  }

  ghost function Reserved(open: map<string, Reservation>, symbol: string): real {
    SumOpen(open, ClaimOn(symbol))
  }

  ghost function ReservedBy(open: map<string, Reservation>, cell: string, symbol: string): real {
    SumOpen(open, ClaimBy(cell, symbol))
  }

  lemma SumOpenAdd(open: map<string, Reservation>, id: string, r: Reservation, f: Reservation -> real)
    requires id !in open
    ensures SumOpen(open[id := r], f) == SumOpen(open, f) + f(r)
  {
    TotalUpdate(Amounts(open, f), id, f(r));
    assert Amounts(open[id := r], f) == Amounts(open, f)[id := f(r)];
  }

  lemma SumOpenRemove(open: map<string, Reservation>, id: string, f: Reservation -> real)
    requires id in open
    ensures SumOpen(open - {id}, f) == SumOpen(open, f) - f(open[id])
  {
    TotalPick(Amounts(open, f), id);
    assert Amounts(open - {id}, f) == Amounts(open, f) - {id};
  }

  lemma SumOpenNonNegative(open: map<string, Reservation>, f: Reservation -> real)
    requires forall id :: id in open ==> f(open[id]) >= 0.0
    ensures SumOpen(open, f) >= 0.0
  {
    TotalNonNegative(Amounts(open, f));
  }

  /** What may still be claimed of a symbol. */
  ghost function Available(c: Claims, symbol: string): real {
    Max(0.0, c.MasterQty(symbol) - Reserved(c.open, symbol))
  }

  ghost predicate CanReserve(c: Claims, symbol: string, qty: real) {
    qty <= Available(c, symbol) + EPS
  }

  datatype Claim = Granted(claims: Claims) | NotPositive | DuplicateReservation | Oversell

  ghost function Reserve(c: Claims, id: string, r: Reservation): Claim {
    if r.qty <= 0.0 then NotPositive
    else if id in c.open then DuplicateReservation
    else if !CanReserve(c, r.symbol, r.qty) then Oversell
    else Granted(c.(open := c.open[id := r]))
  }

  // ----- the mutable ledger -----

  class SellReservationLedger {
    var masterLongQty: map<string, real>
    var reservations: map<string, Reservation>

    ghost function State(): Claims
      reads this
    {
      Claims(masterLongQty, reservations)
    }

    constructor ()
      ensures State() == Claims(map[], map[])
    {
      masterLongQty, reservations := map[], map[];
    }

    method SyncMasterLongQty(symbol: string, qty: real)
      modifies this
      ensures State() == old(State()).(master := old(masterLongQty)[symbol := qty])
    {
      masterLongQty := masterLongQty[symbol := qty];
    }

    method SumClaims(f: Reservation -> real) returns (total: real)
      ensures total == SumOpen(reservations, f)
    {
      total := 0.0;
      var rest := reservations;
      assert Amounts(map[], f) == map[];
      while rest != map[]
        invariant total + SumOpen(rest, f) == SumOpen(reservations, f)
        decreases |rest|
      {
        var id :| id in rest;
        SumOpenRemove(rest, id, f);
        CardinalityMinus(rest, id);
        total := total + f(rest[id]);
        rest := rest - {id};
      }
    }

    method AvailableToReserve(symbol: string) returns (qty: real)
      ensures qty == Available(State(), symbol)
      ensures qty >= 0.0
    {
      var masterQty := if symbol in masterLongQty then masterLongQty[symbol] else 0.0;
      var taken := SumClaims(ClaimOn(symbol));
      qty := Max(0.0, masterQty - taken);
    }

    method CheckCanReserve(symbol: string, qty: real) returns (ok: bool)
      ensures ok <==> CanReserve(State(), symbol, qty)
    {
      var available := AvailableToReserve(symbol);
      ok := qty <= available + EPS;
    }

    method ReserveSell(id: string, r: Reservation) returns (claim: Claim)
      modifies this
      ensures claim == Reserve(old(State()), id, r)
      ensures State() == if claim.Granted? then claim.claims else old(State())
    {
      if r.qty <= 0.0 {
        return NotPositive;
      }
      if id in reservations {
        return DuplicateReservation;
      }
      var ok := CheckCanReserve(r.symbol, r.qty);
      if !ok {
        return Oversell;
      }
      reservations := reservations[id := r];
      claim := Granted(Claims(masterLongQty, reservations));
    }

    method Release(id: string) returns (known: bool)
      modifies this
      ensures known <==> id in old(reservations)
      ensures State() == if known then old(State()).(open := old(reservations) - {id}) else old(State())
    {
      if id !in reservations {
        return false;
      }
      reservations := reservations - {id};
      known := true;
    }
  }
}
