/** A holding at average cost, as the cell ledgers and the master ledger both keep it. */
module Lots {
  import opened Numeric
  import opened Sums

  datatype Lot = Lot(qty: real, avgCost: real)

  /** The average cost after buying `qty` at `price` on top of `held` at `cost`. */
  function BlendedCost(held: real, cost: real, qty: real, price: real): real
    requires held + qty != 0.0
  {
    (Notional(held, cost) + Notional(qty, price)) / (held + qty)
  }

  /** Blending neither makes nor loses cost. */
  lemma BlendedCostTimesQty(held: real, cost: real, qty: real, price: real)
    requires held >= 0.0 && qty > 0.0
    ensures Notional(held + qty, BlendedCost(held, cost, qty, price)) == Notional(held, cost) + Notional(qty, price)
  {
    var total, all := Notional(held, cost) + Notional(qty, price), held + qty;
    assert all * (total / all) == total;
  }

  // ----- lots at cost -----

  lemma ProfitOnCost(qty: real, price: real, cost: real)
    ensures Notional(-qty, price - cost) == -Notional(qty, price) + Notional(qty, cost)
  {
  }

  ghost function CostOf(lot: Lot): real {
    Notional(lot.qty, lot.avgCost)
  }

  ghost function Costs(positions: map<string, Lot>): map<string, real> {
    map s | s in positions :: CostOf(positions[s])
  }

  /** The lots at cost. */
  ghost function BookValue(positions: map<string, Lot>): real {
    Total(Costs(positions))
  }

  /** A purchase adds what it costs. */
  lemma BuyingAddsCost(positions: map<string, Lot>, symbol: string, qty: real, price: real)
    requires qty > 0.0 && (symbol in positions ==> positions[symbol].qty > 0.0)
    ensures var lot := if symbol in positions then positions[symbol] else Lot(0.0, 0.0);
            BookValue(positions[symbol := Lot(lot.qty + qty, BlendedCost(lot.qty, lot.avgCost, qty, price))])
            == BookValue(positions) + Notional(qty, price)
  {
    var lot := if symbol in positions then positions[symbol] else Lot(0.0, 0.0);
    var after := positions[symbol := Lot(lot.qty + qty, BlendedCost(lot.qty, lot.avgCost, qty, price))];
    BlendedCostTimesQty(lot.qty, lot.avgCost, qty, price);
    TotalUpdate(Costs(positions), symbol, CostOf(after[symbol]));
    assert Costs(after) == Costs(positions)[symbol := CostOf(after[symbol])];
  }

  /** A sale (`qty` negative) takes out the shares sold at their average cost; closing a lot takes out all of it. */
  lemma SellingTakesCost(positions: map<string, Lot>, symbol: string, qty: real)
    requires symbol in positions
    ensures var lot := positions[symbol];
      && BookValue(positions[symbol := Lot(lot.qty + qty, lot.avgCost)]) == BookValue(positions) + Notional(qty, lot.avgCost)
      && BookValue(positions - {symbol})
         == BookValue(positions) + Notional(qty, lot.avgCost) - Notional(lot.qty + qty, lot.avgCost)
  {
    var lot := positions[symbol];
    var after := positions[symbol := Lot(lot.qty + qty, lot.avgCost)];
    NotionalLaws(lot.qty, qty, lot.avgCost);
    TotalPick(Costs(positions), symbol);
    TotalUpdate(Costs(positions), symbol, CostOf(after[symbol]));
    assert Costs(after) == Costs(positions)[symbol := CostOf(after[symbol])];
    assert Costs(positions - {symbol}) == Costs(positions) - {symbol};
  }
}
