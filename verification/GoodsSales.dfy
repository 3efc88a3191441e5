/** The goods engine's record of its sales: totals per tick, last prices, and units sold in the retention window. */
module GoodsSales {
  import opened Wrappers
  import opened MapSum
  import opened Prices

  function SoldUnits(sold: Totals, inventory: string): map<int, int> {
    map t | t in sold :: Get(sold[t], inventory)
  }

  /** Every inventory's running count is the sum of what is still retained. */
  ghost predicate UnitsAgree(sold: Totals, units: map<string, int>) {
    && (forall id :: id in units ==> units[id] == Sum(SoldUnits(sold, id)))
    && (forall t, id :: t in sold && id in sold[t] ==> 0 <= sold[t][id])
  }

  lemma {:induction false} SoldAdded(sold: Totals, tick: int, id: string, amount: int, other: string)
    ensures Sum(SoldUnits(Added(sold, tick, id, amount), other)) == Sum(SoldUnits(sold, other)) + if other == id
        then amount else 0
  {
    var more := Added(sold, tick, id, amount);
    assert SoldUnits(more, other) == SoldUnits(sold, other)[tick := Get(more[tick], other)];
    SumUpdate(SoldUnits(sold, other), tick, Get(more[tick], other));
  }

  lemma {:induction false} SoldDropped(sold: Totals, tick: int, id: string)
    requires tick in sold
    ensures Sum(SoldUnits(sold - {tick}, id)) == Sum(SoldUnits(sold, id)) - Get(sold[tick], id)
  {
    SumPick(SoldUnits(sold, id), tick);
    assert SoldUnits(sold, id) - {tick} == SoldUnits(sold - {tick}, id);
  }

  lemma {:induction false} SoldNonNegative(sold: Totals, id: string)
    requires forall t, id :: t in sold && id in sold[t] ==> 0 <= sold[t][id]
    ensures 0 <= Sum(SoldUnits(sold, id))
  {
    forall t | t in SoldUnits(sold, id) ensures 0 <= SoldUnits(sold, id)[t] {
      assert id in sold[t] ==> 0 <= sold[t][id];
    }
    SumNonNegative(SoldUnits(sold, id));
  }

  /** Recording the average of the tick so far keeps the last prices right. */
  lemma {:induction false} LastAfterSale(sales: seq<Sale>, last: map<string, int>, now: int, s: Sale)
    requires WellFormed(sales) && WellFormed(sales + [s]) && LastAgree(sales, last, now) && now <= s.tick
    requires forall i :: 0 <= i < |sales| ==> sales[i].tick <= now
    ensures 0 < QtyIn(sales + [s], s.sku, s.tick - 1, s.tick)
    ensures LastAgree(sales + [s],
                      last[s.sku := ValueIn(sales + [s], s.sku, s.tick - 1, s.tick) / QtyIn(sales + [s], s.sku,
                          s.tick - 1, s.tick)], s.tick)
  {
    var more := sales + [s];
    assert more[..|sales|] == sales && InWindow(more[|sales|], s.sku, s.tick - 1, s.tick);
    QtyPositive(more, s.sku, s.tick - 1, s.tick);
    var after := last[s.sku := ValueIn(more, s.sku, s.tick - 1, s.tick) / QtyIn(more, s.sku, s.tick - 1, s.tick)];
    forall sku ensures LastOf(more, after, s.tick, sku) {
      LatestSettled(sales, sku, now, s.tick);
      LatestIsSale(sales, sku, s.tick);
      assert LastOf(sales, last, now, sku);
    }
  }

  class SalesBook {
    /** How long price totals are kept, and how long unit counts are. */
    const priceTicks: nat
    const soldTicks: nat
    var sales: seq<Sale>
    var qty: Totals
    var value: Totals
    var last: map<string, int>
    var sold: Totals
    var units: map<string, int>
    ghost var now: int
    ghost var expired: int

    ghost predicate Valid()
      reads this
    {
      && 0 < priceTicks && expired <= now - priceTicks
      && WellFormed(sales) && (forall i :: 0 <= i < |sales| ==> sales[i].tick <= now)
      && TotalsAgree(sales, qty, value, expired)
      && LastAgree(sales, last, now)
      && UnitsAgree(sold, units)
    }

    constructor (priceTicks: nat, soldTicks: nat, inventories: set<string>, start: int)
      requires 0 < priceTicks
      ensures Valid() && now == start && sales == [] && this.priceTicks == priceTicks && this.soldTicks == soldTicks
      ensures units == map id | id in inventories :: 0
    {
      this.priceTicks, this.soldTicks := priceTicks, soldTicks;
      sales, qty, value, last, sold, units := [], map[], map[], map[], map[], map id | id in inventories :: 0;
      now, expired := start, start - priceTicks;
      new;
      NothingSold(inventories, expired);
    }

    /** Books a sale. */
    method Record(s: Sale)
      requires Valid() && now <= s.tick && 0 < s.qty && 0 < s.unitPrice && s.inventory in units
      modifies this
      ensures Valid() && sales == old(sales) + [s] && now == s.tick
      ensures units == old(units)[s.inventory := old(units)[s.inventory] + s.qty]
    {
      hide Sum, Window, LastAgree, TotalsAgree, UnitsAgree, WellFormed, QtyIn, ValueIn;
      ghost var more := sales + [s];
      SaleFits(sales, now, s);
      SaleAgrees(sales, qty, value, expired, s);
      LastAfterSale(sales, last, now, s);
      UnitsAfterSale(sold, units, s);
      sold := Added(sold, s.tick, s.inventory, s.qty);
      units := units[s.inventory := units[s.inventory] + s.qty];
      qty := Added(qty, s.tick, s.sku, s.qty);
      value := Added(value, s.tick, s.sku, s.unitPrice * s.qty);
      sales := sales + [s];
      ThisTick(sales, qty, value, expired, s.tick, s.sku);
      last := last[s.sku := value[s.tick][s.sku] / qty[s.tick][s.sku]];
      now := s.tick;
    }

    /** Drops what has left the windows. The running counts are never clamped. */
    method Expire(tick: int)
      requires Valid() && now <= tick
      modifies this
      ensures Valid() && sales == old(sales) && now == tick
      ensures sold == Kept(old(sold), tick - soldTicks) && units.Keys == old(units).Keys
    {
      hide Sum, Window, LastOf, QtyIn, ValueIn;
      ghost var sold0, cutoff := sold, tick - soldTicks;
      var rest := set t | t in sold && t <= tick - soldTicks;
      while rest != {}
        invariant rest == set t | t in sold && t <= cutoff
        invariant Kept(sold, cutoff) == Kept(sold0, cutoff)
        invariant UnitsAgree(sold, units) && units.Keys == old(units).Keys
        invariant sales == old(sales) && qty == old(qty) && value == old(value) && last == old(last) && now == old(now)
        invariant expired == old(expired)
        decreases |rest|
      {
        var t :| t in rest;
        ExpireTick(t);
        rest := rest - {t};
      }
      forall t | t in sold ensures cutoff < t {
        assert t <= cutoff ==> t in rest;
      }
      assert Kept(sold, cutoff) == sold;
      ExpiryAgrees(sales, qty, value, expired, tick - priceTicks);
      LastLater(sales, last, now, tick);
      qty := Kept(qty, tick - priceTicks);
      value := Kept(value, tick - priceTicks);
      now, expired := tick, tick - priceTicks;
    }

    method ExpireTick(t: int)
      requires t in sold && UnitsAgree(sold, units)
      modifies this`sold, this`units
      ensures sold == old(sold) - {t} && UnitsAgree(sold, units) && units.Keys == old(units).Keys
    {
      hide Sum;
      var row := sold[t];
      sold := sold - {t};
      var rest := row.Keys;
      while rest != {}
        invariant sold == old(sold) - {t} && units.Keys == old(units).Keys && rest <= row.Keys
        invariant forall id ::
          id in units ==> units[id] == old(units)[id] - if id in row && id !in rest then row[id] else 0
      {
        var id :| id in rest;
        if id in units {
          StillCovered(old(sold), t, id);
          assert row[id] <= units[id];
          units := units[id := if units[id] < row[id] then 0 else units[id] - row[id]];
        }
        rest := rest - {id};
      }
      UnitsAfterExpiry(old(sold), t, old(units), units);
    }

    /** The price by the totals kept: for any query not before the last event, within the time they are kept, it is what
        the full scan gives. */
    method PriceNow(sku: string, tick: int, window: int, basePrice: int) returns (p: Price)
      requires Valid() && now <= tick && window <= priceTicks
      ensures p == FullPrice(sales, sku, tick, window, basePrice)
    {
      hide Sum, Window, TotalsAgree;
      if qty == map[] && last == map[] { return FullPrice(sales, sku, tick, window, basePrice); }
      WindowAgrees(sales, qty, value, expired, sku, tick - window, tick);
      LastLater(sales, last, now, tick);
      assert LastOf(sales, last, tick, sku);
      var total := SumValues(Window(qty, sku, tick - window, tick));
      if total != 0 {
        var worth := SumValues(Window(value, sku, tick - window, tick));
        return Price(worth / total, false);
      }
      return Price(if sku in last then last[sku] else basePrice, true);
    }
  }

  lemma {:induction false} NothingSold(inventories: set<string>, expired: int)
    ensures UnitsAgree(map[], map id | id in inventories :: 0) && TotalsAgree([], map[], map[], expired)
  {
    forall id | id in inventories ensures Sum(SoldUnits(map[], id)) == 0 {
      SumZero(SoldUnits(map[], id));
    }
    forall sku, after, upTo ensures Sum(Window(map[], sku, after, upTo)) == 0 {
      SumZero(Window(map[], sku, after, upTo));
    }
  }

  lemma {:induction false} WindowAgrees(sales: seq<Sale>, qty: Totals, value: Totals, expired: int, sku: string,
                                        after: int, upTo: int)
    requires TotalsAgree(sales, qty, value, expired) && expired <= after
    ensures Sum(Window(qty, sku, after, upTo)) == QtyIn(sales, sku, after, upTo)
    ensures Sum(Window(value, sku, after, upTo)) == ValueIn(sales, sku, after, upTo)
  {
  }

  lemma {:induction false} SaleFits(sales: seq<Sale>, now: int, s: Sale)
    requires WellFormed(sales) && now <= s.tick && 0 < s.qty && 0 < s.unitPrice
    requires forall i :: 0 <= i < |sales| ==> sales[i].tick <= now
    ensures WellFormed(sales + [s]) && forall i :: 0 <= i < |sales + [s]| ==> (sales + [s])[i].tick <= s.tick
  {
  }

  /** The row of the tick just sold at holds that tick's totals. */
  lemma {:induction false} ThisTick(sales: seq<Sale>, qty: Totals, value: Totals, expired: int, tick: int, sku: string)
    requires TotalsAgree(sales, qty, value, expired) && expired < tick && tick in qty && sku in qty[tick]
    requires tick in value && sku in value[tick]
    ensures qty[tick][sku] == QtyIn(sales, sku, tick - 1, tick)
    ensures value[tick][sku] == ValueIn(sales, sku, tick - 1, tick)
  {
    WindowAgrees(sales, qty, value, expired, sku, tick - 1, tick);
    OneTick(qty, tick, sku);
    OneTick(value, tick, sku);
  }

  lemma {:induction false} LastLater(sales: seq<Sale>, last: map<string, int>, now: int, later: int)
    requires WellFormed(sales) && LastAgree(sales, last, now) && now <= later
    requires forall i :: 0 <= i < |sales| ==> sales[i].tick <= now
    ensures LastAgree(sales, last, later)
  {
    forall sku ensures LastOf(sales, last, later, sku) {
      LatestSettled(sales, sku, now, later);
      assert LastOf(sales, last, now, sku);
    }
  }

  lemma {:induction false} UnitsAfterSale(sold: Totals, units: map<string, int>, s: Sale)
    requires UnitsAgree(sold, units) && s.inventory in units && 0 < s.qty
    ensures UnitsAgree(Added(sold, s.tick, s.inventory, s.qty), units[s.inventory := units[s.inventory] + s.qty])
  {
    forall id | id in units ensures Sum(SoldUnits(Added(sold, s.tick, s.inventory, s.qty), id))
        == Sum(SoldUnits(sold, id)) + if id == s.inventory then s.qty else 0 {
      SoldAdded(sold, s.tick, s.inventory, s.qty, id);
    }
    hide Sum, SoldUnits;
  }

  /** No row is larger than the count it is part of. */
  lemma {:induction false} StillCovered(sold: Totals, tick: int, id: string)
    requires tick in sold && forall t, id :: t in sold && id in sold[t] ==> 0 <= sold[t][id]
    ensures Get(sold[tick], id) <= Sum(SoldUnits(sold, id))
  {
    SoldDropped(sold, tick, id);
    SoldNonNegative(sold - {tick}, id);
  }

  lemma {:induction false} UnitsAfterExpiry(sold: Totals, tick: int, units: map<string, int>, units': map<string, int>)
    requires UnitsAgree(sold, units) && tick in sold && units'.Keys == units.Keys
    requires forall id :: id in units ==> units'[id] == units[id] - Get(sold[tick], id)
    ensures UnitsAgree(sold - {tick}, units')
  {
    forall id | id in units' ensures units'[id] == Sum(SoldUnits(sold - {tick}, id)) {
      SoldDropped(sold, tick, id);
    }
    hide Sum, SoldUnits;
  }
}
