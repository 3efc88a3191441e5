/** Transaction prices: the totals kept per tick, and the full scan of every sale they stand in for. */
module Prices {
  import opened Wrappers
  import opened MapSum

  datatype Sale = Sale(tick: int, inventory: string, sku: string, qty: int, unitPrice: int)

  type Totals = map<int, map<string, int>>

  function Get(row: map<string, int>, key: string): int {
    if key in row then row[key] else 0
  }

  // ---- The full scan ----

  predicate InWindow(s: Sale, sku: string, after: int, upTo: int) {
    s.sku == sku && after < s.tick <= upTo
  }

  function QtyIn(sales: seq<Sale>, sku: string, after: int, upTo: int): int {
    if sales == [] then 0
    else
      var last := sales[|sales| - 1];
      QtyIn(sales[..|sales| - 1], sku, after, upTo) + if InWindow(last, sku, after, upTo) then last.qty else 0
  }

  function ValueIn(sales: seq<Sale>, sku: string, after: int, upTo: int): int {
    if sales == [] then 0
    else
      var last := sales[|sales| - 1];
      ValueIn(sales[..|sales| - 1], sku, after, upTo) + if InWindow(last, sku, after, upTo)
          then last.unitPrice * last.qty else 0
  }

  /** The latest tick, up to a given one, at which the good was sold. */
  function LatestTick(sales: seq<Sale>, sku: string, upTo: int): Option<int> {
    if sales == [] then None
    else
      var last, before := sales[|sales| - 1], LatestTick(sales[..|sales| - 1], sku, upTo);
      if last.sku == sku && last.tick <= upTo && (before == None || before.value < last.tick) then Some(last.tick)
          else before
  }

  datatype Price = Price(cents: int, carried: bool)

  predicate WellFormed(sales: seq<Sale>) {
    && (forall i :: 0 <= i < |sales| ==> 0 < sales[i].qty && 0 < sales[i].unitPrice)
    && (forall i, j :: 0 <= i < j < |sales| ==> sales[i].tick <= sales[j].tick)
  }

  lemma {:induction false} QtyPositive(sales: seq<Sale>, sku: string, after: int, upTo: int)
    requires WellFormed(sales)
    ensures 0 <= QtyIn(sales, sku, after, upTo)
    ensures (exists i :: 0 <= i < |sales| && InWindow(sales[i], sku, after, upTo)) ==>
      0 < QtyIn(sales, sku, after, upTo)
  {
    if sales != [] {
      QtyPositive(sales[..|sales| - 1], sku, after, upTo);
    }
  }

  lemma {:induction false} LatestIsSale(sales: seq<Sale>, sku: string, upTo: int)
    requires WellFormed(sales)
    ensures LatestTick(sales, sku, upTo).Some? ==>
      var t := LatestTick(sales, sku, upTo).value; t <= upTo && 0 < QtyIn(sales, sku, t - 1, t)
    ensures forall i :: 0 <= i < |sales| && sales[i].sku == sku && sales[i].tick <= upTo ==>
      LatestTick(sales, sku, upTo).Some? && sales[i].tick <= LatestTick(sales, sku, upTo).value
  {
    if sales != [] {
      var init := sales[..|sales| - 1];
      LatestIsSale(init, sku, upTo);
      if LatestTick(sales, sku, upTo).Some? {
        var t := LatestTick(sales, sku, upTo).value;
        QtyPositive(init, sku, t - 1, t);
      }
    }
  }

  /** The price by scanning every sale: the average in the window, else the average at the last tick of sale, else the
      base price. */
  function FullPrice(sales: seq<Sale>, sku: string, tick: int, window: int, basePrice: int): Price
    requires WellFormed(sales)
  {
    LatestIsSale(sales, sku, tick);
    var qty := QtyIn(sales, sku, tick - window, tick);
    if qty != 0 then Price(ValueIn(sales, sku, tick - window, tick) / qty, false)
    else
      match LatestTick(sales, sku, tick)
      case Some(t) => Price(ValueIn(sales, sku, t - 1, t) / QtyIn(sales, sku, t - 1, t), true)
      case None => Price(basePrice, true)
  }

  // ---- The totals per tick ----

  function Window(totals: Totals, sku: string, after: int, upTo: int): map<int, int> {
    map t | t in totals && after < t <= upTo :: Get(totals[t], sku)
  }

  function Added(totals: Totals, tick: int, key: string, amount: int): Totals {
    var row := if tick in totals then totals[tick] else map[];
    totals[tick := row[key := Get(row, key) + amount]]
  }

  lemma {:induction false} AddedWindow(totals: Totals, tick: int, key: string, amount: int, sku: string, after: int,
                                       upTo: int)
    ensures Sum(Window(Added(totals, tick, key, amount), sku, after, upTo))
         == Sum(Window(totals, sku, after, upTo)) + if sku == key && after < tick <= upTo then amount else 0
  {
    var more := Added(totals, tick, key, amount);
    if after < tick <= upTo {
      assert Window(more, sku, after, upTo) == Window(totals, sku, after, upTo)[tick := Get(more[tick], sku)];
      SumUpdate(Window(totals, sku, after, upTo), tick, Get(more[tick], sku));
    } else {
      assert Window(more, sku, after, upTo) == Window(totals, sku, after, upTo);
    }
  }

  function Kept(totals: Totals, cutoff: int): Totals {
    map t | t in totals && cutoff < t :: totals[t]
  }

  lemma {:induction false} KeptWindow(totals: Totals, cutoff: int, sku: string, after: int, upTo: int)
    requires cutoff <= after
    ensures Window(Kept(totals, cutoff), sku, after, upTo) == Window(totals, sku, after, upTo)
  {
  }

  /** A window of one tick is that tick's row. */
  lemma {:induction false} OneTick(totals: Totals, tick: int, sku: string)
    ensures Sum(Window(totals, sku, tick - 1, tick)) == if tick in totals then Get(totals[tick], sku) else 0
  {
    var one := Window(totals, sku, tick - 1, tick);
    if tick in totals {
      SumPick(one, tick);
      SumZero(one - {tick});
    } else {
      SumZero(one);
    }
  }

  /** The totals say, for every window that begins where they have not been cut off, what scanning the sales would say.
      */
  ghost predicate TotalsAgree(sales: seq<Sale>, qty: Totals, value: Totals, expired: int) {
    && (forall sku, after, upTo :: expired <= after ==>
        Sum(Window(qty, sku, after, upTo)) == QtyIn(sales, sku, after, upTo))
    && (forall sku, after, upTo :: expired <= after ==>
        Sum(Window(value, sku, after, upTo)) == ValueIn(sales, sku, after, upTo))
  }

  /** The last price on record is the average at the last tick of sale. */
  ghost predicate LastOf(sales: seq<Sale>, last: map<string, int>, now: int, sku: string)
    requires WellFormed(sales)
  {
    match LatestTick(sales, sku, now)
    case None => sku !in last
    case Some(t) => (LatestIsSale(sales, sku, now); sku in last
                     && last[sku] == ValueIn(sales, sku, t - 1, t) / QtyIn(sales, sku, t - 1, t))
  }

  ghost predicate LastAgree(sales: seq<Sale>, last: map<string, int>, now: int)
    requires WellFormed(sales)
  {
    forall sku :: LastOf(sales, last, now, sku)
  }

  lemma {:induction false} SaleAgrees(sales: seq<Sale>, qty: Totals, value: Totals, expired: int, s: Sale)
    requires TotalsAgree(sales, qty, value, expired)
    ensures TotalsAgree(sales + [s], Added(qty, s.tick, s.sku, s.qty), Added(value, s.tick, s.sku, s.unitPrice * s.qty),
                        expired)
  {
    hide Sum, Window;
    var more := sales + [s];
    assert more[..|sales|] == sales;
    forall sku, after, upTo | expired <= after
      ensures Sum(Window(Added(qty, s.tick, s.sku, s.qty), sku, after, upTo)) == QtyIn(more, sku, after, upTo)
      ensures Sum(Window(Added(value, s.tick, s.sku, s.unitPrice * s.qty), sku, after, upTo))
          == ValueIn(more, sku, after, upTo)
    {
      AddedWindow(qty, s.tick, s.sku, s.qty, sku, after, upTo);
      AddedWindow(value, s.tick, s.sku, s.unitPrice * s.qty, sku, after, upTo);
    }
  }

  lemma {:induction false} ExpiryAgrees(sales: seq<Sale>, qty: Totals, value: Totals, expired: int, cutoff: int)
    requires TotalsAgree(sales, qty, value, expired) && expired <= cutoff
    ensures TotalsAgree(sales, Kept(qty, cutoff), Kept(value, cutoff), cutoff)
  {
    hide Sum, Window;
    forall sku, after, upTo | cutoff <= after
      ensures Sum(Window(Kept(qty, cutoff), sku, after, upTo)) == QtyIn(sales, sku, after, upTo)
      ensures Sum(Window(Kept(value, cutoff), sku, after, upTo)) == ValueIn(sales, sku, after, upTo)
    {
      KeptWindow(qty, cutoff, sku, after, upTo);
      KeptWindow(value, cutoff, sku, after, upTo);
    }
  }

  /** No later sale, no later tick of sale: looking further ahead changes nothing. */
  lemma {:induction false} LatestSettled(sales: seq<Sale>, sku: string, now: int, later: int)
    requires now <= later && forall i :: 0 <= i < |sales| ==> sales[i].tick <= now
    ensures LatestTick(sales, sku, later) == LatestTick(sales, sku, now)
  {
    if sales != [] {
      LatestSettled(sales[..|sales| - 1], sku, now, later);
    }
  }
}
