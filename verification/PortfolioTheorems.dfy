/** Lot accounting refines unit-by-unit FIFO matching, and every mark balances. */
module PortfolioTheorems {
  import opened Types
  import opened OrderBooks
  import opened Portfolios

  /** The account after a list of fills, or the exception that stopped it. */
  function Replay(initialCash: int, fills: seq<Fill>): Outcome<Account> {
    if fills == [] then Done(OpenAccount(initialCash))
    else
      var before :- Replay(initialCash, fills[..|fills| - 1]);
      FillAccount(before, fills[|fills| - 1])
  }

  // ---- The independent description: two queues of deals ----

  /** What accounting keeps of a fill on one side. */
  datatype Deal = Deal(price: int, quantity: int, fee: int)

  function DealsOn(fills: seq<Fill>, side: Side): seq<Deal> {
    if fills == [] then []
    else
      var last := fills[|fills| - 1];
      DealsOn(fills[..|fills| - 1], side) + if last.side == side then [Deal(last.price, last.quantity, last.fee)] else []
  }

  function Quantity(deals: seq<Deal>): int {
    if deals == [] then 0 else Quantity(deals[..|deals| - 1]) + deals[|deals| - 1].quantity
  }

  function Notional(deals: seq<Deal>): int {
    if deals == [] then 0
    else Notional(deals[..|deals| - 1]) + deals[|deals| - 1].price * deals[|deals| - 1].quantity
  }

  function FeesOf(deals: seq<Deal>): int {
    if deals == [] then 0 else FeesOf(deals[..|deals| - 1]) + deals[|deals| - 1].fee
  }

  /** The price of every single unit dealt, in order. */
  function UnitsOf(deals: seq<Deal>): seq<int> {
    if deals == [] then []
    else UnitsOf(deals[..|deals| - 1]) + Repeat(deals[|deals| - 1].price, deals[|deals| - 1].quantity)
  }

  function Repeat(price: int, quantity: int): seq<int> {
    if quantity <= 0 then [] else seq(quantity, _ => price)
  }

  function LotsOf(deals: seq<Deal>, side: Side): seq<Lot> {
    seq(|deals|, i requires 0 <= i < |deals| => Lot(side, deals[i].quantity, deals[i].price))
  }

  /** `lots` without its first `n` units; what is left of a lot keeps its entry price. */
  function DropUnits(lots: seq<Lot>, n: int): seq<Lot> {
    if lots == [] || n <= 0 then lots
    else if n >= lots[0].quantity then DropUnits(lots[1..], n - lots[0].quantity)
    else [lots[0].(quantity := lots[0].quantity - n)] + lots[1..]
  }

  /** Sum over the first `n` units of (price of the k-th unit sold minus price of the k-th bought). */
  function PairPnl(bought: seq<int>, sold: seq<int>, n: nat): int
    requires n <= |bought| && n <= |sold|
  {
    if n == 0 then 0 else PairPnl(bought, sold, n - 1) + sold[n - 1] - bought[n - 1]
  }

  // ---- Lots ----

  predicate LotsOn(lots: seq<Lot>, side: Side) {
    forall i :: 0 <= i < |lots| ==> lots[i].side == side && 0 < lots[i].quantity
  }

  predicate OneSided(lots: seq<Lot>) {
    LotsOn(lots, Buy) || LotsOn(lots, Sell)
  }

  function Units(lots: seq<Lot>): seq<int> {
    if lots == [] then [] else Repeat(lots[0].entry, lots[0].quantity) + Units(lots[1..])
  }

  function TotalOf(lots: seq<Lot>): int {
    if lots == [] then 0 else lots[0].quantity + TotalOf(lots[1..])
  }

  /** The entry cost of the first `n` units. */
  function FrontCost(lots: seq<Lot>, n: int): int {
    if lots == [] || n <= 0 then 0
    else if n >= lots[0].quantity then lots[0].quantity * lots[0].entry + FrontCost(lots[1..], n - lots[0].quantity)
    else n * lots[0].entry
  }

  /** What closing `quantity` units that cost `cost` realizes at `price`. */
  function Gain(closed: Side, quantity: int, price: int, cost: int): int {
    if closed.Buy? then quantity * price - cost else cost - quantity * price
  }

  lemma {:induction false} TotalNonNegative(lots: seq<Lot>, side: Side)
    requires LotsOn(lots, side)
    ensures 0 <= TotalOf(lots) && (TotalOf(lots) == 0 <==> lots == [])
  {
    if lots != [] {
      TotalNonNegative(lots[1..], side);
    }
  }

  lemma {:induction false} GainAdds(closed: Side, a: int, b: int, price: int, x: int, y: int)
    ensures Gain(closed, a, price, x) + Gain(closed, b, price, y) == Gain(closed, a + b, price, x + y)
  {
    assert (a + b) * price == a * price + b * price;
  }

  lemma {:induction false} FrontExact(m: Matching, closed: Side, price: int)
    requires LotsOn(m.lots, closed) && 0 < m.remaining && m.lots != [] && MatchFront(m, price).Done?
    ensures var r := MatchFront(m, price).value;
      var lot := m.lots[0];
      if lot.quantity <= m.remaining then
        r == Matching(m.lots[1..], m.realized + Gain(closed, lot.quantity, price, lot.quantity * lot.entry), m.remaining - lot.quantity)
      else
        r == Matching([lot.(quantity := lot.quantity - m.remaining)] + m.lots[1..],
                      m.realized + Gain(closed, m.remaining, price, m.remaining * lot.entry), 0)
  {
    var lot := m.lots[0];
    var quantity := Min(m.remaining, lot.quantity);
    assert (price - lot.entry) * quantity == quantity * price - quantity * lot.entry;
    assert (lot.entry - price) * quantity == quantity * lot.entry - quantity * price;
  }

  /** The matching loop is exactly: drop the first units, and realize the exit price against their
      entry cost. */
  lemma {:induction false} MatchExact(m: Matching, side: Side, price: int)
    requires LotsOn(m.lots, Opposite(side)) && 0 <= m.remaining && MatchLots(m, side, price).Done?
    ensures var r := MatchLots(m, side, price).value;
      var matched := Min(m.remaining, TotalOf(m.lots));
      && r.lots == DropUnits(m.lots, m.remaining)
      && r.remaining == m.remaining - matched
      && r.realized == m.realized + Gain(Opposite(side), matched, price, FrontCost(m.lots, matched))
    decreases |m.lots|
  {
    hide MatchFront, Gain;
    var closed := Opposite(side);
    TotalNonNegative(m.lots, closed);
    if m.remaining > 0 && m.lots != [] {
      FrontExact(m, closed, price);
      TotalNonNegative(m.lots[1..], closed);
      var lot := m.lots[0];
      var next := MatchFront(m, price).value;
      if lot.quantity <= m.remaining {
        MatchExact(next, side, price);
        var rest := Min(next.remaining, TotalOf(m.lots[1..]));
        GainAdds(closed, lot.quantity, rest, price, lot.quantity * lot.entry, FrontCost(m.lots[1..], rest));
      } else {
        assert MatchLots(next, side, price) == Done(next);
      }
    } else {
      GainOfNothing(closed, price);
    }
  }

  lemma {:induction false} GainOfNothing(closed: Side, price: int)
    ensures Gain(closed, 0, price, 0) == 0
  {
  }

  lemma {:induction false} DropKeepsSide(lots: seq<Lot>, side: Side, n: int)
    requires LotsOn(lots, side)
    ensures LotsOn(DropUnits(lots, n), side)
    ensures TotalOf(DropUnits(lots, n)) == TotalOf(lots) - Min(Max(n, 0), TotalOf(lots))
    decreases |lots|
  {
    TotalNonNegative(lots, side);
    if lots != [] && n > 0 {
      if n >= lots[0].quantity {
        DropKeepsSide(lots[1..], side, n - lots[0].quantity);
      } else {
        TotalNonNegative(lots[1..], side);
        assert DropUnits(lots, n)[1..] == lots[1..];
      }
    }
  }

  lemma {:induction false} DropTwice(lots: seq<Lot>, side: Side, a: int, b: int)
    requires LotsOn(lots, side) && 0 <= a && 0 <= b
    ensures DropUnits(DropUnits(lots, a), b) == DropUnits(lots, a + b)
    decreases |lots|
  {
    if lots != [] && a > 0 {
      if a >= lots[0].quantity {
        DropTwice(lots[1..], side, a - lots[0].quantity, b);
      } else {
        assert DropUnits(lots, a)[1..] == lots[1..];
      }
    }
  }

  lemma {:induction false} DropAppend(lots: seq<Lot>, side: Side, last: Lot, n: int)
    requires LotsOn(lots, side) && 0 <= n <= TotalOf(lots)
    ensures DropUnits(lots + [last], n) == if n == TotalOf(lots) then [last] else DropUnits(lots, n) + [last]
    ensures TotalOf(lots + [last]) == TotalOf(lots) + last.quantity
    decreases |lots|
  {
    TotalNonNegative(lots, side);
    if lots != [] {
      assert (lots + [last])[1..] == lots[1..] + [last];
      TotalNonNegative(lots[1..], side);
      if n >= lots[0].quantity {
        DropAppend(lots[1..], side, last, n - lots[0].quantity);
      } else {
        DropAppend(lots[1..], side, last, 0);
      }
    }
  }

  /** Dropping every unit leaves nothing; a partial drop of one more lot leaves its tail. */
  lemma {:induction false} DropPast(lots: seq<Lot>, side: Side, last: Lot, n: int)
    requires LotsOn(lots, side) && TotalOf(lots) <= n < TotalOf(lots) + last.quantity
    ensures DropUnits(lots + [last], n) == [last.(quantity := TotalOf(lots) + last.quantity - n)]
    decreases |lots|
  {
    TotalNonNegative(lots, side);
    if lots != [] {
      assert (lots + [last])[1..] == lots[1..] + [last];
      TotalNonNegative(lots[1..], side);
      DropPast(lots[1..], side, last, n - lots[0].quantity);
    }
  }

  lemma {:induction false} DropAll(lots: seq<Lot>, side: Side, n: int)
    requires LotsOn(lots, side) && TotalOf(lots) <= n
    ensures DropUnits(lots, n) == []
    decreases |lots|
  {
    if lots != [] {
      TotalNonNegative(lots[1..], side);
      DropAll(lots[1..], side, n - lots[0].quantity);
    }
  }

  // ---- Units ----

  function SumPrefix(units: seq<int>, n: nat): int
    requires n <= |units|
  {
    if n == 0 then 0 else SumPrefix(units, n - 1) + units[n - 1]
  }

  lemma {:induction false} UnitsTotal(lots: seq<Lot>, side: Side)
    requires LotsOn(lots, side)
    ensures |Units(lots)| == TotalOf(lots)
  {
    if lots != [] {
      UnitsTotal(lots[1..], side);
    }
  }

  /** Open lots expand to the suffix of units not yet dropped. */
  lemma {:induction false} UnitsDrop(lots: seq<Lot>, side: Side, n: nat)
    requires LotsOn(lots, side) && n <= TotalOf(lots)
    ensures |Units(lots)| == TotalOf(lots)
    ensures Units(DropUnits(lots, n)) == Units(lots)[n..]
    decreases |lots|
  {
    UnitsTotal(lots, side);
    if lots != [] && n > 0 {
      UnitsTotal(lots[1..], side);
      TotalNonNegative(lots[1..], side);
      if n >= lots[0].quantity {
        UnitsDrop(lots[1..], side, n - lots[0].quantity);
      } else {
        assert DropUnits(lots, n)[1..] == lots[1..];
      }
    }
  }

  lemma {:induction false} SumPrefixRepeat(price: int, quantity: nat, n: nat)
    requires n <= quantity
    ensures SumPrefix(Repeat(price, quantity), n) == n * price
  {
    if n > 0 {
      SumPrefixRepeat(price, quantity, n - 1);
      assert (n - 1) * price + price == n * price;
    }
  }

  lemma {:induction false} SumPrefixSame(a: seq<int>, b: seq<int>, n: nat)
    requires n <= |a| && n <= |b| && forall k :: 0 <= k < n ==> a[k] == b[k]
    ensures SumPrefix(a, n) == SumPrefix(b, n)
  {
    if n > 0 {
      SumPrefixSame(a, b, n - 1);
    }
  }

  lemma {:induction false} SumPrefixSplit(a: seq<int>, b: seq<int>, n: nat)
    requires n <= |b|
    ensures SumPrefix(a + b, |a| + n) == SumPrefix(a, |a|) + SumPrefix(b, n)
  {
    if n == 0 {
      SumPrefixSame(a + b, a, |a|);
    } else {
      SumPrefixSplit(a, b, n - 1);
    }
  }

  lemma {:induction false} FrontCostIsSum(lots: seq<Lot>, side: Side, n: nat)
    requires LotsOn(lots, side) && n <= |Units(lots)|
    ensures FrontCost(lots, n) == SumPrefix(Units(lots), n)
    decreases |lots|
  {
    if lots != [] && n > 0 {
      var lot := lots[0];
      var head := Repeat(lot.entry, lot.quantity);
      if n >= lot.quantity {
        FrontCostIsSum(lots[1..], side, n - lot.quantity);
        SumPrefixSplit(head, Units(lots[1..]), n - lot.quantity);
        SumPrefixRepeat(lot.entry, lot.quantity, lot.quantity);
      } else {
        SumPrefixSame(Units(lots), head, n);
        SumPrefixRepeat(lot.entry, lot.quantity, n);
      }
    }
  }

  lemma {:induction false} UnitsAppend(lots: seq<Lot>, last: Lot)
    ensures Units(lots + [last]) == Units(lots) + Repeat(last.entry, last.quantity)
    ensures TotalOf(lots + [last]) == TotalOf(lots) + last.quantity
  {
    if lots == [] {
      assert lots + [last] == [last];
      assert Units([last]) == Repeat(last.entry, last.quantity) + Units([last][1..]);
    } else {
      UnitsAppend(lots[1..], last);
      assert (lots + [last])[1..] == lots[1..] + [last];
    }
  }

  predicate DealsOk(deals: seq<Deal>) {
    forall i :: 0 <= i < |deals| ==> 0 < deals[i].quantity
  }

  /** The lots of a list of deals hold its units. */
  lemma {:induction false} LotsOfDeals(deals: seq<Deal>, side: Side)
    requires DealsOk(deals)
    ensures LotsOn(LotsOf(deals, side), side) && TotalOf(LotsOf(deals, side)) == Quantity(deals)
    ensures Units(LotsOf(deals, side)) == UnitsOf(deals) && |UnitsOf(deals)| == Quantity(deals)
  {
    if deals != [] {
      var init := deals[..|deals| - 1];
      var last := deals[|deals| - 1];
      LotsOfDeals(init, side);
      UnitsAppend(LotsOf(init, side), Lot(side, last.quantity, last.price));
      assert LotsOf(deals, side) == LotsOf(init, side) + [Lot(side, last.quantity, last.price)];
    }
  }

  // ---- The closed form ----

  /** Open lots when `own` deals are on `side`: the unmatched suffix of the larger side. */
  function OpenLots(own: seq<Deal>, other: seq<Deal>, side: Side): seq<Lot> {
    if Quantity(own) >= Quantity(other) then DropUnits(LotsOf(own, side), Quantity(other))
    else DropUnits(LotsOf(other, Opposite(side)), Quantity(own))
  }

  function Pnl(own: seq<Deal>, other: seq<Deal>, side: Side): int
    requires DealsOk(own) && DealsOk(other)
  {
    LotsOfDeals(own, side); LotsOfDeals(other, side); QuantityNonNegative(own); QuantityNonNegative(other);
    var n := Min(Quantity(own), Quantity(other));
    if side.Buy? then PairPnl(UnitsOf(own), UnitsOf(other), n) else PairPnl(UnitsOf(other), UnitsOf(own), n)
  }

  lemma {:induction false} QuantityNonNegative(deals: seq<Deal>)
    requires DealsOk(deals)
    ensures 0 <= Quantity(deals) && (Quantity(deals) == 0 <==> deals == [])
  {
    if deals != [] {
      QuantityNonNegative(deals[..|deals| - 1]);
    }
  }

  lemma {:induction false} OpenLotsSymmetric(own: seq<Deal>, other: seq<Deal>, side: Side)
    requires DealsOk(own) && DealsOk(other)
    ensures OpenLots(own, other, side) == OpenLots(other, own, Opposite(side))
  {
    if Quantity(own) == Quantity(other) {
      LotsOfDeals(own, side);
      LotsOfDeals(other, Opposite(side));
      DropAll(LotsOf(own, side), side, Quantity(other));
      DropAll(LotsOf(other, Opposite(side)), Opposite(side), Quantity(own));
    }
  }

  lemma {:induction false} QuantityAppend(deals: seq<Deal>, last: Deal, side: Side)
    ensures Quantity(deals + [last]) == Quantity(deals) + last.quantity
    ensures LotsOf(deals + [last], side) == LotsOf(deals, side) + [Lot(side, last.quantity, last.price)]
    ensures UnitsOf(deals + [last]) == UnitsOf(deals) + Repeat(last.price, last.quantity)
  {
    assert (deals + [last])[..|deals|] == deals;
  }

  /** `apply_buy_lot` / `apply_sell_lot` on the open lots of a deal history gives the open lots of the
      extended history. */
  lemma {:induction false} LotsStep(own: seq<Deal>, other: seq<Deal>, realized: int, fill: Fill)
    requires DealsOk(own) && DealsOk(other) && 0 < fill.quantity
    requires ApplyLot(OpenLots(own, other, fill.side), realized, fill).Done?
    ensures ApplyLot(OpenLots(own, other, fill.side), realized, fill).value.lots
         == OpenLots(own + [Deal(fill.price, fill.quantity, fill.fee)], other, fill.side)
  {
    hide ApplyLot, OpenLots;
    if Quantity(own) >= Quantity(other) {
      LongerSide(own, other, realized, fill);
    } else {
      ShorterSide(own, other, realized, fill);
    }
  }

  /** What closing against the longer `other` side leaves open. */
  lemma {:induction false} OpenAfterClosing(own: seq<Deal>, other: seq<Deal>, fill: Fill)
    requires DealsOk(own) && DealsOk(other) && 0 < fill.quantity && Quantity(own) < Quantity(other)
    ensures var deal := Deal(fill.price, fill.quantity, fill.fee);
      var total := Quantity(own) + fill.quantity;
      OpenLots(own + [deal], other, fill.side)
      == if total <= Quantity(other) then DropUnits(LotsOf(other, Opposite(fill.side)), total)
         else [Lot(fill.side, total - Quantity(other), fill.price)]
  {
    hide LotsOf, LotsOn, Quantity, DropUnits, TotalOf, Units, UnitsOf, DealsOk;
    var side := fill.side;
    var deal := Deal(fill.price, fill.quantity, fill.fee);
    var total := Quantity(own) + fill.quantity;
    LotsOfDeals(own, side);
    LotsOfDeals(other, Opposite(side));
    QuantityAppend(own, deal, side);
    if total == Quantity(other) {
      DropAllButLast(own, deal, side);
      DropAll(LotsOf(other, Opposite(side)), Opposite(side), total);
    } else if total > Quantity(other) {
      DropPast(LotsOf(own, side), side, Lot(side, fill.quantity, fill.price), Quantity(other));
    }
  }

  lemma {:induction false} ShorterSide(own: seq<Deal>, other: seq<Deal>, realized: int, fill: Fill)
    requires DealsOk(own) && DealsOk(other) && 0 < fill.quantity && Quantity(own) < Quantity(other)
    requires ApplyLot(OpenLots(own, other, fill.side), realized, fill).Done?
    ensures ApplyLot(OpenLots(own, other, fill.side), realized, fill).value.lots
         == OpenLots(own + [Deal(fill.price, fill.quantity, fill.fee)], other, fill.side)
  {
    hide MatchLots, Gain, FrontCost, LotsOf, LotsOn, Quantity, DropUnits, TotalOf, Units, UnitsOf, DealsOk;
    var side, closed := fill.side, Opposite(fill.side);
    var lots := DropUnits(LotsOf(other, closed), Quantity(own));
    OpenAfterClosing(own, other, fill);
    LotsOfDeals(other, closed);
    QuantityNonNegative(own);
    DropKeepsSide(LotsOf(other, closed), closed, Quantity(own));
    MatchExact(Matching(lots, realized, fill.quantity), side, fill.price);
    DropTwice(LotsOf(other, closed), closed, Quantity(own), fill.quantity);
    if Quantity(own) + fill.quantity >= Quantity(other) {
      DropAll(LotsOf(other, closed), closed, Quantity(own) + fill.quantity);
    }
  }

  lemma {:induction false} DropAllButLast(own: seq<Deal>, deal: Deal, side: Side)
    requires DealsOk(own) && 0 < deal.quantity
    ensures DropUnits(LotsOf(own + [deal], side), Quantity(own) + deal.quantity) == []
  {
    QuantityAppend(own, deal, side);
    assert DealsOk(own + [deal]);
    LotsOfDeals(own + [deal], side);
    DropAll(LotsOf(own + [deal], side), side, Quantity(own) + deal.quantity);
  }

  /** Opening further on the side that is already open, or from flat. */
  lemma {:induction false} LongerSide(own: seq<Deal>, other: seq<Deal>, realized: int, fill: Fill)
    requires DealsOk(own) && DealsOk(other) && 0 < fill.quantity && Quantity(own) >= Quantity(other)
    ensures ApplyLot(OpenLots(own, other, fill.side), realized, fill)
         == Done(Matching(OpenLots(own + [Deal(fill.price, fill.quantity, fill.fee)], other, fill.side), realized, fill.quantity))
  {
    var side := fill.side;
    var added := Lot(side, fill.quantity, fill.price);
    LotsOfDeals(own, side);
    QuantityNonNegative(other);
    DropKeepsSide(LotsOf(own, side), side, Quantity(other));
    QuantityAppend(own, Deal(fill.price, fill.quantity, fill.fee), side);
    DropAppend(LotsOf(own, side), side, added, Quantity(other));
    if Quantity(own) == Quantity(other) {
      DropAll(LotsOf(own, side), side, Quantity(other));
      assert OpenLots(own, other, side) + [added] == [added];
    } else {
      assert OpenLots(own, other, side) != [];
      assert OpenLots(own, other, side)[0].side == side;
    }
  }

  lemma {:induction false} PairPnlSame(a: seq<int>, b: seq<int>, c: seq<int>, d: seq<int>, n: nat)
    requires n <= |a| && n <= |b| && n <= |c| && n <= |d|
    requires forall k :: 0 <= k < n ==> a[k] == c[k] && b[k] == d[k]
    ensures PairPnl(a, b, n) == PairPnl(c, d, n)
  {
    if n > 0 {
      PairPnlSame(a, b, c, d, n - 1);
    }
  }

  /** Matching `m` more units of one side, all at `price`, against the next units of the other. */
  lemma {:induction false} PairPnlExtend(own: seq<int>, other: seq<int>, side: Side, price: int, n: nat, m: nat)
    requires m <= n && |own| + m <= |other|
    ensures var more := own + Repeat(price, n);
      var cost := SumPrefix(other[|own|..], m);
      if side.Buy? then PairPnl(more, other, |own| + m) == PairPnl(own, other, |own|) + cost - m * price
      else PairPnl(other, more, |own| + m) == PairPnl(other, own, |own|) + m * price - cost
  {
    var more := own + Repeat(price, n);
    if m == 0 {
      PairPnlSame(more, other, own, other, |own|);
      PairPnlSame(other, more, other, own, |own|);
    } else {
      PairPnlExtend(own, other, side, price, n, m - 1);
      assert m * price == (m - 1) * price + price;
      assert other[|own|..][m - 1] == other[|own| + m - 1];
    }
  }

  lemma {:induction false} PnlStep(own: seq<Deal>, other: seq<Deal>, realized: int, fill: Fill)
    requires DealsOk(own) && DealsOk(other) && 0 < fill.quantity && realized == Pnl(own, other, fill.side)
    requires ApplyLot(OpenLots(own, other, fill.side), realized, fill).Done?
    requires DealsOk(own + [Deal(fill.price, fill.quantity, fill.fee)])
    ensures ApplyLot(OpenLots(own, other, fill.side), realized, fill).value.realized
         == Pnl(own + [Deal(fill.price, fill.quantity, fill.fee)], other, fill.side)
  {
    hide MatchLots, OpenLots, ApplyLot, UnitsOf, LotsOf, LotsOn, Quantity, DealsOk, PairPnl, SumPrefix, Units;
    hide TotalOf;
    var side, n, price := fill.side, fill.quantity, fill.price;
    var deal := Deal(price, n, fill.fee);
    var b, s := Quantity(own), Quantity(other);
    LotsOfDeals(own, side);
    LotsOfDeals(other, side);
    QuantityNonNegative(own);
    QuantityNonNegative(other);
    QuantityAppend(own, deal, side);
    LotsOfDeals(own + [deal], side);
    var mine, theirs := UnitsOf(own), UnitsOf(other);
    if b >= s {
      LongerSide(own, other, realized, fill);
      PairPnlSame(mine + Repeat(price, n), theirs, mine, theirs, s);
      PairPnlSame(theirs, mine + Repeat(price, n), theirs, mine, s);
    } else {
      var m := Min(n, s - b);
      PairPnlExtend(mine, theirs, side, price, n, m);
      MatchShorter(own, other, realized, fill);
    }
  }

  /** Closing against the other side costs the next unmatched units of it. */
  lemma {:induction false} MatchShorter(own: seq<Deal>, other: seq<Deal>, realized: int, fill: Fill)
    requires DealsOk(own) && DealsOk(other) && 0 < fill.quantity && 0 <= Quantity(own) < Quantity(other)
    requires |UnitsOf(other)| == Quantity(other)
    requires ApplyLot(OpenLots(own, other, fill.side), realized, fill).Done?
    ensures var m := Min(fill.quantity, Quantity(other) - Quantity(own));
      ApplyLot(OpenLots(own, other, fill.side), realized, fill).value.realized
      == realized + Gain(Opposite(fill.side), m, fill.price, SumPrefix(UnitsOf(other)[Quantity(own)..], m))
  {
    hide MatchLots, Gain, FrontCost, SumPrefix, LotsOf, LotsOn, Quantity, DropUnits, TotalOf, Units, UnitsOf, DealsOk;
    var closed := Opposite(fill.side);
    var all := LotsOf(other, closed);
    var lots := OpenLots(own, other, fill.side);
    var m := Min(fill.quantity, Quantity(other) - Quantity(own));
    LotsOfDeals(other, closed);
    DropKeepsSide(all, closed, Quantity(own));
    UnitsDrop(all, closed, Quantity(own));
    MatchExact(Matching(lots, realized, fill.quantity), fill.side, fill.price);
    FrontCostIsSum(lots, closed, m);
  }

  // ---- Main results ----

  /** Every quantity of an account as a function of the two deal histories alone. */
  predicate ClosedForm(initialCash: int, bought: seq<Deal>, sold: seq<Deal>, a: Account) {
    && DealsOk(bought) && DealsOk(sold)
    && a.initialCash == initialCash
    && a.cash == initialCash + Notional(sold) - Notional(bought) - FeesOf(bought) - FeesOf(sold)
    && a.fees == FeesOf(bought) + FeesOf(sold)
    && a.turnover == Notional(bought) + Notional(sold)
    && a.realized == Pnl(bought, sold, Buy)
    && a.lots == OpenLots(bought, sold, Buy)
  }

  lemma {:induction false} DealsAppend(deals: seq<Deal>, last: Deal)
    requires DealsOk(deals) && 0 < last.quantity
    ensures DealsOk(deals + [last])
    ensures Notional(deals + [last]) == Notional(deals) + last.price * last.quantity
    ensures FeesOf(deals + [last]) == FeesOf(deals) + last.fee
  {
    assert (deals + [last])[..|deals|] == deals;
  }

  lemma {:induction false} PnlSymmetric(own: seq<Deal>, other: seq<Deal>)
    requires DealsOk(own) && DealsOk(other)
    ensures Pnl(own, other, Buy) == Pnl(other, own, Sell)
  {
  }

  lemma {:induction false} ClosedFormStep(bought: seq<Deal>, sold: seq<Deal>, a: Account, fill: Fill)
    requires ClosedForm(a.initialCash, bought, sold, a) && FillAccount(a, fill).Done?
    ensures var deal := Deal(fill.price, fill.quantity, fill.fee);
      var b := FillAccount(a, fill).value;
      if fill.side.Buy? then ClosedForm(a.initialCash, bought + [deal], sold, b)
      else ClosedForm(a.initialCash, bought, sold + [deal], b)
  {
    hide ApplyLot, OpenLots, Pnl, Notional, FeesOf, DealsOk, Inventory;
    var deal := Deal(fill.price, fill.quantity, fill.fee);
    if fill.side.Buy? {
      DealsAppend(bought, deal);
      LotsStep(bought, sold, a.realized, fill);
      PnlStep(bought, sold, a.realized, fill);
    } else {
      DealsAppend(sold, deal);
      OpenLotsSymmetric(bought, sold, Buy);
      OpenLotsSymmetric(bought, sold + [deal], Buy);
      PnlSymmetric(bought, sold);
      PnlSymmetric(bought, sold + [deal]);
      LotsStep(sold, bought, a.realized, fill);
      PnlStep(sold, bought, a.realized, fill);
    }
  }

  lemma {:induction false} ClosedFormStart(initialCash: int)
    ensures ClosedForm(initialCash, [], [], OpenAccount(initialCash))
  {
  }

  /** FIFO lots refine unit-by-unit matching: after any accepted fill sequence the realized PnL is the
      sum over k of (k-th unit sold minus k-th unit bought), and the lots are the unmatched suffix of
      the longer side. */
  lemma {:induction false} FifoRefinesUnits(initialCash: int, fills: seq<Fill>)
    requires Replay(initialCash, fills).Done?
    ensures ClosedForm(initialCash, DealsOn(fills, Buy), DealsOn(fills, Sell), Replay(initialCash, fills).value)
  {
    hide ClosedForm, FillAccount;
    if fills == [] {
      ClosedFormStart(initialCash);
    } else {
      var init := fills[..|fills| - 1];
      var last := fills[|fills| - 1];
      FifoRefinesUnits(initialCash, init);
      ClosedFormInitial(initialCash, init);
      ClosedFormStep(DealsOn(init, Buy), DealsOn(init, Sell), Replay(initialCash, init).value, last);
      assert DealsOn(fills, Opposite(last.side)) == DealsOn(init, Opposite(last.side));
    }
  }

  lemma {:induction false} ClosedFormInitial(initialCash: int, fills: seq<Fill>)
    requires Replay(initialCash, fills).Done?
    requires ClosedForm(initialCash, DealsOn(fills, Buy), DealsOn(fills, Sell), Replay(initialCash, fills).value)
    ensures Replay(initialCash, fills).value.initialCash == initialCash
  {
  }

  /** The open lots hold exactly the unmatched suffix of units, on the side that traded more. */
  lemma {:induction false} OpenUnits(initialCash: int, fills: seq<Fill>)
    requires Replay(initialCash, fills).Done?
    ensures var bought, sold := UnitsOf(DealsOn(fills, Buy)), UnitsOf(DealsOn(fills, Sell));
      var lots := Replay(initialCash, fills).value.lots;
      if |bought| >= |sold| then LotsOn(lots, Buy) && Units(lots) == bought[|sold|..]
      else LotsOn(lots, Sell) && Units(lots) == sold[|bought|..]
  {
    FifoRefinesUnits(initialCash, fills);
    hide Units, UnitsOf, DealsOn, LotsOf, LotsOn, DropUnits, Quantity, Replay, Pnl, Notional, FeesOf;
    var bought, sold := DealsOn(fills, Buy), DealsOn(fills, Sell);
    LotsOfDeals(bought, Buy);
    LotsOfDeals(sold, Sell);
    QuantityNonNegative(bought);
    QuantityNonNegative(sold);
    if Quantity(bought) >= Quantity(sold) {
      DropKeepsSide(LotsOf(bought, Buy), Buy, Quantity(sold));
      UnitsDrop(LotsOf(bought, Buy), Buy, Quantity(sold));
    } else {
      DropKeepsSide(LotsOf(sold, Sell), Sell, Quantity(bought));
      UnitsDrop(LotsOf(sold, Sell), Sell, Quantity(bought));
    }
  }

  /** Two accepted interleavings of the same buys and the same sells end in the same account, up to the
      order of ids and ledger lines. */
  lemma {:induction false} InterleavingIrrelevant(initialCash: int, one: seq<Fill>, two: seq<Fill>)
    requires Replay(initialCash, one).Done? && Replay(initialCash, two).Done?
    requires DealsOn(one, Buy) == DealsOn(two, Buy) && DealsOn(one, Sell) == DealsOn(two, Sell)
    ensures var a, b := Replay(initialCash, one).value, Replay(initialCash, two).value;
      a.(applied := b.applied, ledger := b.ledger) == b
  {
    FifoRefinesUnits(initialCash, one);
    FifoRefinesUnits(initialCash, two);
    hide Replay, DealsOn, OpenLots, Pnl, Notional, FeesOf;
  }

  // ---- Equity ----

  /** Signed entry cost of the open lots. */
  function OpenCost(lots: seq<Lot>): int {
    if lots == [] then 0
    else OpenCost(lots[..|lots| - 1]) + SignedQuantity(lots[|lots| - 1]) * lots[|lots| - 1].entry
  }

  lemma {:induction false} OpenCostFront(lots: seq<Lot>)
    requires lots != []
    ensures OpenCost(lots) == SignedQuantity(lots[0]) * lots[0].entry + OpenCost(lots[1..])
  {
    if |lots| > 1 {
      var init := lots[..|lots| - 1];
      OpenCostFront(init);
      assert init[1..] == lots[1..][..|lots| - 2];
    }
  }

  lemma {:induction false} CostOfDeals(deals: seq<Deal>, side: Side)
    ensures OpenCost(LotsOf(deals, side)) == if side.Buy? then Notional(deals) else -Notional(deals)
  {
    if deals != [] {
      var init := deals[..|deals| - 1];
      CostOfDeals(init, side);
      assert LotsOf(deals, side)[..|deals| - 1] == LotsOf(init, side);
      var last := deals[|deals| - 1];
      assert last.price * last.quantity == last.quantity * last.price;
      assert (-last.quantity) * last.price == -(last.quantity * last.price);
    }
  }

  lemma {:induction false} Negated(a: int, b: int)
    ensures (-a) * b == -(a * b)
  {
  }

  lemma {:induction false} Reduced(a: int, b: int, c: int)
    ensures (a - b) * c == a * c - b * c
  {
  }

  /** The signed entry cost of a lot, and of what is left of it after `n` units. */
  lemma {:induction false} LotCost(lot: Lot, n: int)
    ensures SignedQuantity(lot) * lot.entry == if lot.side.Buy? then lot.quantity * lot.entry else -(lot.quantity * lot.entry)
    ensures SignedQuantity(lot.(quantity := lot.quantity - n)) * lot.entry
         == SignedQuantity(lot) * lot.entry - if lot.side.Buy? then n * lot.entry else -(n * lot.entry)
  {
    Negated(lot.quantity, lot.entry);
    Negated(lot.quantity - n, lot.entry);
    Reduced(lot.quantity, n, lot.entry);
  }

  /** Dropping units removes their entry cost. */
  lemma {:induction false} CostAfterDrop(lots: seq<Lot>, side: Side, n: int)
    requires LotsOn(lots, side) && 0 <= n
    ensures OpenCost(DropUnits(lots, n)) == OpenCost(lots) - if side.Buy? then FrontCost(lots, n) else -FrontCost(lots, n)
    decreases |lots|
  {
    hide SignedQuantity, OpenCost;
    if lots != [] && n > 0 {
      var lot := lots[0];
      OpenCostFront(lots);
      LotCost(lot, n);
      if n >= lot.quantity {
        CostAfterDrop(lots[1..], side, n - lot.quantity);
      } else {
        var rest := DropUnits(lots, n);
        OpenCostFront(rest);
        assert rest[1..] == lots[1..];
      }
    }
  }

  /** Pairing units is selling revenue minus buying cost of the paired units. */
  lemma {:induction false} PairPnlIsDifference(bought: seq<int>, sold: seq<int>, n: nat)
    requires n <= |bought| && n <= |sold|
    ensures PairPnl(bought, sold, n) == SumPrefix(sold, n) - SumPrefix(bought, n)
  {
    if n > 0 {
      PairPnlIsDifference(bought, sold, n - 1);
    }
  }

  lemma {:induction false} FrontOfAll(lots: seq<Lot>, side: Side)
    requires LotsOn(lots, side)
    ensures FrontCost(lots, TotalOf(lots)) == if side.Buy? then OpenCost(lots) else -OpenCost(lots)
  {
    TotalNonNegative(lots, side);
    DropAll(lots, side, TotalOf(lots));
    CostAfterDrop(lots, side, TotalOf(lots));
  }

  /** The front cost of a deal history is the sum of its first units. */
  lemma {:induction false} FrontOfDeals(deals: seq<Deal>, side: Side, n: nat)
    requires DealsOk(deals) && n <= Quantity(deals)
    ensures |UnitsOf(deals)| == Quantity(deals) && FrontCost(LotsOf(deals, side), n) == SumPrefix(UnitsOf(deals), n)
    ensures n == Quantity(deals) ==> SumPrefix(UnitsOf(deals), n) == Notional(deals)
  {
    LotsOfDeals(deals, side);
    FrontCostIsSum(LotsOf(deals, side), side, n);
    FrontOfAll(LotsOf(deals, side), side);
    CostOfDeals(deals, side);
  }

  /** Cash, open cost, realized PnL and fees always balance. */
  lemma {:induction false} CashBalance(initialCash: int, bought: seq<Deal>, sold: seq<Deal>, a: Account)
    requires ClosedForm(initialCash, bought, sold, a)
    ensures a.cash + OpenCost(a.lots) == initialCash + a.realized - a.fees
    ensures OneSided(a.lots)
  {
    hide LotsOf, LotsOn, DropUnits, Quantity, UnitsOf, Notional, FeesOf, OpenCost, FrontCost, PairPnl, SumPrefix;
    hide DealsOk;
    LotsOfDeals(bought, Buy);
    LotsOfDeals(sold, Sell);
    LotsOfDeals(sold, Buy);
    QuantityNonNegative(bought);
    QuantityNonNegative(sold);
    CostOfDeals(bought, Buy);
    CostOfDeals(sold, Sell);
    var n := Min(Quantity(bought), Quantity(sold));
    PairPnlIsDifference(UnitsOf(bought), UnitsOf(sold), n);
    FrontOfDeals(bought, Buy, n);
    FrontOfDeals(sold, Sell, n);
    if Quantity(bought) >= Quantity(sold) {
      DropKeepsSide(LotsOf(bought, Buy), Buy, n);
      CostAfterDrop(LotsOf(bought, Buy), Buy, n);
    } else {
      DropKeepsSide(LotsOf(sold, Sell), Sell, n);
      CostAfterDrop(LotsOf(sold, Sell), Sell, n);
    }
  }

  lemma {:induction false} LotUnrealizedExact(lot: Lot, midX2: int)
    ensures LotUnrealizedX2(lot, midX2) == SignedQuantity(lot) * midX2 - 2 * (SignedQuantity(lot) * lot.entry)
  {
    assert (midX2 - lot.entry * 2) * lot.quantity == lot.quantity * midX2 - 2 * (lot.quantity * lot.entry);
    assert (lot.entry * 2 - midX2) * lot.quantity == 2 * (lot.quantity * lot.entry) - lot.quantity * midX2;
    assert (-lot.quantity) * midX2 == -(lot.quantity * midX2);
    assert (-lot.quantity) * lot.entry == -(lot.quantity * lot.entry);
  }

  lemma {:induction false} UnrealizedExact(lots: seq<Lot>, midX2: int)
    requires UnrealizedX2(lots, midX2).Done?
    ensures UnrealizedX2(lots, midX2).value == NetQuantity(lots) * midX2 - 2 * OpenCost(lots)
  {
    hide LotUnrealizedX2, SignedQuantity;
    if lots != [] {
      var init := lots[..|lots| - 1];
      var last := lots[|lots| - 1];
      UnrealizedExact(init, midX2);
      LotUnrealizedExact(last, midX2);
      assert (NetQuantity(init) + SignedQuantity(last)) * midX2 == NetQuantity(init) * midX2 + SignedQuantity(last) * midX2;
    }
  }

  lemma {:induction false} FlatMeansEmpty(lots: seq<Lot>)
    requires OneSided(lots)
    ensures NetQuantity(lots) == 0 <==> lots == []
  {
    if LotsOn(lots, Buy) {
      NetOfSide(lots, Buy);
    } else {
      NetOfSide(lots, Sell);
    }
  }

  lemma {:induction false} NetOfSide(lots: seq<Lot>, side: Side)
    requires LotsOn(lots, side)
    ensures if side.Buy? then |lots| <= NetQuantity(lots) else NetQuantity(lots) <= -|lots|
  {
    if lots != [] {
      NetOfSide(lots[..|lots| - 1], side);
    }
  }

  lemma {:induction false} NetFront(lots: seq<Lot>)
    requires lots != []
    ensures NetQuantity(lots) == SignedQuantity(lots[0]) + NetQuantity(lots[1..])
  {
    if |lots| > 1 {
      var init := lots[..|lots| - 1];
      NetFront(init);
      assert init[1..] == lots[1..][..|lots| - 2];
    }
  }

  lemma {:induction false} NetIsTotal(lots: seq<Lot>, side: Side)
    requires LotsOn(lots, side)
    ensures NetQuantity(lots) == if side.Buy? then TotalOf(lots) else -TotalOf(lots)
  {
    if lots != [] {
      NetFront(lots);
      NetIsTotal(lots[1..], side);
    }
  }

  /** The accounting identity: in every reachable account every successful mark satisfies
      equity - 2 * initial cash == net PnL, with or without a midpoint. */
  lemma {:induction false} EquityIdentity(initialCash: int, fills: seq<Fill>, book: Book)
    requires Replay(initialCash, fills).Done?
    ensures var a := Replay(initialCash, fills).value;
      && (MarkAccount(a, book).Done? && MarkAccount(a, book).value.Some? ==>
        var mark := MarkAccount(a, book).value.value;
        mark.equityX2 - 2 * initialCash == mark.netX2)
      && (CashOnlyMark(a).Done? ==> CashOnlyMark(a).value.equityX2 - 2 * initialCash == CashOnlyMark(a).value.netX2)
  {
    hide ClosedForm, Replay, MarkMid, DealsOn;
    FifoRefinesUnits(initialCash, fills);
    var a := Replay(initialCash, fills).value;
    CashBalance(initialCash, DealsOn(fills, Buy), DealsOn(fills, Sell), a);
    FlatMeansEmpty(a.lots);
    if MarkMid(book).Done? && MarkMid(book).value.Some? && UnrealizedX2(a.lots, MarkMid(book).value.value).Done? {
      UnrealizedExact(a.lots, MarkMid(book).value.value);
    }
  }

  /** A mark is refused exactly when there is inventory and no uncrossed two-sided book. */
  lemma {:induction false} MarkRefused(initialCash: int, fills: seq<Fill>, book: Book)
    requires Replay(initialCash, fills).Done?
    ensures var a := Replay(initialCash, fills).value;
      MarkAccount(a, book) == Done(None) <==>
        a.lots != [] && (book.bids == [] || book.asks == [] || book.bids[0].price > book.asks[0].price)
  {
    hide ClosedForm, Replay, DealsOn, UnrealizedX2;
    FifoRefinesUnits(initialCash, fills);
    var a := Replay(initialCash, fills).value;
    CashBalance(initialCash, DealsOn(fills, Buy), DealsOn(fills, Sell), a);
    FlatMeansEmpty(a.lots);
    InventoryChecked(initialCash, fills);
  }

  /** What a mark says: with an uncrossed two-sided book, cash plus the inventory at the midpoint, and the
      open units at the midpoint minus their entry cost; otherwise there is no inventory to value. */
  lemma {:induction false} MarkValue(initialCash: int, fills: seq<Fill>, book: Book)
    requires Replay(initialCash, fills).Done?
    requires MarkAccount(Replay(initialCash, fills).value, book).Done?
    requires MarkAccount(Replay(initialCash, fills).value, book).value.Some?
    ensures var a := Replay(initialCash, fills).value;
      var mark := MarkAccount(a, book).value.value;
      if book.bids != [] && book.asks != [] && book.bids[0].price <= book.asks[0].price then
        var midX2 := book.bids[0].price + book.asks[0].price;
        && mark.midX2 == Some(midX2) && mark.equityX2 == 2 * a.cash + NetQuantity(a.lots) * midX2
        && mark.unrealizedX2 == NetQuantity(a.lots) * midX2 - 2 * OpenCost(a.lots)
      else mark == Mark(None, 0, 2 * a.cash, mark.netX2) && a.lots == []
  {
    hide ClosedForm, Replay, DealsOn, UnrealizedX2, NetQuantity, OpenCost;
    FifoRefinesUnits(initialCash, fills);
    var a := Replay(initialCash, fills).value;
    CashBalance(initialCash, DealsOn(fills, Buy), DealsOn(fills, Sell), a);
    FlatMeansEmpty(a.lots);
    if MarkMid(book).Done? && MarkMid(book).value.Some? && UnrealizedX2(a.lots, MarkMid(book).value.value).Done? {
      UnrealizedExact(a.lots, MarkMid(book).value.value);
    }
  }

  /** The inventory of a reachable account always fits, because the ledger recorded it. */
  lemma {:induction false} InventoryChecked(initialCash: int, fills: seq<Fill>)
    requires Replay(initialCash, fills).Done?
    ensures Inventory(Replay(initialCash, fills).value.lots).Done?
  {
    hide ApplyLot;
  }

  // ---- Ledger ----

  /** Ledger line i records cash, inventory and realized PnL as of the first i + 1 fills. */
  lemma {:induction false} LedgerRecordsHistory(initialCash: int, fills: seq<Fill>, i: nat)
    requires Replay(initialCash, fills).Done? && i < |fills|
    ensures |Replay(initialCash, fills).value.ledger| == |fills| == |Replay(initialCash, fills).value.applied|
    ensures Replay(initialCash, fills[..i + 1]).Done?
    ensures var a := Replay(initialCash, fills[..i + 1]).value;
      Replay(initialCash, fills).value.ledger[i] == LedgerEntry(fills[i], a.cash, NetQuantity(a.lots), a.realized)
    ensures Replay(initialCash, fills).value.applied[i] == fills[i].sequence
  {
    hide ApplyLot;
    var init := fills[..|fills| - 1];
    LedgerLength(initialCash, init);
    if i == |fills| - 1 {
      assert fills[..i + 1] == fills;
    } else {
      LedgerRecordsHistory(initialCash, init, i);
      assert init[..i + 1] == fills[..i + 1];
    }
  }

  lemma {:induction false} LedgerLength(initialCash: int, fills: seq<Fill>)
    requires Replay(initialCash, fills).Done?
    ensures |Replay(initialCash, fills).value.ledger| == |fills| == |Replay(initialCash, fills).value.applied|
  {
    hide ApplyLot;
    if fills != [] {
      LedgerLength(initialCash, fills[..|fills| - 1]);
    }
  }
}
