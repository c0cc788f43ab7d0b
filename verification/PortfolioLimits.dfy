/** Exactly which fills and marks 64-bit accounting accepts, and how much trading it always has room for. */
module PortfolioLimits {
  import opened Types
  import opened OrderBooks
  import opened Portfolios
  import opened PortfolioTheorems

  // ---- Matching ----

  /** The realized PnL once the first `j` lots have been matched against a fill of `quantity` at `price`. */
  function RealizedAfter(lots: seq<Lot>, closed: Side, realized: int, price: int, quantity: int, j: nat): int
    requires j <= |lots|
  {
    var matched := Min(quantity, TotalOf(lots[..j]));
    realized + Gain(closed, matched, price, FrontCost(lots, matched))
  }

  /** The fill is larger than the lots before lot `j`. */
  predicate Reaches(lots: seq<Lot>, quantity: int, j: nat)
    requires j <= |lots|
  {
    TotalOf(lots[..j]) < quantity
  }

  /** The PnL of lot `j` and the PnL realized up to and including it fit 64 bits. */
  predicate LotFits(lots: seq<Lot>, closed: Side, realized: int, price: int, quantity: int, j: nat)
    requires j < |lots|
  {
    && IsInt64(RealizedAfter(lots, closed, realized, price, quantity, j + 1))
    && IsInt64(RealizedAfter(lots, closed, realized, price, quantity, j + 1)
               - RealizedAfter(lots, closed, realized, price, quantity, j))
  }

  predicate MatchFits(lots: seq<Lot>, closed: Side, realized: int, price: int, quantity: int) {
    forall j {:trigger LotFits(lots, closed, realized, price, quantity, j)} ::
      0 <= j < |lots| && Reaches(lots, quantity, j) ==> LotFits(lots, closed, realized, price, quantity, j)
  }

  lemma {:induction false} TotalFront(lots: seq<Lot>, j: nat)
    requires j < |lots|
    ensures TotalOf(lots[..j + 1]) == lots[0].quantity + TotalOf(lots[1..][..j])
  {
    assert lots[..j + 1][1..] == lots[1..][..j];
  }

  lemma {:induction false} TotalPrefixNonNegative(lots: seq<Lot>, side: Side, j: nat)
    requires LotsOn(lots, side) && j <= |lots|
    ensures 0 <= TotalOf(lots[..j])
  {
    TotalNonNegative(lots[..j], side);
  }

  lemma {:induction false} FirstRealized(lots: seq<Lot>, closed: Side, realized: int, price: int, quantity: int)
    requires LotsOn(lots, closed) && lots != [] && 0 < quantity
    ensures RealizedAfter(lots, closed, realized, price, quantity, 0) == realized
    ensures var first := Min(quantity, lots[0].quantity);
      RealizedAfter(lots, closed, realized, price, quantity, 1)
      == realized + Gain(closed, first, price, first * lots[0].entry)
  {
    hide Gain;
    TotalFront(lots, 0);
    assert lots[..0] == [] && lots[1..][..0] == [];
    GainOfNothing(closed, price);
    assert FrontCost(lots[1..], 0) == 0;
  }

  /** After the first lot the rest goes on from what it realized. */
  lemma {:induction false} RealizedShift(lots: seq<Lot>, closed: Side, realized: int, price: int, quantity: int, j: nat)
    requires LotsOn(lots, closed) && j < |lots| && lots[0].quantity <= quantity
    ensures var first := lots[0].quantity;
      RealizedAfter(lots, closed, realized, price, quantity, j + 1)
      == RealizedAfter(lots[1..], closed, realized + Gain(closed, first, price, first * lots[0].entry), price, quantity - first, j)
  {
    hide Gain;
    TotalFront(lots, j);
    TotalPrefixNonNegative(lots[1..], closed, j);
    var first := lots[0].quantity;
    var rest := Min(quantity - first, TotalOf(lots[1..][..j]));
    GainAdds(closed, first, rest, price, first * lots[0].entry, FrontCost(lots[1..], rest));
  }

  /** Lot `j` of the whole is lot `j - 1` of the rest. */
  lemma {:induction false} LotShift(lots: seq<Lot>, closed: Side, realized: int, price: int, quantity: int, j: nat)
    requires LotsOn(lots, closed) && 0 < j < |lots|
    ensures var first := lots[0].quantity;
      var later := realized + Gain(closed, first, price, first * lots[0].entry);
      if first <= quantity then
        && (Reaches(lots, quantity, j) <==> Reaches(lots[1..], quantity - first, j - 1))
        && (LotFits(lots, closed, realized, price, quantity, j)
            <==> LotFits(lots[1..], closed, later, price, quantity - first, j - 1))
      else !Reaches(lots, quantity, j)
  {
    hide RealizedAfter, Gain;
    TotalFront(lots, j - 1);
    TotalPrefixNonNegative(lots[1..], closed, j - 1);
    if lots[0].quantity <= quantity {
      RealizedShift(lots, closed, realized, price, quantity, j - 1);
      RealizedShift(lots, closed, realized, price, quantity, j);
    }
  }

  lemma {:induction false} FirstFits(lots: seq<Lot>, closed: Side, realized: int, price: int, quantity: int)
    requires LotsOn(lots, closed) && lots != [] && 0 < quantity
    ensures var first := Min(quantity, lots[0].quantity);
      var gain := Gain(closed, first, price, first * lots[0].entry);
      Reaches(lots, quantity, 0)
      && (LotFits(lots, closed, realized, price, quantity, 0) <==> IsInt64(gain) && IsInt64(realized + gain))
  {
    hide RealizedAfter, Gain;
    FirstRealized(lots, closed, realized, price, quantity);
    assert lots[..0] == [];
  }

  lemma {:induction false} FitsShift(lots: seq<Lot>, closed: Side, realized: int, price: int, quantity: int)
    requires LotsOn(lots, closed) && lots != [] && 0 < quantity
    ensures var first := Min(quantity, lots[0].quantity);
      var gain := Gain(closed, first, price, first * lots[0].entry);
      MatchFits(lots, closed, realized, price, quantity) <==>
        && IsInt64(gain) && IsInt64(realized + gain)
        && (lots[0].quantity <= quantity ==> MatchFits(lots[1..], closed, realized + gain, price, quantity - first))
  {
    hide LotFits, Reaches, Gain, LotsOn;
    var first := Min(quantity, lots[0].quantity);
    var gain := Gain(closed, first, price, first * lots[0].entry);
    var rest := lots[1..];
    FirstFits(lots, closed, realized, price, quantity);
    forall j | 0 < j < |lots|
      ensures lots[0].quantity <= quantity ==>
        && (Reaches(lots, quantity, j) <==> Reaches(rest, quantity - first, j - 1))
        && (LotFits(lots, closed, realized, price, quantity, j)
            <==> LotFits(rest, closed, realized + gain, price, quantity - first, j - 1))
      ensures lots[0].quantity > quantity ==> !Reaches(lots, quantity, j)
    {
      LotShift(lots, closed, realized, price, quantity, j);
    }
    if MatchFits(lots, closed, realized, price, quantity) && lots[0].quantity <= quantity {
      var left, later := quantity - first, realized + gain;
      forall i | 0 <= i < |rest| && Reaches(rest, left, i)
        ensures LotFits(rest, closed, later, price, left, i)
      {
        var j := i + 1;
        assert LotFits(lots, closed, realized, price, quantity, j);
      }
    }
  }

  /** The matching loop is refused exactly when some lot it reaches, or the running total, does not fit. */
  lemma {:induction false} MatchAccepted(m: Matching, side: Side, price: int)
    requires LotsOn(m.lots, Opposite(side)) && 0 <= m.remaining
    ensures MatchLots(m, side, price).Done? <==> MatchFits(m.lots, Opposite(side), m.realized, price, m.remaining)
    decreases |m.lots|
  {
    hide MatchFits, Gain;
    var closed := Opposite(side);
    if m.lots == [] || m.remaining == 0 {
      FitsNothing(m.lots, closed, m.realized, price, m.remaining);
    } else {
      var lot := m.lots[0];
      var first := Min(m.remaining, lot.quantity);
      FitsShift(m.lots, closed, m.realized, price, m.remaining);
      FrontPnl(lot, closed, price, first);
      if MatchFront(m, price).Done? {
        var next := MatchFront(m, price).value;
        if lot.quantity <= m.remaining {
          MatchAccepted(next, side, price);
        } else {
          assert MatchLots(next, side, price) == Done(next);
        }
      }
    }
  }

  lemma {:induction false} FrontPnl(lot: Lot, closed: Side, price: int, quantity: int)
    requires lot.side == closed
    ensures MatchedPnl(lot, price, quantity) == Gain(closed, quantity, price, quantity * lot.entry)
  {
    Reduced(price, lot.entry, quantity);
    Reduced(lot.entry, price, quantity);
  }

  lemma {:induction false} FitsNothing(lots: seq<Lot>, closed: Side, realized: int, price: int, quantity: int)
    requires LotsOn(lots, closed) && (lots == [] || quantity == 0)
    ensures MatchFits(lots, closed, realized, price, quantity)
  {
    forall j | 0 <= j < |lots|
      ensures quantity == 0 ==> !Reaches(lots, quantity, j)
    {
      TotalPrefixNonNegative(lots, closed, j);
    }
  }

  // ---- Fills ----

  predicate ValidFill(fill: Fill) {
    0 <= fill.price && 0 < fill.quantity && 0 <= fill.fee
  }

  function SignedFill(fill: Fill): int {
    if fill.side.Buy? then fill.quantity else -fill.quantity
  }

  /** Every exact amount a fill leads to fits 64 bits. */
  predicate FillFits(a: Account, fill: Fill) {
    var notional := fill.price * fill.quantity;
    var traded := if fill.side.Buy? then a.cash - notional else a.cash + notional;
    && IsInt64(notional) && IsInt64(traded) && IsInt64(traded - fill.fee)
    && (LotsOn(a.lots, Opposite(fill.side)) ==>
      MatchFits(a.lots, Opposite(fill.side), a.realized, fill.price, fill.quantity))
    && IsInt64(a.fees + fill.fee) && IsInt64(a.turnover + notional)
    && IsInt64(NetQuantity(a.lots) + SignedFill(fill))
  }

  lemma {:induction false} LotAccepted(a: Account, fill: Fill)
    requires OneSided(a.lots) && 0 < fill.quantity
    ensures ApplyLot(a.lots, a.realized, fill).Done? <==>
      (LotsOn(a.lots, Opposite(fill.side)) ==>
        MatchFits(a.lots, Opposite(fill.side), a.realized, fill.price, fill.quantity))
    ensures ApplyLot(a.lots, a.realized, fill).Done? ==>
      NetQuantity(ApplyLot(a.lots, a.realized, fill).value.lots) == NetQuantity(a.lots) + SignedFill(fill)
  {
    hide MatchFits, Gain, FrontCost, DropUnits;
    var m := Matching(a.lots, a.realized, fill.quantity);
    if LotsOn(a.lots, Opposite(fill.side)) {
      MatchAccepted(m, fill.side, fill.price);
      if MatchLots(m, fill.side, fill.price).Done? {
        ClosingNet(m, fill.side, fill.price);
      }
    } else {
      OpeningNet(a.lots, fill);
    }
  }

  lemma {:induction false} NetAppend(lots: seq<Lot>, last: Lot)
    ensures NetQuantity(lots + [last]) == NetQuantity(lots) + SignedQuantity(last)
  {
    assert (lots + [last])[..|lots|] == lots;
  }

  lemma {:induction false} OpeningNet(lots: seq<Lot>, fill: Fill)
    requires LotsOn(lots, fill.side) && lots != [] && 0 < fill.quantity
    ensures MatchLots(Matching(lots, 0, fill.quantity), fill.side, fill.price).Done?
    ensures NetQuantity(lots + [Lot(fill.side, fill.quantity, fill.price)]) == NetQuantity(lots) + SignedFill(fill)
  {
    NetAppend(lots, Lot(fill.side, fill.quantity, fill.price));
    assert lots[0].side == fill.side;
  }

  lemma {:induction false} ClosingNet(m: Matching, side: Side, price: int)
    requires LotsOn(m.lots, Opposite(side)) && 0 < m.remaining && MatchLots(m, side, price).Done?
    ensures var r := MatchLots(m, side, price).value;
      var lots := if r.remaining > 0 then r.lots + [Lot(side, r.remaining, price)] else r.lots;
      NetQuantity(lots) == NetQuantity(m.lots) + if side.Buy? then m.remaining else -m.remaining
  {
    hide MatchLots, Gain, FrontCost, DropUnits, TotalOf, NetQuantity;
    var closed := Opposite(side);
    MatchExact(m, side, price);
    var r := MatchLots(m, side, price).value;
    TotalNonNegative(m.lots, closed);
    DropKeepsSide(m.lots, closed, m.remaining);
    NetIsTotal(m.lots, closed);
    NetIsTotal(r.lots, closed);
    if r.remaining > 0 {
      NetAppend(r.lots, Lot(side, r.remaining, price));
    }
  }

  /** All or nothing, both halves: a fill is booked if and only if it is valid, its id is new and every exact
      amount fits 64 bits; otherwise the exception says which of these failed. */
  lemma {:induction false} FillAccepted(a: Account, fill: Fill)
    requires OneSided(a.lots)
    ensures FillAccount(a, fill).Done? <==> ValidFill(fill) && fill.sequence !in a.applied && FillFits(a, fill)
    ensures FillAccount(a, fill).Threw? ==>
      if !ValidFill(fill) then FillAccount(a, fill).error.InvalidArgument?
      else FillAccount(a, fill).error
           == if fill.sequence in a.applied then InvalidArgument(DuplicateFill) else OverflowError
  {
    hide MatchFits, ApplyLot, NetQuantity, OneSided, LotsOn;
    if ValidFill(fill) && fill.sequence !in a.applied {
      LotAccepted(a, fill);
      LotOverflow(a, fill);
    }
  }

  lemma {:induction false} LotOverflow(a: Account, fill: Fill)
    ensures ApplyLot(a.lots, a.realized, fill).Threw? ==> ApplyLot(a.lots, a.realized, fill).error == OverflowError
  {
    MatchOverflow(Matching(a.lots, a.realized, fill.quantity), fill.side, fill.price);
  }

  lemma {:induction false} MatchOverflow(m: Matching, side: Side, price: int)
    ensures MatchLots(m, side, price).Threw? ==> MatchLots(m, side, price).error == OverflowError
    decreases |m.lots|, if m.remaining > 0 then 1 else 0
  {
    if m.remaining > 0 && m.lots != [] && m.lots[0].side == Opposite(side) {
      var next := MatchFront(m, price);
      if next.Done? {
        MatchOverflow(next.value, side, price);
      }
    }
  }

  /** No fill is ever booked twice: after any accepted fills, a fill with one of their ids is refused. */
  lemma {:induction false} DuplicateRefused(initialCash: int, fills: seq<Fill>, i: nat, fill: Fill)
    requires Replay(initialCash, fills).Done? && i < |fills| && fill.sequence == fills[i].sequence && ValidFill(fill)
    ensures FillAccount(Replay(initialCash, fills).value, fill) == Threw(InvalidArgument(DuplicateFill))
  {
    hide Replay, Accounted;
    LedgerRecordsHistory(initialCash, fills, i);
  }

  // ---- Fill histories ----

  lemma {:induction false} ReachableOneSided(initialCash: int, fills: seq<Fill>)
    requires Replay(initialCash, fills).Done?
    ensures OneSided(Replay(initialCash, fills).value.lots)
  {
    hide Replay, ClosedForm, DealsOn, OneSided;
    FifoRefinesUnits(initialCash, fills);
    CashBalance(initialCash, DealsOn(fills, Buy), DealsOn(fills, Sell), Replay(initialCash, fills).value);
  }

  /** After any accepted fills the next one is accepted if and only if it is valid, new, and fits. */
  lemma {:induction false} NextFillAccepted(initialCash: int, fills: seq<Fill>, fill: Fill)
    requires Replay(initialCash, fills).Done?
    ensures Replay(initialCash, fills + [fill]).Done? <==>
      && ValidFill(fill) && (forall i :: 0 <= i < |fills| ==> fills[i].sequence != fill.sequence)
      && FillFits(Replay(initialCash, fills).value, fill)
  {
    hide FillAccount, FillFits, OneSided;
    ReachableOneSided(initialCash, fills);
    var a := Replay(initialCash, fills).value;
    FillAccepted(a, fill);
    assert (fills + [fill])[..|fills|] == fills;
    AppliedIds(initialCash, fills);
  }

  lemma {:induction false} AppliedIds(initialCash: int, fills: seq<Fill>)
    requires Replay(initialCash, fills).Done?
    ensures |Replay(initialCash, fills).value.applied| == |fills|
    ensures forall i :: 0 <= i < |fills| ==> Replay(initialCash, fills).value.applied[i] == fills[i].sequence
  {
    hide Replay;
    LedgerLength(initialCash, fills);
    forall i | 0 <= i < |fills|
      ensures Replay(initialCash, fills).value.applied[i] == fills[i].sequence
    {
      LedgerRecordsHistory(initialCash, fills, i);
    }
  }

  function FeeTotal(fills: seq<Fill>): int {
    if fills == [] then 0 else FeeTotal(fills[..|fills| - 1]) + fills[|fills| - 1].fee
  }

  function TotalNotional(fills: seq<Fill>): int {
    if fills == [] then 0
    else TotalNotional(fills[..|fills| - 1]) + fills[|fills| - 1].price * fills[|fills| - 1].quantity
  }

  function TotalQuantity(fills: seq<Fill>): int {
    if fills == [] then 0 else TotalQuantity(fills[..|fills| - 1]) + fills[|fills| - 1].quantity
  }

  predicate ValidFills(fills: seq<Fill>) {
    forall k :: 0 <= k < |fills| ==> ValidFill(fills[k])
  }

  function Abs(x: int): int {
    if x < 0 then -x else x
  }

  /** There is room for all the money and all the units that change hands. */
  predicate RoomFor(initialCash: int, fills: seq<Fill>) {
    Abs(initialCash) + TotalNotional(fills) + FeeTotal(fills) <= INT64_MAX && TotalQuantity(fills) <= INT64_MAX
  }

  lemma {:induction false} TotalsNonNegative(fills: seq<Fill>)
    requires ValidFills(fills)
    ensures 0 <= TotalNotional(fills) && 0 <= FeeTotal(fills) && 0 <= TotalQuantity(fills)
  {
    if fills != [] {
      TotalsNonNegative(fills[..|fills| - 1]);
      NonNegativeProduct(fills[|fills| - 1].price, fills[|fills| - 1].quantity);
    }
  }

  lemma {:induction false} NonNegativeProduct(a: int, b: int)
    requires 0 <= a && 0 <= b
    ensures 0 <= a * b
  {
  }

  /** What an account has paid, turned over and holds, from its fills. */
  lemma {:induction false} TotalsOfFills(initialCash: int, fills: seq<Fill>)
    requires Replay(initialCash, fills).Done?
    ensures var a := Replay(initialCash, fills).value;
      && a.fees == FeeTotal(fills) && a.turnover == TotalNotional(fills)
      && ValidFills(fills)
      && Abs(a.cash) <= Abs(initialCash) + TotalNotional(fills) + FeeTotal(fills)
      && Abs(NetQuantity(a.lots)) <= TotalQuantity(fills)
  {
    hide ApplyLot, NetQuantity, OneSided, MatchFits;
    if fills == [] {
      NetOfNothing();
    } else {
      var init, last := fills[..|fills| - 1], fills[|fills| - 1];
      TotalsOfFills(initialCash, init);
      ReachableOneSided(initialCash, init);
      LotAccepted(Replay(initialCash, init).value, last);
      NonNegativeProduct(last.price, last.quantity);
    }
  }

  lemma {:induction false} NetOfNothing()
    ensures NetQuantity([]) == 0
  {
  }

  // ---- Realized PnL is a difference of two notionals ----

  predicate AllNonNegative(units: seq<int>) {
    forall k :: 0 <= k < |units| ==> 0 <= units[k]
  }

  lemma {:induction false} SumPrefixGrows(units: seq<int>, m: nat, n: nat)
    requires AllNonNegative(units) && m <= n <= |units|
    ensures 0 <= SumPrefix(units, m) <= SumPrefix(units, n)
    decreases n
  {
    if n > 0 {
      SumPrefixGrows(units, if m < n then m else n - 1, n - 1);
    }
  }

  predicate DealsPriced(deals: seq<Deal>) {
    forall i :: 0 <= i < |deals| ==> 0 <= deals[i].price
  }

  lemma {:induction false} UnitsPriced(deals: seq<Deal>)
    requires DealsPriced(deals)
    ensures AllNonNegative(UnitsOf(deals))
  {
    if deals != [] {
      UnitsPriced(deals[..|deals| - 1]);
    }
  }

  lemma {:induction false} DealsOfValid(fills: seq<Fill>, side: Side)
    requires ValidFills(fills)
    ensures DealsOk(DealsOn(fills, side)) && DealsPriced(DealsOn(fills, side))
  {
    if fills != [] {
      DealsOfValid(fills[..|fills| - 1], side);
    }
  }

  lemma {:induction false} NotionalSplit(fills: seq<Fill>)
    ensures Notional(DealsOn(fills, Buy)) + Notional(DealsOn(fills, Sell)) == TotalNotional(fills)
  {
    if fills != [] {
      var init, last := fills[..|fills| - 1], fills[|fills| - 1];
      NotionalSplit(init);
      var deals := DealsOn(init, last.side);
      var deal := Deal(last.price, last.quantity, last.fee);
      assert (deals + [deal])[..|deals|] == deals;
      assert DealsOn(fills, Opposite(last.side)) == DealsOn(init, Opposite(last.side));
    }
  }

  /** What the lots of the longer side cost, unit by unit. */
  function CostUpTo(own: seq<Deal>, other: seq<Deal>, m: nat): int
    requires Quantity(own) + m <= |UnitsOf(other)| && 0 <= Quantity(own)
  {
    SumPrefix(UnitsOf(other), Quantity(own) + m)
  }

  lemma {:induction false} SumPrefixTail(units: seq<int>, n: nat, m: nat)
    requires n + m <= |units|
    ensures SumPrefix(units[n..], m) == SumPrefix(units, n + m) - SumPrefix(units, n)
  {
    assert units[..n] + units[n..] == units;
    SumPrefixSplit(units[..n], units[n..], m);
    SumPrefixSame(units[..n], units, n);
  }

  /** While a fill is matched, the realized PnL is what the own side has dealt for so far, against the cost
      of as many units of the other. */
  lemma {:induction false} RealizedIsDifference(own: seq<Deal>, other: seq<Deal>, side: Side, price: int,
      quantity: int, j: nat)
    requires DealsOk(own) && DealsOk(other) && 0 < quantity && 0 <= Quantity(own) < Quantity(other)
    requires j <= |OpenLots(own, other, side)|
    ensures var lots := OpenLots(own, other, side);
      var m := Min(quantity, TotalOf(lots[..j]));
      && 0 <= m <= quantity && Quantity(own) + m <= |UnitsOf(other)|
      && RealizedAfter(lots, Opposite(side), Pnl(own, other, side), price, quantity, j)
         == if side.Sell? then Notional(own) + m * price - CostUpTo(own, other, m)
            else CostUpTo(own, other, m) - Notional(own) - m * price
  {
    hide LotsOf, LotsOn, DropUnits, Quantity, UnitsOf, Notional, FrontCost, PairPnl, SumPrefix, DealsOk, TotalOf, Units;
    var closed := Opposite(side);
    var all := LotsOf(other, closed);
    var lots := OpenLots(own, other, side);
    LotsOfDeals(own, side);
    LotsOfDeals(other, side);
    LotsOfDeals(other, closed);
    QuantityNonNegative(own);
    DropKeepsSide(all, closed, Quantity(own));
    UnitsDrop(all, closed, Quantity(own));
    TotalPrefixNonNegative(lots, closed, j);
    TotalPrefixBound(lots, closed, j);
    var m := Min(quantity, TotalOf(lots[..j]));
    UnitsTotal(lots, closed);
    FrontCostIsSum(lots, closed, m);
    SumPrefixTail(UnitsOf(other), Quantity(own), m);
    var n := Quantity(own);
    PairPnlIsDifference(UnitsOf(own), UnitsOf(other), n);
    PairPnlIsDifference(UnitsOf(other), UnitsOf(own), n);
    FrontOfDeals(own, side, n);
  }

  lemma {:induction false} TotalPrefixBound(lots: seq<Lot>, side: Side, j: nat)
    requires LotsOn(lots, side) && j <= |lots|
    ensures TotalOf(lots[..j]) <= TotalOf(lots)
  {
    if j == 0 {
      TotalNonNegative(lots, side);
      assert lots[..0] == [];
    } else {
      TotalPrefixBound(lots[1..], side, j - 1);
      TotalFront(lots, j - 1);
    }
  }

  lemma {:induction false} MatchedGrows(lots: seq<Lot>, side: Side, quantity: int, j: nat)
    requires LotsOn(lots, side) && j < |lots|
    ensures TotalOf(lots[..j]) <= TotalOf(lots[..j + 1])
  {
    TotalPrefixBound(lots[..j + 1], side, j);
    assert lots[..j + 1][..j] == lots[..j];
  }

  lemma {:induction false} ScaledBound(price: int, m: int, n: int, quantity: int)
    requires 0 <= price && 0 <= m <= n <= quantity
    ensures 0 <= m * price <= n * price <= price * quantity
  {
  }

  /** Whatever lots a fill closes, no realized amount exceeds the notional dealt on either side. */
  lemma {:induction false} MatchFitsBounded(own: seq<Deal>, other: seq<Deal>, side: Side, price: int, quantity: int)
    requires DealsOk(own) && DealsOk(other) && DealsPriced(own) && DealsPriced(other)
    requires 0 < quantity && 0 <= price && 0 <= Quantity(own) < Quantity(other)
    requires LotsOn(OpenLots(own, other, side), Opposite(side))
    requires Notional(own) + Notional(other) + price * quantity <= INT64_MAX
    ensures MatchFits(OpenLots(own, other, side), Opposite(side), Pnl(own, other, side), price, quantity)
  {
    hide OpenLots, Pnl, LotsOn, Quantity, UnitsOf, Notional, SumPrefix, DealsOk, DealsPriced, RealizedAfter;
    hide CostUpTo, TotalOf;
    var lots := OpenLots(own, other, side);
    NotionalBound(own);
    NotionalBound(other);
    forall j | 0 <= j < |lots|
      ensures LotFits(lots, Opposite(side), Pnl(own, other, side), price, quantity, j)
    {
      RealizedIsDifference(own, other, side, price, quantity, j);
      RealizedIsDifference(own, other, side, price, quantity, j + 1);
      MatchedGrows(lots, Opposite(side), quantity, j);
      var m, n := Min(quantity, TotalOf(lots[..j])), Min(quantity, TotalOf(lots[..j + 1]));
      ScaledBound(price, m, n, quantity);
      CostBound(own, other, m, n);
    }
  }

  lemma {:induction false} NotionalBound(deals: seq<Deal>)
    requires DealsPriced(deals) && DealsOk(deals)
    ensures 0 <= Notional(deals)
  {
    if deals != [] {
      NotionalBound(deals[..|deals| - 1]);
      NonNegativeProduct(deals[|deals| - 1].price, deals[|deals| - 1].quantity);
    }
  }

  lemma {:induction false} CostBound(own: seq<Deal>, other: seq<Deal>, m: nat, n: nat)
    requires DealsOk(other) && DealsPriced(other) && 0 <= Quantity(own) && m <= n
    requires Quantity(own) + n <= |UnitsOf(other)|
    ensures 0 <= CostUpTo(own, other, m) <= CostUpTo(own, other, n) <= Notional(other)
  {
    hide UnitsOf, Notional, SumPrefix, FrontCost, LotsOf;
    var units := UnitsOf(other);
    UnitsPriced(other);
    LotsOfDeals(other, Buy);
    FrontOfDeals(other, Buy, Quantity(other));
    SumPrefixGrows(units, Quantity(own) + m, Quantity(own) + n);
    SumPrefixGrows(units, Quantity(own) + n, |units|);
  }

  lemma {:induction false} NextMatchFits(initialCash: int, fills: seq<Fill>, fill: Fill)
    requires Replay(initialCash, fills).Done? && ValidFills(fills) && ValidFill(fill)
    requires TotalNotional(fills) + fill.price * fill.quantity <= INT64_MAX
    ensures var a := Replay(initialCash, fills).value;
      LotsOn(a.lots, Opposite(fill.side)) ==>
        MatchFits(a.lots, Opposite(fill.side), a.realized, fill.price, fill.quantity)
  {
    hide Replay, DealsOn, OpenLots, Pnl, Quantity, Notional, FeesOf, MatchFits, DealsOk, DealsPriced;
    hide TotalNotional, ValidFills;
    var a := Replay(initialCash, fills).value;
    var own, other := DealsOn(fills, fill.side), DealsOn(fills, Opposite(fill.side));
    FifoRefinesUnits(initialCash, fills);
    DealsOfValid(fills, Buy);
    DealsOfValid(fills, Sell);
    NotionalSplit(fills);
    OpenLotsSymmetric(own, other, fill.side);
    PnlSymmetric(DealsOn(fills, Buy), DealsOn(fills, Sell));
    QuantityNonNegative(own);
    if LotsOn(a.lots, Opposite(fill.side)) {
      if Quantity(own) < Quantity(other) {
        MatchFitsBounded(own, other, fill.side, fill.price, fill.quantity);
      } else {
        NothingOpen(own, other, fill.side);
        FitsNothing(a.lots, Opposite(fill.side), a.realized, fill.price, fill.quantity);
      }
    }
  }

  /** If the own side has dealt at least as much, no lot of the other side is open. */
  lemma {:induction false} NothingOpen(own: seq<Deal>, other: seq<Deal>, side: Side)
    requires DealsOk(own) && DealsOk(other) && Quantity(own) >= Quantity(other)
    requires LotsOn(OpenLots(own, other, side), Opposite(side))
    ensures OpenLots(own, other, side) == []
  {
    LotsOfDeals(own, side);
    DropKeepsSide(LotsOf(own, side), side, Quantity(other));
    OneSideOnly(OpenLots(own, other, side), side);
  }

  lemma {:induction false} OneSideOnly(lots: seq<Lot>, side: Side)
    ensures lots == [] || !LotsOn(lots, side) || !LotsOn(lots, Opposite(side))
  {
    assert lots == [] || lots[0].side == side || lots[0].side == Opposite(side);
  }

  predicate DistinctSequences(fills: seq<Fill>) {
    forall i, j :: 0 <= i < j < |fills| ==> fills[i].sequence != fills[j].sequence
  }

  /** Ordinary trading is never refused: valid fills with distinct ids are all accepted as long as the
      initial cash, everything paid for and all fees together fit 64 bits, and so does the quantity dealt. */
  lemma {:induction false} ReplayAccepted(initialCash: int, fills: seq<Fill>)
    requires ValidFills(fills) && DistinctSequences(fills) && RoomFor(initialCash, fills)
    ensures Replay(initialCash, fills).Done?
  {
    hide Replay, FillFits, RoomFor, TotalNotional, FeeTotal, TotalQuantity;
    if fills == [] {
      ReplayOfNothing(initialCash);
    } else {
      var init, last := fills[..|fills| - 1], fills[|fills| - 1];
      assert fills == init + [last];
      NonNegativeProduct(last.price, last.quantity);
      RoomShrinks(initialCash, init, last);
      ReplayAccepted(initialCash, init);
      TotalsOfFills(initialCash, init);
      TotalsNonNegative(init);
      NextMatchFits(initialCash, init, last);
      LastFits(initialCash, init, last);
      NextFillAccepted(initialCash, init, last);
    }
  }

  lemma {:induction false} RoomShrinks(initialCash: int, fills: seq<Fill>, fill: Fill)
    requires RoomFor(initialCash, fills + [fill]) && ValidFill(fill)
    ensures RoomFor(initialCash, fills)
    ensures Abs(initialCash) + TotalNotional(fills) + FeeTotal(fills) + fill.price * fill.quantity + fill.fee <= INT64_MAX
    ensures TotalQuantity(fills) + fill.quantity <= INT64_MAX
  {
    assert (fills + [fill])[..|fills|] == fills;
    NonNegativeProduct(fill.price, fill.quantity);
  }

  lemma {:induction false} ReplayOfNothing(initialCash: int)
    ensures Replay(initialCash, []).Done?
  {
  }

  lemma {:induction false} LastFits(initialCash: int, fills: seq<Fill>, fill: Fill)
    requires Replay(initialCash, fills).Done? && ValidFill(fill) && 0 <= TotalNotional(fills) && 0 <= FeeTotal(fills)
    requires var a := Replay(initialCash, fills).value;
      && a.fees == FeeTotal(fills) && a.turnover == TotalNotional(fills)
      && Abs(a.cash) <= Abs(initialCash) + TotalNotional(fills) + FeeTotal(fills)
      && Abs(NetQuantity(a.lots)) <= TotalQuantity(fills)
      && (LotsOn(a.lots, Opposite(fill.side)) ==>
        MatchFits(a.lots, Opposite(fill.side), a.realized, fill.price, fill.quantity))
    requires Abs(initialCash) + TotalNotional(fills) + FeeTotal(fills) + fill.price * fill.quantity + fill.fee <= INT64_MAX
    requires TotalQuantity(fills) + fill.quantity <= INT64_MAX
    ensures FillFits(Replay(initialCash, fills).value, fill)
  {
    hide Replay, MatchFits, LotsOn, TotalNotional, FeeTotal, TotalQuantity, NetQuantity;
    NonNegativeProduct(fill.price, fill.quantity);
  }

  // ---- Marks ----

  predicate TwoSided(book: Book) {
    book.bids != [] && book.asks != [] && book.bids[0].price <= book.asks[0].price
  }

  /** The exact unrealized PnL, doubled, of some lots at a doubled midpoint. */
  function Unrealized(lots: seq<Lot>, midX2: int): int {
    NetQuantity(lots) * midX2 - 2 * OpenCost(lots)
  }

  /** The unrealized PnL of lot `k` and of the lots up to and including it fit 64 bits. */
  predicate LotMarkFits(lots: seq<Lot>, midX2: int, k: nat)
    requires k < |lots|
  {
    && IsInt64(SignedQuantity(lots[k]) * (midX2 - 2 * lots[k].entry))
    && IsInt64(Unrealized(lots[..k + 1], midX2))
  }

  predicate UnrealizedFits(lots: seq<Lot>, midX2: int) {
    forall k :: 0 <= k < |lots| ==> LotMarkFits(lots, midX2, k)
  }

  lemma {:induction false} SignedProductX2(lot: Lot, midX2: int)
    ensures LotUnrealizedX2(lot, midX2) == SignedQuantity(lot) * (midX2 - 2 * lot.entry)
  {
    Negated(lot.quantity, midX2 - 2 * lot.entry);
    Negated(midX2 - 2 * lot.entry, lot.quantity);
  }

  lemma {:induction false} UnrealizedAccepted(lots: seq<Lot>, midX2: int)
    ensures UnrealizedX2(lots, midX2).Done? <==> UnrealizedFits(lots, midX2)
    ensures UnrealizedX2(lots, midX2).Done? ==> UnrealizedX2(lots, midX2).value == Unrealized(lots, midX2)
  {
    hide Unrealized, UnrealizedFits, LotUnrealizedX2, SignedQuantity;
    if lots == [] {
      NothingUnrealized(midX2);
    } else {
      var init, last := lots[..|lots| - 1], lots[|lots| - 1];
      UnrealizedAccepted(init, midX2);
      SignedProductX2(last, midX2);
      UnrealizedMore(lots, midX2);
      FitsMore(lots, midX2);
    }
  }

  lemma {:induction false} FitsMore(lots: seq<Lot>, midX2: int)
    requires lots != []
    ensures UnrealizedFits(lots, midX2) <==>
      && UnrealizedFits(lots[..|lots| - 1], midX2)
      && IsInt64(SignedQuantity(lots[|lots| - 1]) * (midX2 - 2 * lots[|lots| - 1].entry)) && IsInt64(Unrealized(lots, midX2))
  {
    hide Unrealized, SignedQuantity;
    var init, n := lots[..|lots| - 1], |lots| - 1;
    assert lots[..n + 1] == lots;
    assert LotMarkFits(lots, midX2, n)
      <==> IsInt64(SignedQuantity(lots[n]) * (midX2 - 2 * lots[n].entry)) && IsInt64(Unrealized(lots, midX2));
    forall k | 0 <= k < |init|
      ensures LotMarkFits(init, midX2, k) <==> LotMarkFits(lots, midX2, k)
    {
      assert init[k] == lots[k] && init[..k + 1] == lots[..k + 1];
    }
    if UnrealizedFits(init, midX2) && LotMarkFits(lots, midX2, n) {
      forall k | 0 <= k < |lots|
        ensures LotMarkFits(lots, midX2, k)
      {
        assert k < n ==> LotMarkFits(init, midX2, k);
      }
    }
  }

  lemma {:induction false} NothingUnrealized(midX2: int)
    ensures Unrealized([], midX2) == 0 && UnrealizedFits([], midX2)
  {
  }

  lemma {:induction false} UnrealizedMore(lots: seq<Lot>, midX2: int)
    requires lots != []
    ensures Unrealized(lots, midX2) == Unrealized(lots[..|lots| - 1], midX2) + LotUnrealizedX2(lots[|lots| - 1], midX2)
  {
    hide LotUnrealizedX2, SignedQuantity;
    var init, last := lots[..|lots| - 1], lots[|lots| - 1];
    LotUnrealizedExact(last, midX2);
    Distributed(NetQuantity(init), SignedQuantity(last), midX2);
  }

  lemma {:induction false} Distributed(a: int, b: int, c: int)
    ensures (a + b) * c == a * c + b * c
  {
  }

  /** Every exact amount of a mark fits 64 bits. */
  predicate MarkFits(a: Account, book: Book) {
    var inventory := NetQuantity(a.lots);
    var midX2 := if TwoSided(book) then book.bids[0].price + book.asks[0].price else 0;
    var unrealized := if TwoSided(book) then Unrealized(a.lots, midX2) else 0;
    && IsInt64(inventory) && (TwoSided(book) ==> midX2 <= INT64_MAX)
    && (inventory == 0 || TwoSided(book) ==>
      && (TwoSided(book) ==> UnrealizedFits(a.lots, midX2))
      && IsInt64(2 * a.cash) && IsInt64(inventory * midX2) && IsInt64(2 * a.cash + inventory * midX2)
      && IsInt64(2 * a.realized + unrealized - 2 * a.fees))
  }

  /** A mark throws if and only if some exact amount does not fit 64 bits. */
  lemma {:induction false} MarkAccepted(a: Account, book: Book)
    ensures MarkAccount(a, book).Done? <==> MarkFits(a, book)
    ensures MarkAccount(a, book).Threw? ==> MarkAccount(a, book).error == OverflowError
  {
    hide UnrealizedFits, Unrealized, UnrealizedX2, NetQuantity;
    if TwoSided(book) {
      UnrealizedAccepted(a.lots, book.bids[0].price + book.asks[0].price);
      UnrealizedOverflow(a.lots, book.bids[0].price + book.asks[0].price);
    }
  }

  lemma {:induction false} UnrealizedOverflow(lots: seq<Lot>, midX2: int)
    ensures UnrealizedX2(lots, midX2).Threw? ==> UnrealizedX2(lots, midX2).error == OverflowError
  {
    if lots != [] {
      UnrealizedOverflow(lots[..|lots| - 1], midX2);
    }
  }
}
