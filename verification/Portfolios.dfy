/** FIFO portfolio accounting with checked 64-bit results (portfolio.cpp). */
module Portfolios {
  import opened Types
  import opened OrderBooks

  datatype Lot = Lot(side: Side, quantity: int, entry: int)

  datatype LedgerEntry = LedgerEntry(fill: Fill, cash: int, inventory: int, realized: int)

  datatype Account = Account(
    initialCash: int,
    cash: int,
    realized: int,
    fees: int,
    turnover: int,
    lots: seq<Lot>,
    applied: seq<int>,
    ledger: seq<LedgerEntry>)

  datatype Mark = Mark(midX2: Option<int>, unrealizedX2: int, equityX2: int, netX2: int)

  function OpenAccount(initialCash: int): Account {
    Account(initialCash, initialCash, 0, 0, 0, [], [], [])
  }

  /** `checked_to_accounting_amount` / `checked_to_accounting_x2`. */
  function Checked(value: int): Outcome<int> {
    if IsInt64(value) then Done(value) else Threw(OverflowError)
  }

  function ValidateFill(fill: Fill): Outcome<()> {
    if fill.price < 0 then Threw(InvalidArgument(NegativePrice))
    else if fill.quantity < 0 then Threw(InvalidArgument(NegativeQuantity))
    else if fill.quantity == 0 then Threw(InvalidArgument(ZeroQuantity))
    else if fill.fee < 0 then Threw(InvalidArgument(NegativeFee))
    else Done(())
  }

  function SignedQuantity(lot: Lot): int {
    if lot.side.Buy? then lot.quantity else -lot.quantity
  }

  function NetQuantity(lots: seq<Lot>): int {
    if lots == [] then 0 else NetQuantity(lots[..|lots| - 1]) + SignedQuantity(lots[|lots| - 1])
  }

  function Inventory(lots: seq<Lot>): Outcome<int> {
    Checked(NetQuantity(lots))
  }

  function MatchedPnl(lot: Lot, exit: int, quantity: int): int {
    (if lot.side.Buy? then exit - lot.entry else lot.entry - exit) * quantity
  }

  /** A fill being matched: the lots left, the realized PnL and the quantity still to match. */
  datatype Matching = Matching(lots: seq<Lot>, realized: int, remaining: int)

  /** The loop of `apply_buy_lot` (side Buy) and of `apply_sell_lot` (side Sell). */
  function MatchLots(m: Matching, side: Side, price: int): Outcome<Matching>
    decreases |m.lots|, if m.remaining > 0 then 1 else 0
  {
    if m.remaining <= 0 || m.lots == [] || m.lots[0].side != Opposite(side) then Done(m)
    else
      var next :- MatchFront(m, price);
      MatchLots(next, side, price)
  }

  function MatchFront(m: Matching, price: int): (r: Outcome<Matching>)
    requires 0 < m.remaining && m.lots != []
    ensures r.Done? ==> |r.value.lots| < |m.lots| || (|r.value.lots| == |m.lots| && r.value.remaining == 0)
  {
    var lot := m.lots[0];
    var quantity := Min(m.remaining, lot.quantity);
    var pnl :- Checked(MatchedPnl(lot, price, quantity));
    var realized :- Checked(m.realized + pnl);
    var lots := if lot.quantity - quantity == 0 then m.lots[1..] else [lot.(quantity := lot.quantity - quantity)] + m.lots[1..];
    Done(Matching(lots, realized, m.remaining - quantity))
  }

  /** `apply_buy_lot` / `apply_sell_lot`. */
  function ApplyLot(lots: seq<Lot>, realized: int, fill: Fill): Outcome<Matching> {
    var m :- MatchLots(Matching(lots, realized, fill.quantity), fill.side, fill.price);
    Done(if m.remaining > 0 then m.(lots := m.lots + [Lot(fill.side, m.remaining, fill.price)]) else m)
  }

  function FillAccount(a: Account, fill: Fill): Outcome<Account> {
    var _ :- ValidateFill(fill);
    if fill.sequence in a.applied then Threw(InvalidArgument(DuplicateFill)) else Accounted(a, fill)
  }

  /** The arithmetic of a fill that passed the checks. */
  function Accounted(a: Account, fill: Fill): Outcome<Account> {
    var notional :- Checked(fill.price * fill.quantity);
    var traded :- Checked(if fill.side.Buy? then a.cash - notional else a.cash + notional);
    var cash :- Checked(traded - fill.fee);
    var m :- ApplyLot(a.lots, a.realized, fill);
    var fees :- Checked(a.fees + fill.fee);
    var turnover :- Checked(a.turnover + notional);
    var inventory :- Inventory(m.lots);
    Done(Account(a.initialCash, cash, m.realized, fees, turnover, m.lots, a.applied + [fill.sequence],
                 a.ledger + [LedgerEntry(fill, cash, inventory, m.realized)]))
  }

  // ---- Marks ----

  function MarkMid(book: Book): Outcome<Option<int>> {
    if BestBid(book).None? || BestAsk(book).None? || IsCrossed(book) then Done(None) else MidPriceX2(book)
  }

  function LotUnrealizedX2(lot: Lot, midX2: int): int {
    (if lot.side.Buy? then midX2 - lot.entry * 2 else lot.entry * 2 - midX2) * lot.quantity
  }

  function UnrealizedX2(lots: seq<Lot>, midX2: int): Outcome<int> {
    if lots == [] then Done(0)
    else
      var sum :- UnrealizedX2(lots[..|lots| - 1], midX2);
      var last :- Checked(LotUnrealizedX2(lots[|lots| - 1], midX2));
      Checked(sum + last)
  }

  /** `mark_to_market`. */
  function MarkAccount(a: Account, book: Book): Outcome<Option<Mark>> {
    var inventory :- Inventory(a.lots);
    var mid :- MarkMid(book);
    if inventory != 0 && mid.None? then Done(None)
    else
      var unrealized :- if mid.Some? then UnrealizedX2(a.lots, mid.value) else Done(0);
      var cashX2 :- Checked(a.cash * 2);
      var marked :- if mid.Some? then Checked(inventory * mid.value) else Done(0);
      var equity :- Checked(cashX2 + marked);
      var net :- Checked(a.realized * 2 + unrealized - a.fees * 2);
      Done(Some(Mark(mid, unrealized, equity, net)))
  }

  /** `cash_only_mark`. */
  function CashOnlyMark(a: Account): Outcome<Mark> {
    var inventory :- Inventory(a.lots);
    if inventory != 0 then Threw(LogicError)
    else
      var equity :- Checked(a.cash * 2);
      var net :- Checked(a.realized * 2 - a.fees * 2);
      Done(Mark(None, 0, equity, net))
  }

  class Portfolio {
    var initialCash: int
    var cash: int
    var realized: int
    var fees: int
    var turnover: int
    var lots: seq<Lot>
    var applied: seq<int>
    var ledger: seq<LedgerEntry>

    constructor (initialCash: int)
      ensures State() == OpenAccount(initialCash)
    {
      this.initialCash, cash := initialCash, initialCash;
      realized, fees, turnover := 0, 0, 0;
      lots, applied, ledger := [], [], [];
    }

    /** The copy `apply_fill` works on. */
    constructor Copy(a: Account)
      ensures State() == a
    {
      initialCash, cash, realized, fees, turnover := a.initialCash, a.cash, a.realized, a.fees, a.turnover;
      lots, applied, ledger := a.lots, a.applied, a.ledger;
    }

    function State(): Account
      reads this
    {
      Account(initialCash, cash, realized, fees, turnover, lots, applied, ledger)
    }

    /** All or nothing: on an exception every field is as it was. */
    method ApplyFill(fill: Fill) returns (result: Outcome<()>)
      modifies this
      ensures result.Threw? ==> FillAccount(old(State()), fill) == Threw(result.error) && State() == old(State())
      ensures result.Done? ==> FillAccount(old(State()), fill) == Done(State())
    {
      hide ValidateFill, Accounted;
      var _ :- ValidateFill(fill);
      var duplicate := IsDuplicate(fill.sequence);
      if duplicate {
        return Threw(InvalidArgument(DuplicateFill));
      }
      var next := new Portfolio.Copy(State());
      var _ :- next.AccountFor(fill);
      initialCash, cash, realized, fees, turnover := next.initialCash, next.cash, next.realized, next.fees, next.turnover;
      lots, applied, ledger := next.lots, next.applied, next.ledger;
      return Done(());
    }

    /** What `apply_fill` does to the copy; an exception abandons it half done. */
    method AccountFor(fill: Fill) returns (result: Outcome<()>)
      modifies this
      ensures result.Threw? ==> Accounted(old(State()), fill) == Threw(result.error)
      ensures result.Done? ==> Accounted(old(State()), fill) == Done(State())
    {
      hide ApplyLot, Inventory;
      var notional :- Checked(fill.price * fill.quantity);
      cash :- Checked(if fill.side == Buy then cash - notional else cash + notional);
      cash :- Checked(cash - fill.fee);
      var _ :- ApplyLots(fill);
      fees :- Checked(fees + fill.fee);
      turnover :- Checked(turnover + notional);
      applied := applied + [fill.sequence];
      result := RecordLedgerEntry(fill);
    }

    method IsDuplicate(sequence: int) returns (found: bool)
      ensures found == (sequence in applied)
    {
      var i := 0;
      while i < |applied|
        invariant 0 <= i <= |applied|
        invariant sequence !in applied[..i]
      {
        if applied[i] == sequence {
          return true;
        }
        i := i + 1;
      }
      return false;
    }

    /** `apply_buy_lot` and `apply_sell_lot`, which differ in the side they close. */
    method ApplyLots(fill: Fill) returns (result: Outcome<()>)
      modifies this`lots, this`realized
      ensures result.Threw? ==> ApplyLot(old(lots), old(realized), fill) == Threw(result.error)
      ensures result.Done? ==> ApplyLot(old(lots), old(realized), fill).Done?
      ensures result.Done? ==> lots == ApplyLot(old(lots), old(realized), fill).value.lots
      ensures result.Done? ==> realized == ApplyLot(old(lots), old(realized), fill).value.realized
    {
      var remaining := fill.quantity;
      ghost var goal := MatchLots(Matching(lots, realized, remaining), fill.side, fill.price);
      while remaining > 0 && lots != [] && lots[0].side == Opposite(fill.side)
        invariant goal == MatchLots(Matching(lots, realized, remaining), fill.side, fill.price)
        decreases |lots|, if remaining > 0 then 1 else 0
      {
        var lot := lots[0];
        var quantity := Min(remaining, lot.quantity);
        var pnl :- Checked(MatchedPnl(lot, fill.price, quantity));
        realized :- Checked(realized + pnl);
        var left := lot.(quantity := lot.quantity - quantity);
        lots := lots[0 := left];
        remaining := remaining - quantity;
        if left.quantity == 0 {
          lots := lots[1..];
        } else {
          assert lots == [left] + lots[1..];
        }
      }
      if remaining > 0 {
        lots := lots + [Lot(fill.side, remaining, fill.price)];
      }
      return Done(());
    }

    method CurrentInventory() returns (result: Outcome<int>)
      ensures result == Inventory(lots)
    {
      var total := 0;
      var i := 0;
      while i < |lots|
        invariant 0 <= i <= |lots|
        invariant total == NetQuantity(lots[..i])
      {
        assert lots[..i + 1][..i] == lots[..i];
        total := total + SignedQuantity(lots[i]);
        i := i + 1;
      }
      assert lots[..i] == lots;
      return Checked(total);
    }

    method RecordLedgerEntry(fill: Fill) returns (result: Outcome<()>)
      modifies this`ledger
      ensures result.Threw? ==> Inventory(lots) == Threw(result.error)
      ensures result.Done? ==> Inventory(lots).Done?
      ensures result.Done? ==> ledger == old(ledger) + [LedgerEntry(fill, cash, Inventory(lots).value, realized)]
    {
      var inventory :- CurrentInventory();
      ledger := ledger + [LedgerEntry(fill, cash, inventory, realized)];
      return Done(());
    }

    method MarkToMarket(book: OrderBook) returns (result: Outcome<Option<Mark>>)
      ensures result == MarkAccount(State(), book.Value())
    {
      hide Inventory, MarkMid;
      var inventory :- CurrentInventory();
      var mid :- MarkMid(book.Value());
      if inventory != 0 && mid.None? {
        return Done(None);
      }
      var unrealized := 0;
      if mid.Some? {
        var i := 0;
        while i < |lots|
          invariant 0 <= i <= |lots|
          invariant UnrealizedX2(lots[..i], mid.value) == Done(unrealized)
        {
          assert lots[..i + 1][..i] == lots[..i];
          var lot := Checked(LotUnrealizedX2(lots[i], mid.value));
          var sum := if lot.Done? then Checked(unrealized + lot.value) else lot;
          if sum.Threw? {
            UnrealizedThrows(lots, mid.value, i);
            return Threw(OverflowError);
          }
          unrealized := sum.value;
          i := i + 1;
        }
        assert lots[..i] == lots;
      }
      var cashX2 :- Checked(cash * 2);
      var marked := 0;
      if mid.Some? {
        marked :- Checked(inventory * mid.value);
      }
      var equity :- Checked(cashX2 + marked);
      var net :- Checked(realized * 2 + unrealized - fees * 2);
      return Done(Some(Mark(mid, unrealized, equity, net)));
    }
  }

  lemma {:induction false} UnrealizedThrows(lots: seq<Lot>, midX2: int, i: nat)
    requires i < |lots| && UnrealizedX2(lots[..i + 1], midX2) == Threw(OverflowError)
    ensures UnrealizedX2(lots, midX2) == Threw(OverflowError)
  {
    if i == |lots| - 1 {
      assert lots[..i + 1] == lots;
    } else {
      var init := lots[..|lots| - 1];
      assert init[..i + 1] == lots[..i + 1];
      UnrealizedThrows(init, midX2, i);
    }
  }
}
