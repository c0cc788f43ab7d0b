/** Order creation, fees, fills and the sweep of visible depth (execution_simulator.cpp, and the
    aggressive half of a limit arrival in latency_execution.cpp). */
module Simulators {
  import opened Types
  import opened OrderBooks
  import opened Orders

  /** `FeeModel::calculate_fee`, with the 128-bit guard on the numerator. */
  function FeeFor(ppm: int, price: int, quantity: int): Outcome<int>
    requires 0 <= ppm
  {
    if price < 0 then Threw(InvalidArgument(NegativePrice))
    else if quantity < 0 then Threw(InvalidArgument(NegativeQuantity))
    else
      var numerator :- FeeNumerator(ppm, price * quantity);
      if numerator / PPM > INT64_MAX then Threw(OverflowError) else Done(numerator / PPM)
  }

  function FeeNumerator(ppm: int, notional: int): Outcome<int>
    requires 0 <= ppm
  {
    if ppm == 0 then Done(0)
    else if notional > (INT128_MAX - PPM / 2) / ppm then Threw(OverflowError)
    else Done(notional * ppm + PPM / 2)
  }

  function AddLatency(time: int, latency: int): Outcome<int> {
    if latency > UINT64_MAX - time then Threw(OverflowError) else Done(time + latency)
  }

  function OrderFor(id: int, intent: Intent, latency: int): Outcome<Order> {
    var arrival :- AddLatency(intent.decision, latency);
    MakeOrder(id, intent.side, intent.kind, intent.quantity, intent.decision, arrival, intent.limit)
  }

  function FillFor(ppm: int, order: Order, price: int, quantity: int, time: int, sequence: int): Outcome<Fill>
    requires 0 <= ppm
  {
    if price < 0 then Threw(InvalidArgument(NegativePrice))
    else if quantity < 0 then Threw(InvalidArgument(NegativeQuantity))
    else if quantity == 0 then Threw(InvalidArgument(ZeroQuantity))
    else
      var fee :- FeeFor(ppm, price, quantity);
      Done(Fill(order.id, order.side, price, quantity, time, sequence, fee))
  }

  /** A rate applied to a notional, rounded to the nearest unit, halves up. */
  function RoundedRate(ppm: int, notional: int): int {
    (notional * ppm + PPM / 2) / PPM
  }

  /** A fill carries the rounded fee, and is refused for its fee exactly when that does not fit 64 bits:
      the 128-bit guard never refuses a fee that would. */
  lemma {:induction false} FillMeaning(ppm: int, order: Order, price: int, quantity: int, time: int, sequence: int)
    requires 0 <= ppm <= PPM && 0 <= price && 0 < quantity
    ensures var fee := RoundedRate(ppm, price * quantity);
      && FillFor(ppm, order, price, quantity, time, sequence)
         == (if fee <= INT64_MAX then Done(Fill(order.id, order.side, price, quantity, time, sequence, fee)) else Threw(OverflowError))
      && 2 * fee * PPM - PPM <= 2 * price * quantity * ppm < 2 * fee * PPM + PPM
  {
    var notional := price * quantity;
    GuardedRate(ppm, notional);
    assert 2 * price * quantity * ppm == 2 * (notional * ppm);
  }

  lemma {:induction false} GuardedRate(ppm: int, notional: int)
    requires 0 <= ppm <= PPM
    ensures FeeNumerator(ppm, notional).Threw? ==> FeeNumerator(ppm, notional).error == OverflowError && RoundedRate(ppm, notional) > INT64_MAX
    ensures FeeNumerator(ppm, notional).Done? ==> FeeNumerator(ppm, notional).value / PPM == RoundedRate(ppm, notional)
  {
    if ppm > 0 && notional > (INT128_MAX - PPM / 2) / ppm {
      var q := (INT128_MAX - PPM / 2) / ppm;
      assert notional * ppm >= (q + 1) * ppm > INT128_MAX - PPM / 2;
    }
  }

  predicate Allows(side: Side, limit: int, price: int) {
    if side.Buy? then price <= limit else price >= limit
  }

  /** A sweep in progress: the order so far, its fills, the next fill id, and whether a fill
      happened at the limit price itself. */
  datatype Sweep = Sweep(order: Order, fills: seq<Fill>, nextFill: int, atLimit: bool)

  /** The sweep from level `i` on. `bound` is the limit price; a market order has none, and stops as
      soon as it is complete instead of visiting the remaining levels. */
  function SweepFrom(ppm: int, levels: seq<PriceLevel>, bound: Option<int>, acc: Sweep, i: nat): Outcome<Sweep>
    requires 0 <= ppm && i <= |levels|
    decreases |levels| - i
  {
    if i == |levels| then Done(acc)
    else if levels[i].quantity < 0 then Threw(InvalidArgument(NegativeQuantity))
    else if levels[i].quantity == 0 || acc.order.Remaining() == 0 then SweepFrom(ppm, levels, bound, acc, i + 1)
    else if bound.Some? && !Allows(acc.order.side, bound.value, levels[i].price) then Done(acc)
    else
      var next :- SweepLevel(ppm, levels[i], bound, acc);
      if bound.None? && next.order.Remaining() == 0 then Done(next)
      else SweepFrom(ppm, levels, bound, next, i + 1)
  }

  function SweepLevel(ppm: int, level: PriceLevel, bound: Option<int>, acc: Sweep): Outcome<Sweep>
    requires 0 <= ppm
  {
    var quantity := Min(acc.order.Remaining(), level.quantity);
    var fill :- FillFor(ppm, acc.order, level.price, quantity, acc.order.arrival, acc.nextFill);
    var order :- RecordFill(acc.order, quantity);
    Done(Sweep(order, acc.fills + [fill], acc.nextFill + 1, acc.atLimit || bound == Some(level.price)))
  }

  /** The side of the book an order takes liquidity from, best price first. */
  function OppositeDepth(side: Side, book: Book): seq<PriceLevel> {
    LevelsOf(book, Opposite(side))
  }

  datatype Execution = Execution(order: Order, fills: seq<Fill>, nextFill: int)

  function PendingOrder(order: Order): Outcome<Order> {
    if order.status.New? then Transition(order, Pending)
    else if !order.status.Pending? then Threw(InvalidArgument(NotPending))
    else Done(order)
  }

  function MarketExecution(ppm: int, order: Order, book: Book, nextFill: int): Outcome<Execution>
    requires 0 <= ppm
  {
    if !order.kind.Market? then Threw(InvalidArgument(WrongOrderType)) else
    var pending :- PendingOrder(order);
    var depth := OppositeDepth(order.side, book);
    if depth == [] then
      var rejected :- Transition(pending, Rejected);
      Done(Execution(rejected, [], nextFill))
    else
      var acknowledged :- Transition(pending, Acknowledged);
      var swept :- SweepFrom(ppm, depth, None, Sweep(acknowledged, [], nextFill, false), 0);
      var final :- SettleMarket(swept);
      Done(Execution(final, swept.fills, swept.nextFill))
  }

  function SettleMarket(swept: Sweep): Outcome<Order> {
    if swept.fills == [] then Transition(swept.order, Rejected)
    else if swept.order.Remaining() == 0 then Transition(swept.order, Filled)
    else
      var partial :- Transition(swept.order, PartiallyFilled);
      Transition(partial, Canceled)
  }

  function OrderExecution(ppm: int, order: Order, book: Book, nextFill: int): Outcome<Execution>
    requires 0 <= ppm
  {
    var pending :- PendingOrder(order);
    if order.kind.Limit? then
      var rejected :- Transition(pending, Rejected);
      Done(Execution(rejected, [], nextFill))
    else MarketExecution(ppm, pending, book, nextFill)
  }

  class OrderFactory {
    var nextOrderId: int

    constructor ()
      ensures nextOrderId == 1
    {
      nextOrderId := 1;
    }

    /** The id is consumed before the order's own checks run. */
    method CreateOrderFromIntent(intent: Intent, latency: int) returns (result: Outcome<Order>)
      modifies this
      ensures result == OrderFor(old(nextOrderId), intent, latency)
      ensures nextOrderId == old(nextOrderId) + if AddLatency(intent.decision, latency).Done? then 1 else 0
    {
      var arrival :- AddLatency(intent.decision, latency);
      var id := nextOrderId;
      nextOrderId := nextOrderId + 1;
      return MakeOrder(id, intent.side, intent.kind, intent.quantity, intent.decision, arrival, intent.limit);
    }
  }

  class ExecutionSimulator {
    const ppm: int
    const factory: OrderFactory
    var nextFillId: int

    constructor (ppm: int)
      ensures this.ppm == ppm && nextFillId == 1 && fresh(factory) && factory.nextOrderId == 1
    {
      this.ppm := ppm;
      nextFillId := 1;
      factory := new OrderFactory();
    }

    method CreateFill(order: Order, price: int, quantity: int, time: int) returns (result: Outcome<Fill>)
      requires 0 <= ppm
      modifies this
      ensures result == FillFor(ppm, order, price, quantity, time, old(nextFillId))
      ensures nextFillId == old(nextFillId) + if result.Done? then 1 else 0
    {
      if price < 0 {
        return Threw(InvalidArgument(NegativePrice));
      }
      if quantity < 0 {
        return Threw(InvalidArgument(NegativeQuantity));
      }
      if quantity <= 0 {
        return Threw(InvalidArgument(ZeroQuantity));
      }
      var fee :- FeeFor(ppm, price, quantity);
      var fill := Fill(order.id, order.side, price, quantity, time, nextFillId, fee);
      nextFillId := nextFillId + 1;
      return Done(fill);
    }

    method EnsurePendingForExecution(order: MutableOrder) returns (result: Outcome<()>)
      modifies order
      ensures result.Done? ==> PendingOrder(old(order.Value())) == Done(order.Value())
      ensures result.Threw? ==> PendingOrder(old(order.Value())) == Threw(result.error)
    {
      if order.status == New {
        result := order.TransitionTo(Pending);
        return;
      }
      if order.status != Pending {
        return Threw(InvalidArgument(NotPending));
      }
      return Done(());
    }

    method ExecuteOrder(given: Order, book: OrderBook) returns (result: Outcome<Execution>)
      requires 0 <= ppm
      modifies this
      ensures result == OrderExecution(ppm, given, book.Value(), old(nextFillId))
      ensures result.Done? ==> nextFillId == result.value.nextFill
    {
      var order := new MutableOrder(given);
      var _ :- EnsurePendingForExecution(order);
      if order.kind == Limit {
        var rejected := order.TransitionTo(Rejected);
        assert rejected.Done?;
        return Done(Execution(order.Value(), [], nextFillId));
      }
      result := ExecuteMarketOrder(order.Value(), book);
    }

    method ExecuteMarketOrder(given: Order, book: OrderBook) returns (result: Outcome<Execution>)
      requires 0 <= ppm
      modifies this
      ensures result == MarketExecution(ppm, given, book.Value(), old(nextFillId))
      ensures result.Done? ==> nextFillId == result.value.nextFill
    {
      hide SweepFrom, SettleMarket;
      if given.kind != Market {
        return Threw(InvalidArgument(WrongOrderType));
      }
      var order := new MutableOrder(given);
      var _ :- EnsurePendingForExecution(order);
      var side := Opposite(order.side);
      var depth := book.TopLevels(side, |LevelsOf(book.Value(), side)|);
      assert depth == OppositeDepth(given.side, book.Value());
      if depth == [] {
        var rejected := order.TransitionTo(Rejected);
        assert rejected.Done?;
        return Done(Execution(order.Value(), [], nextFillId));
      }
      var acknowledged := order.TransitionTo(Acknowledged);
      assert acknowledged.Done?;
      var fills :- SweepMarket(order, depth);
      var _ :- SettleMarketOrder(order, fills);
      return Done(Execution(order.Value(), fills, nextFillId));
    }

    /** The loop of `execute_market_order`. */
    method SweepMarket(order: MutableOrder, depth: seq<PriceLevel>) returns (result: Outcome<seq<Fill>>)
      requires 0 <= ppm
      modifies this, order
      ensures var goal := SweepFrom(ppm, depth, None, Sweep(old(order.Value()), [], old(nextFillId), false), 0);
        match result
        case Threw(error) => goal == Threw(error)
        case Done(fills) => goal == Done(Sweep(order.Value(), fills, nextFillId, false))
    {
      hide FillFor;
      var fills := [];
      ghost var goal := SweepFrom(ppm, depth, None, Sweep(order.Value(), [], nextFillId, false), 0);
      var index := 0;
      while index < |depth|
        invariant 0 <= index <= |depth|
        invariant goal == SweepFrom(ppm, depth, None, Sweep(order.Value(), fills, nextFillId, false), index)
      {
        var level := depth[index];
        if level.quantity < 0 {
          return Threw(InvalidArgument(NegativeQuantity));
        }
        index := index + 1;
        if level.quantity == 0 || order.original - order.filled == 0 {
          continue;
        }
        var quantity := Min(order.original - order.filled, level.quantity);
        var fill :- CreateFill(order.Value(), level.price, quantity, order.arrival);
        var _ :- order.RecordFillQuantity(quantity);
        fills := fills + [fill];
        if order.original - order.filled == 0 {
          break;
        }
      }
      return Done(fills);
    }

    /** The final transitions of a market order. */
    method SettleMarketOrder(order: MutableOrder, fills: seq<Fill>) returns (result: Outcome<()>)
      modifies order
      ensures var goal := SettleMarket(Sweep(old(order.Value()), fills, nextFillId, false));
        match result
        case Threw(error) => goal == Threw(error)
        case Done(_) => goal == Done(order.Value())
    {
      if fills == [] {
        result := order.TransitionTo(Rejected);
        return;
      }
      if order.original - order.filled == 0 {
        result := order.TransitionTo(Filled);
        return;
      }
      var _ :- order.TransitionTo(PartiallyFilled);
      result := order.TransitionTo(Canceled);
    }
  }
}
