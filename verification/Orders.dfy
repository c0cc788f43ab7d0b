/** Simulated orders and their lifecycle (order.cpp). */
module Orders {
  import opened Types

  /** The fields of an `Order`; the decision time always equals the submit time, so one is kept. */
  datatype Order = Order(
    id: int,
    side: Side,
    kind: OrderType,
    original: int,
    filled: int,
    submit: int,
    arrival: int,
    limit: Option<int>,
    status: OrderStatus,
    history: seq<OrderStatus>)
  {
    function Remaining(): int {
      original - filled
    }
  }

  predicate ValidTransition(current: OrderStatus, next: OrderStatus) {
    match current
    case New => next.Pending?
    case Pending => next.Acknowledged? || next.Rejected?
    case Acknowledged => next.PartiallyFilled? || next.Filled? || next.Canceled?
    case PartiallyFilled => next.Filled? || next.Canceled?
    case Filled => false
    case Canceled => false
    case Rejected => false
  }

  /** The constructor, with its argument checks in source order. */
  function MakeOrder(id: int, side: Side, kind: OrderType, quantity: int, submit: int, arrival: int,
      limit: Option<int>): Outcome<Order> {
    if quantity < 0 then Threw(InvalidArgument(NegativeQuantity))
    else if quantity == 0 then Threw(InvalidArgument(ZeroQuantity))
    else if limit.Some? && limit.value < 0 then Threw(InvalidArgument(NegativePrice))
    else if kind.Limit? && limit.None? then Threw(InvalidArgument(MissingLimitPrice))
    else Done(Order(id, side, kind, quantity, 0, submit, arrival, limit, New, [New]))
  }

  function Transition(order: Order, next: OrderStatus): Outcome<Order> {
    if ValidTransition(order.status, next)
    then Done(order.(status := next, history := order.history + [next]))
    else Threw(InvalidArgument(InvalidTransition))
  }

  function RecordFill(order: Order, quantity: int): Outcome<Order> {
    if quantity < 0 then Threw(InvalidArgument(NegativeQuantity))
    else if quantity == 0 then Threw(InvalidArgument(ZeroQuantity))
    else if quantity > order.Remaining() then Threw(InvalidArgument(ExceedsRemaining))
    else Done(order.(filled := order.filled + quantity))
  }

  /** A mutable order: the local `Order` variables and `auto&` references of the source. */
  class MutableOrder {
    const id: int
    const side: Side
    const kind: OrderType
    const original: int
    const submit: int
    const arrival: int
    const limit: Option<int>
    var filled: int
    var status: OrderStatus
    var history: seq<OrderStatus>

    constructor (order: Order)
      ensures Value() == order
    {
      id, side, kind, original := order.id, order.side, order.kind, order.original;
      submit, arrival, limit := order.submit, order.arrival, order.limit;
      filled, status, history := order.filled, order.status, order.history;
    }

    function Value(): Order
      reads this
    {
      Order(id, side, kind, original, filled, submit, arrival, limit, status, history)
    }

    method TransitionTo(next: OrderStatus) returns (result: Outcome<()>)
      modifies this
      ensures result.Done? ==> Transition(old(Value()), next) == Done(Value())
      ensures result.Threw? ==> Transition(old(Value()), next) == Threw(result.error) && Value() == old(Value())
    {
      if !ValidTransition(status, next) {
        return Threw(InvalidArgument(InvalidTransition));
      }
      status := next;
      history := history + [next];
      return Done(());
    }

    method RecordFillQuantity(quantity: int) returns (result: Outcome<()>)
      modifies this
      ensures result.Done? ==> RecordFill(old(Value()), quantity) == Done(Value())
      ensures result.Threw? ==> RecordFill(old(Value()), quantity) == Threw(result.error) && Value() == old(Value())
    {
      if quantity < 0 {
        return Threw(InvalidArgument(NegativeQuantity));
      }
      if quantity == 0 {
        return Threw(InvalidArgument(ZeroQuantity));
      }
      if quantity > original - filled {
        return Threw(InvalidArgument(ExceedsRemaining));
      }
      filled := filled + quantity;
      return Done(());
    }
  }

  // ---- Lifecycle facts ----

  predicate IsTerminal(status: OrderStatus) {
    status.Filled? || status.Canceled? || status.Rejected?
  }

  predicate IsResting(status: OrderStatus) {
    status.Acknowledged? || status.PartiallyFilled?
  }

  /** A status history starts at New and follows the transition table. */
  predicate IsPath(history: seq<OrderStatus>) {
    && |history| > 0 && history[0] == New
    && forall i :: 0 < i < |history| ==> ValidTransition(history[i - 1], history[i])
  }

  /** The complete lives of an order. */
  const FULL_LIVES: seq<seq<OrderStatus>> := [
    [New, Pending, Rejected],
    [New, Pending, Acknowledged, Filled],
    [New, Pending, Acknowledged, Canceled],
    [New, Pending, Acknowledged, PartiallyFilled, Filled],
    [New, Pending, Acknowledged, PartiallyFilled, Canceled]]

  predicate IsStart(history: seq<OrderStatus>) {
    history != [] && exists k :: 0 <= k < |FULL_LIVES| && history <= FULL_LIVES[k]
  }

  lemma {:induction false} LifeIsPath(k: nat)
    requires k < |FULL_LIVES|
    ensures IsPath(FULL_LIVES[k])
  {
  }

  /** The table allows exactly the beginnings of these five lives: a terminal status is the last one, and a
      partial fill happens at most once in a history. */
  lemma {:induction false} PathsListed(history: seq<OrderStatus>)
    ensures IsPath(history) <==> IsStart(history)
  {
    if IsStart(history) {
      var k :| 0 <= k < |FULL_LIVES| && history <= FULL_LIVES[k];
      LifeIsPath(k);
    } else if IsPath(history) {
      PathIsStart(history);
    }
  }

  lemma {:induction false} PathIsStart(history: seq<OrderStatus>)
    requires IsPath(history)
    ensures IsStart(history)
  {
    if |history| == 1 {
      assert history <= FULL_LIVES[0];
    } else {
      var init, last := history[..|history| - 1], history[|history| - 1];
      PathIsStart(init);
      var j :| 0 <= j < |FULL_LIVES| && init <= FULL_LIVES[j];
      assert ValidTransition(init[|init| - 1], last);
      var k := match last
        case Rejected => 0
        case Filled => if |init| == 3 then 1 else 3
        case Canceled => if |init| == 3 then 2 else 4
        case PartiallyFilled => 3
        case _ => 1;
      assert history <= FULL_LIVES[k];
    }
  }

  /** What every order of the registry satisfies between two event handlers. */
  predicate OrderOk(o: Order) {
    && 0 < o.original <= INT64_MAX
    && 0 <= o.filled <= o.original
    && (o.kind.Limit? ==> o.limit.Some?)
    && (o.limit.Some? ==> 0 <= o.limit.value)
    && !o.status.New?
    && (o.status.Filled? <==> o.filled == o.original)
    && (o.status.Pending? || o.status.Acknowledged? || o.status.Rejected? ==> o.filled == 0)
    && (o.status.PartiallyFilled? ==> o.filled > 0)
    && IsPath(o.history) && o.history[|o.history| - 1] == o.status
  }

  /** The fields no method of the source changes. */
  predicate SameTerms(a: Order, b: Order) {
    && a.id == b.id && a.side == b.side && a.kind == b.kind && a.original == b.original
    && a.submit == b.submit && a.arrival == b.arrival && a.limit == b.limit
  }

  /** `b` is `a` at some later time. */
  predicate Evolved(a: Order, b: Order) {
    && SameTerms(a, b)
    && a.filled <= b.filled
    && a.history <= b.history
    && (IsTerminal(a.status) ==> a == b)
    && (b.status.Pending? ==> a == b)
    && (IsResting(b.status) ==> IsResting(a.status) || a.status.Pending?)
  }
}
