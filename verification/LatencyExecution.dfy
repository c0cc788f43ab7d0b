/** Latency-aware execution: order arrivals, resting orders, trades and cancels
    (latency_execution.cpp). */
module LatencyExecution {
  import opened Types
  import opened OrderBooks
  import opened Orders
  import opened Simulators
  import opened EventLoops

  datatype ActiveOrder = ActiveOrder(id: int, side: Side, limit: int, queue: int, arrival: int)

  datatype ExecConfig = ExecConfig(latency: int, feePpm: int, queuePpm: int)

  predicate ConfigOk(cfg: ExecConfig) {
    0 <= cfg.latency <= UINT64_MAX && 0 <= cfg.feePpm <= PPM && 0 <= cfg.queuePpm <= PPM
  }

  /** The order registry, the active list, the fills so far and the two id counters. */
  datatype Exec = Exec(orders: seq<Order>, active: seq<ActiveOrder>, fills: seq<Fill>, nextOrder: int, nextFill: int)

  const EMPTY_EXEC: Exec := Exec([], [], [], 1, 1)

  /** `QueueFraction::initial_queue_ahead`. */
  function InitialQueue(ppm: int, visible: int): Outcome<int> {
    if visible < 0 then Threw(InvalidArgument(NegativeQuantity))
    else if (visible * ppm + PPM / 2) / PPM > INT64_MAX then Threw(OverflowError)
    else Done((visible * ppm + PPM / 2) / PPM)
  }

  function FindOrder(orders: seq<Order>, id: int, from: nat): (r: Outcome<nat>)
    requires from <= |orders|
    ensures r.Done? ==> from <= r.value < |orders| && orders[r.value].id == id
    decreases |orders| - from
  {
    if from == |orders| then Threw(InvalidArgument(UnknownOrder))
    else if orders[from].id == id then Done(from)
    else FindOrder(orders, id, from + 1)
  }

  function FindActive(active: seq<ActiveOrder>, id: int, from: nat): (r: Outcome<nat>)
    requires from <= |active|
    ensures r.Done? ==> from <= r.value < |active| && active[r.value].id == id
    ensures r.Threw? ==> forall i :: from <= i < |active| ==> active[i].id != id
    decreases |active| - from
  {
    if from == |active| then Threw(InvalidArgument(NotResting))
    else if active[from].id == id then Done(from)
    else FindActive(active, id, from + 1)
  }

  predicate ExactMatch(a: ActiveOrder, trade: MarketEvent)
    requires trade.Trade?
  {
    trade.aggressor == Some(Opposite(a.side)) && trade.price == a.limit
  }

  predicate TradeThrough(a: ActiveOrder, trade: MarketEvent)
    requires trade.Trade?
  {
    trade.aggressor == Some(Opposite(a.side)) && if a.side.Buy? then trade.price < a.limit else trade.price > a.limit
  }

  // ---- Submission ----

  datatype Submitted = Submitted(exec: Exec, request: Request)

  function ArrivalEvent(id: int): InternalEvent {
    InternalEvent(OrderArrival, Some(id))
  }

  function CancelEvent(id: int): InternalEvent {
    InternalEvent(CancelArrival, Some(id))
  }

  function Submit(e: Exec, intent: Intent, latency: int, now: int): Outcome<Submitted> {
    var created :- OrderFor(e.nextOrder, intent, latency);
    var order :- Transition(created, Pending);
    if order.arrival < now then Threw(InvalidArgument(ScheduleInPast))
    else Done(Submitted(e.(orders := e.orders + [order], nextOrder := e.nextOrder + 1),
                        Request(order.arrival, ArrivalEvent(order.id))))
  }

  function CancelRequest(e: Exec, id: int, latency: int, now: int): Outcome<Request> {
    var index :- FindOrder(e.orders, id, 0);
    if !IsResting(e.orders[index].status) then Threw(InvalidArgument(NotResting))
    else
      var _ :- FindActive(e.active, id, 0);
      var time :- AddLatency(now, latency);
      if time < now then Threw(InvalidArgument(ScheduleInPast)) else Done(Request(time, CancelEvent(id)))
  }

  // ---- Arrival ----

  function VisibleAtLimit(order: Order, book: Book): Outcome<int> {
    if order.limit.None? then Threw(InvalidArgument(MissingLimitPrice))
    else if order.limit.value < 0 then Threw(InvalidArgument(NegativePrice))
    else
      var visible := QuantityAt(LevelsOf(book, order.side), order.limit.value);
      Done(if visible.Some? then visible.value else 0)
  }

  function Rest(e: Exec, order: Order, queue: int): Outcome<Exec> {
    if !IsResting(order.status) then Threw(InvalidArgument(NotResting))
    else if order.limit.None? then Threw(InvalidArgument(MissingLimitPrice))
    else if queue < 0 then Threw(InvalidArgument(NegativeQuantity))
    else Done(e.(active := e.active + [ActiveOrder(order.id, order.side, order.limit.value, queue, order.arrival)]))
  }

  /** What an arrival produces besides the new registry: the order as it stands afterwards. */
  datatype Arrived = Arrived(exec: Exec, order: Order, fills: seq<Fill>)

  /** `process_limit_order_arrival`; `exec` of the result has the active list and the fill counter
      updated, the registry not yet. */
  function LimitArrival(cfg: ExecConfig, e: Exec, order: Order, book: Book): Outcome<Arrived>
    requires 0 <= cfg.feePpm
  {
    if !order.kind.Limit? then Threw(InvalidArgument(WrongOrderType))
    else if !order.status.Pending? then Threw(InvalidArgument(NotPending))
    else if order.limit.None? then Threw(InvalidArgument(MissingLimitPrice))
    else
      var acknowledged :- Transition(order, Acknowledged);
      var swept :- SweepFrom(cfg.feePpm, OppositeDepth(order.side, book), order.limit, Sweep(acknowledged, [], e.nextFill, false), 0);
      var after := e.(nextFill := swept.nextFill);
      if swept.order.Remaining() == 0 then
        var filled :- Transition(swept.order, Filled);
        Done(Arrived(after, filled, swept.fills))
      else
        var queue :- if swept.atLimit then Done(0) else QueueAhead(cfg, swept.order, book);
        var resting :- if swept.fills != [] then Transition(swept.order, PartiallyFilled) else Done(swept.order);
        var rested :- Rest(after, resting, queue);
        Done(Arrived(rested, resting, swept.fills))
  }

  function QueueAhead(cfg: ExecConfig, order: Order, book: Book): Outcome<int> {
    var visible :- VisibleAtLimit(order, book);
    InitialQueue(cfg.queuePpm, visible)
  }

  function Arrive(cfg: ExecConfig, e: Exec, order: Order, book: Book): Outcome<Arrived>
    requires 0 <= cfg.feePpm
  {
    if order.kind.Limit? then LimitArrival(cfg, e, order, book)
    else
      var executed :- OrderExecution(cfg.feePpm, order, book, e.nextFill);
      Done(Arrived(e.(nextFill := executed.nextFill), executed.order, executed.fills))
  }

  function ArrivalResult(cfg: ExecConfig, e: Exec, event: Scheduled, book: Book): Outcome<Arrived>
    requires 0 <= cfg.feePpm
  {
    if !event.event.kind.OrderArrival? || event.event.orderId.None? then Threw(InvalidArgument(NotAnArrival))
    else
      var index :- FindOrder(e.orders, event.event.orderId.value, 0);
      if !e.orders[index].status.Pending? then Threw(InvalidArgument(NotPending))
      else if event.timestamp != e.orders[index].arrival then Threw(InvalidArgument(ArrivalMismatch))
      else
        var arrived :- Arrive(cfg, e, e.orders[index], book);
        Done(arrived.(exec := arrived.exec.(orders := e.orders[index := arrived.order], fills := e.fills + arrived.fills)))
  }

  // ---- Cancels ----

  function CancelResult(e: Exec, event: Scheduled): Outcome<Exec> {
    if !event.event.kind.CancelArrival? || event.event.orderId.None? then Threw(InvalidArgument(NotAnArrival))
    else
      var index :- FindOrder(e.orders, event.event.orderId.value, 0);
      if !IsResting(e.orders[index].status) then Threw(InvalidArgument(NotResting))
      else
        var slot :- FindActive(e.active, event.event.orderId.value, 0);
        var canceled :- Transition(e.orders[index], Canceled);
        Done(e.(orders := e.orders[index := canceled], active := RemoveAt(e.active, slot)))
  }

  // ---- Trades ----

  /** A trade being allocated: the execution state and the volume not yet absorbed. */
  datatype Allocation = Allocation(exec: Exec, volume: int)

  function SettlePassive(order: Order): Outcome<Order> {
    if order.Remaining() == 0 then Transition(order, Filled)
    else if order.status.Acknowledged? then Transition(order, PartiallyFilled)
    else Done(order)
  }

  predicate Qualifies(a: ActiveOrder, trade: MarketEvent)
    requires trade.Trade?
  {
    ExactMatch(a, trade) || TradeThrough(a, trade)
  }

  /** The volume still ahead of an entry when a trade reaches it: none if it is traded through. */
  function EffectiveQueue(a: ActiveOrder, trade: MarketEvent): int
    requires trade.Trade?
  {
    if TradeThrough(a, trade) then 0 else a.queue
  }

  /** Volume first consumes the queue ahead of entry `i`. */
  function ConsumeQueue(run: Allocation, i: nat, trade: MarketEvent): (queued: Allocation)
    requires trade.Trade? && i < |run.exec.active|
    ensures |queued.exec.active| == |run.exec.active|
  {
    var a := run.exec.active[i];
    var queue := EffectiveQueue(a, trade);
    var consumed := Min(queue, run.volume);
    Allocation(run.exec.(active := run.exec.active[i := a.(queue := queue - consumed)]), run.volume - consumed)
  }

  /** The loop body of `process_trade` for active entry `i`. */
  function AllocateOne(cfg: ExecConfig, run: Allocation, i: nat, trade: MarketEvent): Outcome<Allocation>
    requires 0 <= cfg.feePpm && trade.Trade? && i < |run.exec.active|
  {
    if !Qualifies(run.exec.active[i], trade) then Done(run)
    else
      var index :- FindOrder(run.exec.orders, run.exec.active[i].id, 0);
      if !IsResting(run.exec.orders[index].status) then Done(run)
      else
        var queued := ConsumeQueue(run, i, trade);
        if queued.volume == 0 || queued.exec.active[i].queue > 0 then Done(queued)
        else FillPassive(cfg, queued.exec, i, index, trade, queued.volume)
  }

  /** The fill an active entry takes once its queue is exhausted. */
  function FillPassive(cfg: ExecConfig, e: Exec, i: nat, index: nat, trade: MarketEvent,
      left: int): (r: Outcome<Allocation>)
    requires 0 <= cfg.feePpm && trade.Trade? && i < |e.active| && index < |e.orders|
    ensures r.Done? ==> |r.value.exec.active| == |e.active|
  {
    var a := e.active[i];
    var order := e.orders[index];
    var quantity := Min(order.Remaining(), left);
    if quantity == 0 then Done(Allocation(e, left))
    else
      var fill :- FillFor(cfg.feePpm, order, a.limit, quantity, trade.key.timestamp, e.nextFill);
      var recorded :- RecordFill(order, quantity);
      var settled :- SettlePassive(recorded);
      var active := if recorded.Remaining() == 0 then e.active[i := a.(queue := 0)] else e.active;
      Done(Allocation(Exec(e.orders[index := settled], active, e.fills + [fill], e.nextOrder, e.nextFill + 1), left - quantity))
  }

  /** The loop of `process_trade` from entry `i` on; it stops as soon as the volume is used up. */
  function AllocateFrom(cfg: ExecConfig, run: Allocation, i: nat, trade: MarketEvent): Outcome<Allocation>
    requires 0 <= cfg.feePpm && trade.Trade? && i <= |run.exec.active|
    decreases |run.exec.active| - i
  {
    if i == |run.exec.active| || run.volume == 0 then Done(run)
    else
      var next :- AllocateOne(cfg, run, i, trade);
      AllocateFrom(cfg, next, i + 1, trade)
  }

  /** The `remove_if` that ends `process_trade`. */
  function Retained(orders: seq<Order>, active: seq<ActiveOrder>): Outcome<seq<ActiveOrder>> {
    if active == [] then Done([])
    else
      var last := active[|active| - 1];
      var kept :- Retained(orders, active[..|active| - 1]);
      var index :- FindOrder(orders, last.id, 0);
      Done(if IsTerminal(orders[index].status) then kept else kept + [last])
  }

  function TradeResult(cfg: ExecConfig, e: Exec, trade: MarketEvent): Outcome<Exec>
    requires 0 <= cfg.feePpm && trade.Trade?
  {
    if trade.quantity < 0 then Threw(InvalidArgument(NegativeQuantity))
    else if trade.price < 0 then Threw(InvalidArgument(NegativePrice))
    else if trade.quantity == 0 || trade.aggressor.None? then Done(e)
    else
      var run :- AllocateFrom(cfg, Allocation(e, trade.quantity), 0, trade);
      var kept :- Retained(run.exec.orders, run.exec.active);
      Done(run.exec.(active := kept))
  }

  /** The execution component as the engine holds it. What an exception leaves half done is not
      specified: the engine abandons the run. */
  class LatencyAwareExecution {
    const config: ExecConfig
    const sim: ExecutionSimulator
    var orders: seq<Order>
    var active: seq<ActiveOrder>
    var fills: seq<Fill>

    constructor (config: ExecConfig)
      ensures this.config == config && sim.ppm == config.feePpm
      ensures fresh(sim) && fresh(sim.factory)
      ensures State() == EMPTY_EXEC
    {
      this.config := config;
      sim := new ExecutionSimulator(config.feePpm);
      orders, active, fills := [], [], [];
    }

    function State(): Exec
      reads this, sim, sim.factory
    {
      Exec(orders, active, fills, sim.factory.nextOrderId, sim.nextFillId)
    }

    method FindOrderIndex(id: int) returns (result: Outcome<nat>)
      ensures result == FindOrder(orders, id, 0)
    {
      var index := 0;
      while index < |orders|
        invariant 0 <= index <= |orders|
        invariant FindOrder(orders, id, 0) == FindOrder(orders, id, index)
      {
        if orders[index].id == id {
          return Done(index);
        }
        index := index + 1;
      }
      return Threw(InvalidArgument(UnknownOrder));
    }

    method FindActiveLimitOrderIndex(id: int) returns (result: Outcome<nat>)
      ensures result == FindActive(active, id, 0)
    {
      var index := 0;
      while index < |active|
        invariant 0 <= index <= |active|
        invariant FindActive(active, id, 0) == FindActive(active, id, index)
      {
        if active[index].id == id {
          return Done(index);
        }
        index := index + 1;
      }
      return Threw(InvalidArgument(NotResting));
    }

    method SubmitOrderIntent(intent: Intent, latency: int, loop: EventLoop) returns (result: Outcome<Scheduled>)
      requires loop.Valid()
      modifies this, sim, sim.factory, loop`scheduled, loop.scheduler
      ensures loop.Valid()
      ensures result.Threw? ==> Submit(old(State()), intent, latency, loop.clock.now) == Threw(result.error)
      ensures result.Done? ==>
        Submit(old(State()), intent, latency, loop.clock.now)
        == Done(Submitted(State(), Request(result.value.timestamp, result.value.event)))
      ensures result.Done? ==> result.value.sequence == old(|loop.scheduled|)
      ensures result.Done? ==> loop.scheduler.queue == old(loop.scheduler.queue) + [result.value]
      ensures result.Done? ==> loop.scheduled == old(loop.scheduled) + [result.value]
    {
      var created :- sim.factory.CreateOrderFromIntent(intent, latency);
      var order := new MutableOrder(created);
      var pending := order.TransitionTo(Pending);
      assert pending.Done?;
      var arrival :- loop.ScheduleInternal(order.arrival, ArrivalEvent(order.id));
      orders := orders + [order.Value()];
      return Done(arrival);
    }

    method RequestCancel(id: int, latency: int, loop: EventLoop) returns (result: Outcome<Scheduled>)
      requires loop.Valid()
      modifies loop`scheduled, loop.scheduler
      ensures loop.Valid()
      ensures result.Threw? ==> CancelRequest(old(State()), id, latency, loop.clock.now) == Threw(result.error)
      ensures result.Done? ==>
        CancelRequest(old(State()), id, latency, loop.clock.now) == Done(Request(result.value.timestamp, result.value.event))
      ensures result.Done? ==> result.value.sequence == old(|loop.scheduled|)
      ensures result.Done? ==> loop.scheduler.queue == old(loop.scheduler.queue) + [result.value]
      ensures result.Done? ==> loop.scheduled == old(loop.scheduled) + [result.value]
    {
      var index :- FindOrderIndex(id);
      if !IsResting(orders[index].status) {
        return Threw(InvalidArgument(NotResting));
      }
      var _ :- FindActiveLimitOrderIndex(id);
      var time :- AddLatency(loop.clock.now, latency);
      result := loop.ScheduleInternal(time, CancelEvent(id));
    }

    method VisibleQuantityAtLimit(order: Order, book: OrderBook) returns (result: Outcome<int>)
      ensures result == VisibleAtLimit(order, book.Value())
    {
      if order.limit.None? {
        return Threw(InvalidArgument(MissingLimitPrice));
      }
      if order.limit.value < 0 {
        return Threw(InvalidArgument(NegativePrice));
      }
      var visible := QuantityAt(if order.side == Buy then book.bids else book.asks, order.limit.value);
      return Done(if visible.Some? then visible.value else 0);
    }

    method RestLimitOrder(order: Order, queue: int) returns (result: Outcome<()>)
      modifies this`active
      ensures result.Threw? ==> Rest(old(State()), order, queue) == Threw(result.error)
      ensures result.Done? ==> Rest(old(State()), order, queue) == Done(State())
    {
      if !IsResting(order.status) {
        return Threw(InvalidArgument(NotResting));
      }
      if order.limit.None? {
        return Threw(InvalidArgument(MissingLimitPrice));
      }
      if queue < 0 {
        return Threw(InvalidArgument(NegativeQuantity));
      }
      active := active + [ActiveOrder(order.id, order.side, order.limit.value, queue, order.arrival)];
      return Done(());
    }

    /** The loop over the opposite depth of a limit arrival. */
    method SweepLimit(order: MutableOrder, book: OrderBook) returns (result: Outcome<(seq<Fill>, bool)>)
      requires 0 <= config.feePpm && sim.ppm == config.feePpm && order.limit.Some?
      modifies sim, order
      ensures var goal := SweepFrom(config.feePpm, OppositeDepth(order.side, book.Value()), order.limit,
                                    Sweep(old(order.Value()), [], old(sim.nextFillId), false), 0);
        match result
        case Threw(error) => goal == Threw(error)
        case Done((swept, atLimit)) => goal == Done(Sweep(order.Value(), swept, sim.nextFillId, atLimit))
    {
      hide FillFor;
      var depth := book.TopLevels(Opposite(order.side), |LevelsOf(book.Value(), Opposite(order.side))|);
      assert depth == OppositeDepth(order.side, book.Value());
      var swept, atLimit := [], false;
      ghost var goal := SweepFrom(config.feePpm, depth, order.limit, Sweep(order.Value(), [], sim.nextFillId, false), 0);
      var index := 0;
      while index < |depth|
        invariant 0 <= index <= |depth|
        invariant goal == SweepFrom(config.feePpm, depth, order.limit, Sweep(order.Value(), swept, sim.nextFillId, atLimit), index)
      {
        var level := depth[index];
        if level.quantity < 0 {
          return Threw(InvalidArgument(NegativeQuantity));
        }
        if level.quantity == 0 || order.original - order.filled == 0 {
          index := index + 1;
          continue;
        }
        if !Allows(order.side, order.limit.value, level.price) {
          break;
        }
        var quantity := Min(order.original - order.filled, level.quantity);
        var fill :- sim.CreateFill(order.Value(), level.price, quantity, order.arrival);
        var _ :- order.RecordFillQuantity(quantity);
        if level.price == order.limit.value {
          atLimit := true;
        }
        swept := swept + [fill];
        index := index + 1;
      }
      return Done((swept, atLimit));
    }

    method ProcessLimitOrderArrival(given: Order, book: OrderBook) returns (result: Outcome<Arrived>)
      requires 0 <= config.feePpm && sim.ppm == config.feePpm
      modifies this`active, sim
      ensures result.Threw? ==> LimitArrival(config, old(State()), given, book.Value()) == Threw(result.error)
      ensures result.Done? ==> LimitArrival(config, old(State()), given, book.Value()) == result && result.value.exec == State()
    {
      hide SweepFrom, InitialQueue, VisibleAtLimit;
      if given.kind != Limit {
        return Threw(InvalidArgument(WrongOrderType));
      }
      if given.status != Pending {
        return Threw(InvalidArgument(NotPending));
      }
      if given.limit.None? {
        return Threw(InvalidArgument(MissingLimitPrice));
      }
      var order := new MutableOrder(given);
      var acknowledged := order.TransitionTo(Acknowledged);
      assert acknowledged.Done?;
      var pair :- SweepLimit(order, book);
      var swept, filledAtLimit := pair.0, pair.1;
      if order.original - order.filled == 0 {
        var _ :- order.TransitionTo(Filled);
      } else {
        var queue := 0;
        if !filledAtLimit {
          var visible :- VisibleQuantityAtLimit(order.Value(), book);
          queue :- InitialQueue(config.queuePpm, visible);
        }
        if swept != [] {
          var _ :- order.TransitionTo(PartiallyFilled);
        }
        var _ :- RestLimitOrder(order.Value(), queue);
      }
      return Done(Arrived(State(), order.Value(), swept));
    }

    method ProcessOrderArrival(event: Scheduled, book: OrderBook) returns (result: Outcome<Arrived>)
      requires 0 <= config.feePpm && sim.ppm == config.feePpm
      modifies this, sim
      ensures result == ArrivalResult(config, old(State()), event, book.Value())
      ensures result.Done? ==> result.value.exec == State()
    {
      if event.event.kind != OrderArrival || event.event.orderId.None? {
        return Threw(InvalidArgument(NotAnArrival));
      }
      var index :- FindOrderIndex(event.event.orderId.value);
      if orders[index].status != Pending {
        return Threw(InvalidArgument(NotPending));
      }
      if event.timestamp != orders[index].arrival {
        return Threw(InvalidArgument(ArrivalMismatch));
      }
      var order: Order, produced: seq<Fill>;
      if orders[index].kind == Limit {
        var arrived :- ProcessLimitOrderArrival(orders[index], book);
        order, produced := arrived.order, arrived.fills;
      } else {
        var executed :- sim.ExecuteOrder(orders[index], book);
        order, produced := executed.order, executed.fills;
      }
      orders := orders[index := order];
      fills := fills + produced;
      return Done(Arrived(State(), order, produced));
    }

    method ProcessCancelArrival(event: Scheduled) returns (result: Outcome<()>)
      modifies this
      ensures result.Threw? ==> CancelResult(old(State()), event) == Threw(result.error)
      ensures result.Done? ==> CancelResult(old(State()), event) == Done(State())
    {
      if event.event.kind != CancelArrival || event.event.orderId.None? {
        return Threw(InvalidArgument(NotAnArrival));
      }
      var index :- FindOrderIndex(event.event.orderId.value);
      if !IsResting(orders[index].status) {
        return Threw(InvalidArgument(NotResting));
      }
      var slot :- FindActiveLimitOrderIndex(event.event.orderId.value);
      var order := new MutableOrder(orders[index]);
      var canceled := order.TransitionTo(Canceled);
      assert canceled.Done?;
      orders := orders[index := order.Value()];
      active := RemoveAt(active, slot);
      return Done(());
    }

    method ProcessTrade(trade: MarketEvent) returns (result: Outcome<()>)
      requires 0 <= config.feePpm && sim.ppm == config.feePpm && trade.Trade?
      modifies this, sim
      ensures result.Threw? ==> TradeResult(config, old(State()), trade) == Threw(result.error)
      ensures result.Done? ==> TradeResult(config, old(State()), trade) == Done(State())
    {
      if trade.quantity < 0 {
        return Threw(InvalidArgument(NegativeQuantity));
      }
      if trade.price < 0 {
        return Threw(InvalidArgument(NegativePrice));
      }
      if trade.quantity == 0 || trade.aggressor.None? {
        return Done(());
      }
      var volume := trade.quantity;
      ghost var goal := AllocateFrom(config, Allocation(State(), volume), 0, trade);
      var i := 0;
      while i < |active| && volume != 0
        invariant 0 <= i <= |active|
        invariant goal == AllocateFrom(config, Allocation(State(), volume), i, trade)
        decreases |active| - i
      {
        volume :- AllocateAt(i, volume, trade);
        i := i + 1;
      }
      assert goal == Done(Allocation(State(), volume));
      var kept :- RemoveTerminal();
      active := kept;
      return Done(());
    }

    /** The loop body of `process_trade`. */
    method AllocateAt(i: nat, given: int, trade: MarketEvent) returns (result: Outcome<int>)
      requires 0 <= config.feePpm && sim.ppm == config.feePpm && trade.Trade? && i < |active|
      modifies this, sim
      ensures result.Threw? ==> AllocateOne(config, Allocation(old(State()), given), i, trade) == Threw(result.error)
      ensures result.Done? ==> AllocateOne(config, Allocation(old(State()), given), i, trade) == Done(Allocation(State(), result.value))
      ensures result.Done? ==> |active| == old(|active|)
    {
      hide FillPassive;
      var entry := active[i];
      var exact := ExactMatch(entry, trade);
      var through := TradeThrough(entry, trade);
      if !exact && !through {
        return Done(given);
      }
      var index :- FindOrderIndex(entry.id);
      if !IsResting(orders[index].status) {
        return Done(given);
      }
      var queue, volume := entry.queue, given;
      if through {
        queue := 0;
      }
      var consumed := Min(queue, volume);
      queue := queue - consumed;
      active := active[i := entry.(queue := queue)];
      volume := volume - consumed;
      if volume == 0 || queue > 0 {
        return Done(volume);
      }
      result := FillAt(i, index, volume, trade);
    }

    method FillAt(i: nat, index: nat, volume: int, trade: MarketEvent) returns (result: Outcome<int>)
      requires 0 <= config.feePpm && sim.ppm == config.feePpm && trade.Trade? && i < |active| && index < |orders|
      modifies this, sim
      ensures result.Threw? ==> FillPassive(config, old(State()), i, index, trade, volume) == Threw(result.error)
      ensures result.Done? ==> FillPassive(config, old(State()), i, index, trade, volume) == Done(Allocation(State(), result.value))
    {
      hide FillFor;
      var order := new MutableOrder(orders[index]);
      var quantity := Min(order.original - order.filled, volume);
      if quantity == 0 {
        return Done(volume);
      }
      var fill :- sim.CreateFill(order.Value(), active[i].limit, quantity, trade.key.timestamp);
      var _ :- order.RecordFillQuantity(quantity);
      fills := fills + [fill];
      if order.original - order.filled == 0 {
        var _ :- order.TransitionTo(Filled);
        active := active[i := active[i].(queue := 0)];
      } else if order.status == Acknowledged {
        var partial := order.TransitionTo(PartiallyFilled);
        assert partial.Done?;
      }
      orders := orders[index := order.Value()];
      return Done(volume - quantity);
    }

    method RemoveTerminal() returns (result: Outcome<seq<ActiveOrder>>)
      ensures result == Retained(orders, active)
    {
      var kept := [];
      var i := 0;
      while i < |active|
        invariant 0 <= i <= |active|
        invariant Retained(orders, active[..i]) == Done(kept)
      {
        assert active[..i + 1][..i] == active[..i];
        var found := FindOrderIndex(active[i].id);
        if found.Threw? {
          RetainedThrows(orders, active, i);
          return Threw(found.error);
        }
        if !IsTerminal(orders[found.value].status) {
          kept := kept + [active[i]];
        }
        i := i + 1;
      }
      assert active[..i] == active;
      return Done(kept);
    }
  }

  lemma {:induction false} RetainedThrows(orders: seq<Order>, active: seq<ActiveOrder>, i: nat)
    requires i < |active| && Retained(orders, active[..i]).Done? && FindOrder(orders, active[i].id, 0).Threw?
    ensures Retained(orders, active) == Threw(FindOrder(orders, active[i].id, 0).error)
  {
    if i == |active| - 1 {
    } else {
      var init := active[..|active| - 1];
      assert init[..i] == active[..i];
      RetainedThrows(orders, init, i);
    }
  }
}
