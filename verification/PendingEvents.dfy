/** How the scheduled events and the order registry agree. */
module PendingEvents {
  import opened Types
  import opened Orders
  import opened EventLoops
  import opened LatencyExecution
  import opened Registry
  import opened RegistrySteps
  import opened ReplayEngines

  /** The queue without its sequence ids. */
  function PendingOf(queue: seq<Scheduled>): (pending: seq<Request>)
    ensures |pending| == |queue|
  {
    seq(|queue|, i requires 0 <= i < |queue| => Request(queue[i].timestamp, queue[i].event))
  }

  predicate HasEvent(pending: seq<Request>, event: InternalEvent) {
    exists j :: 0 <= j < |pending| && pending[j].event == event
  }

  /** A pending arrival is that of a Pending order, at its arrival time; a pending cancel is that of an
      order that rested, at its arrival time plus the configured delay. */
  predicate RequestOk(cfg: EngineConfig, orders: seq<Order>, request: Request) {
    && request.event.orderId.Some? && 1 <= request.event.orderId.value <= |orders|
    && var o := orders[request.event.orderId.value - 1];
    match request.event.kind
    case OrderArrival => o.status.Pending? && request.timestamp == o.arrival
    case CancelArrival =>
      cfg.cancelAfter.Some? && o.kind.Limit? && IsLive(o.status) && request.timestamp == o.arrival + cfg.cancelAfter.value
    case Timer => false
    case User => false
  }

  predicate RequestsOk(cfg: EngineConfig, pending: seq<Request>, orders: seq<Order>) {
    forall j :: 0 <= j < |pending| ==> RequestOk(cfg, orders, pending[j])
  }

  predicate DistinctEvents(pending: seq<Request>) {
    forall i, j :: 0 <= i < j < |pending| ==> pending[i].event != pending[j].event
  }

  predicate PendingListed(pending: seq<Request>, orders: seq<Order>) {
    forall id {:trigger HasEvent(pending, ArrivalEvent(id))} ::
      1 <= id <= |orders| && orders[id - 1].status.Pending? ==> HasEvent(pending, ArrivalEvent(id))
  }

  predicate CancelsListed(cfg: EngineConfig, pending: seq<Request>, orders: seq<Order>) {
    forall id {:trigger HasEvent(pending, CancelEvent(id))} ::
      cfg.cancelAfter.Some? && 1 <= id <= |orders| && IsResting(orders[id - 1].status) ==> HasEvent(pending, CancelEvent(id))
  }

  /** Each Pending order has exactly one arrival pending, and when cancels are configured each resting
      order has exactly one cancel pending. */
  predicate QueueInv(cfg: EngineConfig, pending: seq<Request>, orders: seq<Order>) {
    && RequestsOk(cfg, pending, orders) && DistinctEvents(pending)
    && PendingListed(pending, orders) && CancelsListed(cfg, pending, orders)
  }

  lemma {:induction false} HasEventAppend(pending: seq<Request>, request: Request, event: InternalEvent)
    ensures HasEvent(pending + [request], event) <==> HasEvent(pending, event) || request.event == event
  {
    var longer := pending + [request];
    if HasEvent(pending, event) {
      var j :| 0 <= j < |pending| && pending[j].event == event;
      assert longer[j].event == event;
    }
    if request.event == event {
      assert longer[|pending|].event == event;
    }
  }

  lemma {:induction false} HasEventRemoved(pending: seq<Request>, i: nat, event: InternalEvent)
    requires i < |pending| && DistinctEvents(pending)
    ensures HasEvent(RemoveAt(pending, i), event) <==> HasEvent(pending, event) && pending[i].event != event
  {
    var rest := RemoveAt(pending, i);
    if HasEvent(pending, event) && pending[i].event != event {
      var j :| 0 <= j < |pending| && pending[j].event == event;
      assert rest[if j < i then j else j - 1].event == event;
    }
    if HasEvent(rest, event) {
      var j :| 0 <= j < |rest| && rest[j].event == event;
      assert pending[if j < i then j else j + 1] == rest[j];
    }
  }

  lemma {:induction false} RemovedRequests(cfg: EngineConfig, pending: seq<Request>, i: nat, orders: seq<Order>)
    requires i < |pending| && RequestsOk(cfg, pending, orders) && DistinctEvents(pending)
    ensures RequestsOk(cfg, RemoveAt(pending, i), orders) && DistinctEvents(RemoveAt(pending, i))
    ensures forall j :: 0 <= j < |RemoveAt(pending, i)| ==> RemoveAt(pending, i)[j].event != pending[i].event
  {
    hide RequestOk;
    var rest := RemoveAt(pending, i);
    forall j | 0 <= j < |rest|
      ensures rest[j] == pending[if j < i then j else j + 1]
    {
    }
  }

  // ---- Submission ----

  lemma {:induction false} QueueAfterSubmit(cfg: EngineConfig, pending: seq<Request>, orders: seq<Order>,
      order: Order)
    requires QueueInv(cfg, pending, orders) && order.status.Pending? && order.id == |orders| + 1
    ensures QueueInv(cfg, pending + [Request(order.arrival, ArrivalEvent(order.id))], orders + [order])
  {
    var request := Request(order.arrival, ArrivalEvent(order.id));
    var after, longer := orders + [order], pending + [request];
    forall j | 0 <= j < |longer|
      ensures RequestOk(cfg, after, longer[j])
      ensures j < |pending| ==> longer[j].event != request.event
    {
      if j < |pending| {
        assert RequestOk(cfg, orders, pending[j]);
      }
    }
    forall id | 1 <= id <= |after|
      ensures after[id - 1].status.Pending? ==> HasEvent(longer, ArrivalEvent(id))
      ensures cfg.cancelAfter.Some? && IsResting(after[id - 1].status) ==> HasEvent(longer, CancelEvent(id))
    {
      HasEventAppend(pending, request, ArrivalEvent(id));
      HasEventAppend(pending, request, CancelEvent(id));
      assert id <= |orders| ==> after[id - 1] == orders[id - 1];
    }
  }

  // ---- Trades ----

  lemma {:induction false} QueueAfterTrade(cfg: EngineConfig, pending: seq<Request>, orders: seq<Order>,
      after: seq<Order>)
    requires QueueInv(cfg, pending, orders) && TradedOnly(orders, after)
    requires forall i :: 0 <= i < |orders| ==> SameTerms(orders[i], after[i])
    ensures QueueInv(cfg, pending, after)
  {
    hide DistinctEvents, HasEvent;
    forall j | 0 <= j < |pending|
      ensures RequestOk(cfg, after, pending[j])
    {
      assert RequestOk(cfg, orders, pending[j]);
    }
  }

  // ---- Arrivals ----

  /** Removing event `i` once its order has left the status it stood for. */
  lemma {:induction false} QueueAfterLeaving(cfg: EngineConfig, pending: seq<Request>, i: nat, orders: seq<Order>,
      order: Order)
    requires QueueInv(cfg, pending, orders) && i < |pending|
    requires RequestOk(cfg, orders, pending[i])
    requires var id := pending[i].event.orderId.value;
      && SameTerms(orders[id - 1], order)
      && if pending[i].event.kind.OrderArrival? then !order.status.Pending? else order.status.Canceled?
    ensures var id := pending[i].event.orderId.value;
      var rest := RemoveAt(pending, i);
      var after := orders[id - 1 := order];
      && RequestsOk(cfg, rest, after) && DistinctEvents(rest) && PendingListed(rest, after)
      && (pending[i].event.kind.OrderArrival? && cfg.cancelAfter.Some? && IsResting(order.status) ==>
        !HasEvent(rest, CancelEvent(id)))
      && (!IsResting(order.status) ==> CancelsListed(cfg, rest, after))
      && (forall other {:trigger HasEvent(rest, CancelEvent(other))} ::
        cfg.cancelAfter.Some? && 1 <= other <= |after| && other != id && IsResting(after[other - 1].status) ==>
        HasEvent(rest, CancelEvent(other)))
  {
    var id := pending[i].event.orderId.value;
    var rest := RemoveAt(pending, i);
    var after := orders[id - 1 := order];
    RemovedRequests(cfg, pending, i, orders);
    forall j | 0 <= j < |rest|
      ensures RequestOk(cfg, after, rest[j])
      ensures pending[i].event.kind.OrderArrival? ==> rest[j].event != CancelEvent(id)
    {
      assert RequestOk(cfg, orders, rest[j]);
      LeavingUnnamed(cfg, pending, i, orders, rest[j]);
    }
    forall other | 1 <= other <= |after|
      ensures after[other - 1].status.Pending? ==> HasEvent(rest, ArrivalEvent(other))
      ensures cfg.cancelAfter.Some? && other != id && IsResting(after[other - 1].status) ==> HasEvent(rest, CancelEvent(other))
    {
      HasEventRemoved(pending, i, ArrivalEvent(other));
      HasEventRemoved(pending, i, CancelEvent(other));
    }
  }

  /** No other pending event names the order of event `i`. */
  lemma {:induction false} LeavingUnnamed(cfg: EngineConfig, pending: seq<Request>, i: nat, orders: seq<Order>,
      request: Request)
    requires i < |pending| && RequestOk(cfg, orders, pending[i]) && RequestOk(cfg, orders, request)
    requires request.event != pending[i].event
    ensures request.event.orderId != pending[i].event.orderId
  {
  }

  /** The order that just arrived rests and its cancel is scheduled. */
  lemma {:induction false} QueueAfterCancelRequest(cfg: EngineConfig, rest: seq<Request>, after: seq<Order>, id: int)
    requires 1 <= id <= |after| && cfg.cancelAfter.Some? && IsResting(after[id - 1].status) && after[id - 1].kind.Limit?
    requires RequestsOk(cfg, rest, after) && DistinctEvents(rest) && PendingListed(rest, after)
    requires !HasEvent(rest, CancelEvent(id))
    requires forall other {:trigger HasEvent(rest, CancelEvent(other))} ::
      1 <= other <= |after| && other != id && IsResting(after[other - 1].status) ==> HasEvent(rest, CancelEvent(other))
    ensures QueueInv(cfg, rest + [Request(after[id - 1].arrival + cfg.cancelAfter.value, CancelEvent(id))], after)
  {
    var request := Request(after[id - 1].arrival + cfg.cancelAfter.value, CancelEvent(id));
    var longer := rest + [request];
    forall j | 0 <= j < |rest|
      ensures longer[j] == rest[j] && longer[j].event != request.event
    {
    }
    forall other | 1 <= other <= |after|
      ensures after[other - 1].status.Pending? ==> HasEvent(longer, ArrivalEvent(other))
      ensures IsResting(after[other - 1].status) ==> HasEvent(longer, CancelEvent(other))
    {
      HasEventAppend(rest, request, ArrivalEvent(other));
      HasEventAppend(rest, request, CancelEvent(other));
    }
  }
}
