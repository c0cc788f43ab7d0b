/** With one latency and intents stamped with the current time, order ids are the order of arrival and
    the order of priority. */
module LatencyPriority {
  import opened Types
  import opened OrderBooks
  import opened Orders
  import opened EventLoops
  import opened LoopTheorems
  import opened LatencyExecution
  import opened Registry
  import opened RegistrySteps
  import opened TradeAllocation
  import opened ReplayEngines
  import opened PendingEvents
  import opened EngineInvariants
  import opened EngineTheorems

  predicate AllStamped(intents: seq<Intent>, now: int) {
    forall i :: 0 <= i < |intents| ==> intents[i].decision == now
  }

  ghost predicate StampsNow<S(!new)>(strategy: Strategy<S>) {
    && (forall s, event: MarketEvent, book :: AllStamped(strategy.onBook(s, event, book).intents, event.key.timestamp))
    && (forall s, event: MarketEvent, book :: AllStamped(strategy.onTrade(s, event, book).intents, event.key.timestamp))
  }

  // ---- The invariant ----

  /** Orders were submitted in id order, all by now, and arrive one latency later. */
  predicate Chronological(latency: int, orders: seq<Order>, now: int) {
    && (forall i :: 0 <= i < |orders| ==> orders[i].submit <= now && orders[i].arrival == orders[i].submit + latency)
    && (forall i, j :: 0 <= i < j < |orders| ==> orders[i].submit <= orders[j].submit)
  }

  /** The orders still to arrive are the youngest ones. */
  predicate ArrivedFirst(orders: seq<Order>) {
    forall i, j :: 0 <= i < j < |orders| && orders[i].status.Pending? ==> orders[j].status.Pending?
  }

  /** The registry of resting orders is sorted by order id. */
  predicate SortedById(active: seq<ActiveOrder>) {
    forall i, j :: 0 <= i < j < |active| ==> active[i].id < active[j].id
  }

  /** The order of two pending events, as far as both are arrivals. */
  predicate InIdOrder(a: InternalEvent, b: InternalEvent) {
    (a.kind.OrderArrival? && b.kind.OrderArrival? && a.orderId.Some? && b.orderId.Some?) ==> a.orderId.value < b.orderId.value
  }

  /** Pending arrivals are listed in id order. */
  predicate ArrivalsOrdered(pending: seq<Request>) {
    forall i, j :: 0 <= i < j < |pending| ==> InIdOrder(pending[i].event, pending[j].event)
  }

  predicate PriorityInv(cfg: EngineConfig, now: int, pending: seq<Request>, e: Exec) {
    && Chronological(cfg.latency, e.orders, now) && ArrivedFirst(e.orders)
    && SortedById(e.active) && ArrivalsOrdered(pending)
  }

  // ---- Submission ----

  lemma {:induction false} OrderedAppend(cfg: EngineConfig, orders: seq<Order>, pending: seq<Request>, id: int,
      time: int)
    requires ArrivalsOrdered(pending) && RequestsOk(cfg, pending, orders) && id == |orders| + 1
    ensures ArrivalsOrdered(pending + [Request(time, ArrivalEvent(id))])
  {
    forall j | 0 <= j < |pending|
      ensures pending[j].event.orderId.Some? && pending[j].event.orderId.value < id
    {
      assert RequestOk(cfg, orders, pending[j]);
    }
  }

  lemma {:induction false} SubmitPriority(cfg: EngineConfig, pending: seq<Request>, e: Exec, intent: Intent, now: int)
    requires ExecInv(e) && IntentTyped(intent) && RequestsOk(cfg, pending, e.orders)
    requires PriorityInv(cfg, now, pending, e) && intent.decision == now
    requires Submit(e, intent, cfg.latency, now).Done?
    ensures var s := Submit(e, intent, cfg.latency, now).value;
      PriorityInv(cfg, now, pending + [s.request], s.exec)
  {
    hide ExecInv, Evolves, RequestsOk, Submit, ArrivalsOrdered, SortedById;
    SubmitKeeps(e, intent, cfg.latency, now);
    var s := Submit(e, intent, cfg.latency, now).value;
    NewOrderId(s.exec, |e.orders|);
    OrderedAppend(cfg, e.orders, pending, |e.orders| + 1, s.request.timestamp);
    assert forall i :: 0 <= i < |e.orders| ==> s.exec.orders[i] == s.exec.orders[..|e.orders|][i];
  }

  lemma {:induction false} EmitPriority(cfg: EngineConfig, pending: seq<Request>, e: Exec, em: Emission,
      intents: seq<Intent>, i: nat, now: int)
    requires Emitted(cfg, pending, e, em, now) && AllTyped(intents) && AllStamped(intents, now) && i <= |intents|
    requires PriorityInv(cfg, now, pending + em.requests, em.exec)
    requires EmitFrom(em, intents, i, cfg.latency, now).Done?
    ensures var r := EmitFrom(em, intents, i, cfg.latency, now).value;
      PriorityInv(cfg, now, pending + r.requests, r.exec)
    decreases |intents| - i
  {
    hide Emitted, PriorityInv, Submit, IntentTyped, ExecInv, RequestsOk;
    if i < |intents| {
      EmittedParts(cfg, pending, e, em, now);
      EmitOne(cfg, pending, e, em, intents[i], now);
      SubmitPriority(cfg, pending + em.requests, em.exec, intents[i], now);
      var s := Submit(em.exec, intents[i], cfg.latency, now).value;
      assert pending + (em.requests + [s.request]) == pending + em.requests + [s.request];
      EmitPriority(cfg, pending, e, Emission(s.exec, em.requests + [s.request]), intents, i + 1, now);
    }
  }

  lemma {:induction false} EmittedParts(cfg: EngineConfig, pending: seq<Request>, e: Exec, em: Emission, now: int)
    requires Emitted(cfg, pending, e, em, now)
    ensures ExecInv(em.exec) && RequestsOk(cfg, pending + em.requests, em.exec.orders)
  {
    hide ExecInv, Evolves, RequestsOk;
  }

  lemma {:induction false} EmitHandledPriority<S>(cfg: EngineConfig, pending: seq<Request>, e: Engine<S>,
      decision: Decision<S>, now: int)
    requires ExecInv(e.exec) && QueueInv(cfg, pending, e.exec.orders) && PriorityInv(cfg, now, pending, e.exec)
    requires AllTyped(decision.intents) && AllStamped(decision.intents, now) && Emit(cfg, e, decision, now).Done?
    ensures var r := Emit(cfg, e, decision, now).value;
      PriorityInv(cfg, now, pending + r.requests, r.state.exec)
  {
    hide ExecInv, QueueInv, PriorityInv, AllTyped, AllStamped, EmitFrom, Emitted;
    EmittedNothing(cfg, pending, e.exec, now);
    assert pending + [] == pending;
    EmitPriority(cfg, pending, e.exec, Emission(e.exec, []), decision.intents, 0, now);
  }

  // ---- Trades ----

  predicate AllBelow(active: seq<ActiveOrder>, id: int) {
    forall j :: 0 <= j < |active| ==> active[j].id < id
  }

  lemma {:induction false} RetainedBelow(orders: seq<Order>, active: seq<ActiveOrder>, id: int)
    requires Retained(orders, active).Done? && AllBelow(active, id)
    ensures AllBelow(Retained(orders, active).value, id)
  {
    if active != [] {
      RetainedBelow(orders, active[..|active| - 1], id);
    }
  }

  lemma {:induction false} RetainedSorted(orders: seq<Order>, active: seq<ActiveOrder>)
    requires Retained(orders, active).Done? && SortedById(active)
    ensures SortedById(Retained(orders, active).value)
  {
    if active != [] {
      RetainedSorted(orders, active[..|active| - 1]);
      RetainedBelow(orders, active[..|active| - 1], active[|active| - 1].id);
    }
  }

  lemma {:induction false} RequeuedSorted(e: Exec, trade: MarketEvent)
    requires trade.Trade? && SortedById(e.active)
    ensures SortedById(Requeued(e, trade))
  {
    hide QueueAfter, Reaching;
  }

  /** Terms and submission times do not change, and what was Pending stays so. */
  lemma {:induction false} PriorityEvolves(cfg: EngineConfig, orders: seq<Order>, after: seq<Order>, now: int,
      later: int)
    requires Chronological(cfg.latency, orders, now) && ArrivedFirst(orders) && now <= later
    requires TradedOnly(orders, after) && forall i :: 0 <= i < |orders| ==> SameTerms(orders[i], after[i])
    ensures Chronological(cfg.latency, after, later) && ArrivedFirst(after)
  {
    forall i | 0 <= i < |orders|
      ensures orders[i].status.Pending? <==> after[i].status.Pending?
    {
    }
  }

  lemma {:induction false} TradePriority(cfg: EngineConfig, pending: seq<Request>, e: Exec, trade: MarketEvent,
      now: int)
    requires ExecInv(e) && trade.Trade? && EventOk(trade) && now <= trade.key.timestamp
    requires PriorityInv(cfg, now, pending, e) && TradeResult(ExecOf(cfg), e, trade).Done?
    ensures PriorityInv(cfg, trade.key.timestamp, pending, TradeResult(ExecOf(cfg), e, trade).value)
  {
    hide ExecInv, TradeResult, Evolves, TradedOnly, PassiveFills, Chronological, ArrivedFirst, ArrivalsOrdered;
    hide SortedById, Retained, Requeued;
    TradeKeeps(ExecOf(cfg), e, trade);
    TradeClosedForm(ExecOf(cfg), e, trade);
    var f := TradeResult(ExecOf(cfg), e, trade).value;
    EvolvesParts(e, f);
    PriorityEvolves(cfg, e.orders, f.orders, now, trade.key.timestamp);
    if trade.quantity != 0 && trade.aggressor.Some? {
      RequeuedSorted(e, trade);
      RetainedSorted(f.orders, Requeued(e, trade));
    }
  }

  // ---- Internal events ----

  lemma {:induction false} OrderedRemoved(pending: seq<Request>, i: nat)
    requires ArrivalsOrdered(pending) && i < |pending|
    ensures ArrivalsOrdered(RemoveAt(pending, i))
  {
  }

  lemma {:induction false} OrderedWithCancel(pending: seq<Request>, requests: seq<Request>)
    requires ArrivalsOrdered(pending) && |requests| <= 1
    requires forall j :: 0 <= j < |requests| ==> requests[j].event.kind.CancelArrival?
    ensures ArrivalsOrdered(pending + requests)
  {
  }

  /** A Pending order with a smaller id would be earlier in the queue than the arrival of `id`. */
  lemma {:induction false} OlderIsEarlier<S>(cfg: EngineConfig, s: Loop<Engine<S>>, id: int, other: int, top: nat,
      j: nat)
    requires PriorityInv(cfg, s.now, PendingOf(s.queue), s.state.exec)
    requires RequestsOk(cfg, PendingOf(s.queue), s.state.exec.orders)
    requires forall i, k :: 0 <= i < k < |s.queue| ==> s.queue[i].sequence < s.queue[k].sequence
    requires top < |s.queue| && j < |s.queue| && 1 <= other < id <= |s.state.exec.orders|
    requires s.queue[top].event == ArrivalEvent(id) && s.queue[j].event == ArrivalEvent(other)
    ensures Before(s.queue[j], s.queue[top])
  {
    var pending, orders := PendingOf(s.queue), s.state.exec.orders;
    assert RequestOk(cfg, orders, pending[j]) && RequestOk(cfg, orders, pending[top]);
    assert orders[other - 1].submit <= orders[id - 1].submit;
    assert !InIdOrder(pending[top].event, pending[j].event);
  }

  lemma {:induction false} QueueParts<S>(cfg: EngineConfig, events: seq<MarketEvent>, s: Loop<Engine<S>>)
    requires EngineInv(cfg, events, s)
    ensures RequestsOk(cfg, PendingOf(s.queue), s.state.exec.orders) && PendingListed(PendingOf(s.queue), s.state.exec.orders)
    ensures forall i, k :: 0 <= i < k < |s.queue| ==> s.queue[i].sequence < s.queue[k].sequence
  {
    hide ExecInv, AccountInv, FillTimes, ArrivedBehind, OnceInv, BookInv, PastBeforeFuture, TraceSorted;
    hide RequestsOk, DistinctEvents, PendingListed, CancelsListed;
  }

  /** The arrival at the top of the queue is that of the oldest order still to arrive. */
  lemma {:induction false} TopIsOldest<S>(cfg: EngineConfig, events: seq<MarketEvent>, s: Loop<Engine<S>>, id: int,
      other: int)
    requires EngineInv(cfg, events, s) && PriorityInv(cfg, s.now, PendingOf(s.queue), s.state.exec)
    requires s.queue != [] && s.queue[Top(s.queue)].event == ArrivalEvent(id)
    requires 1 <= other < id <= |s.state.exec.orders|
    ensures !s.state.exec.orders[other - 1].status.Pending?
  {
    hide EngineInv, PriorityInv, RequestsOk;
    var pending, orders := PendingOf(s.queue), s.state.exec.orders;
    QueueParts(cfg, events, s);
    if HasEvent(pending, ArrivalEvent(other)) {
      var j :| 0 <= j < |pending| && pending[j].event == ArrivalEvent(other);
      OlderIsEarlier(cfg, s, id, other, Top(s.queue), j);
    }
  }

  lemma {:induction false} SortedAppend(orders: seq<Order>, active: seq<ActiveOrder>, after: seq<ActiveOrder>,
      order: Order)
    requires SortedById(active) && AllAgree(orders, active) && NoneFilled(orders, active)
    requires RestsAfter(active, order, after)
    requires forall i :: 0 <= i < |orders| && !orders[i].status.Pending? ==> i + 1 < order.id
    ensures SortedById(after)
  {
    assert forall j :: 0 <= j < |active| ==> after[j] == active[j];
    forall j | 0 <= j < |active|
      ensures active[j].id < order.id
    {
      assert ActiveOk(orders, active[j]);
    }
  }

  /** The order arriving is the first Pending one. */
  predicate FirstPending(orders: seq<Order>, index: nat) {
    && index < |orders| && orders[index].status.Pending?
    && forall i :: 0 <= i < index ==> !orders[i].status.Pending?
  }

  lemma {:induction false} FirstLeaves(latency: int, orders: seq<Order>, index: nat, order: Order, now: int,
      time: int)
    requires FirstPending(orders, index) && ArrivedFirst(orders) && Chronological(latency, orders, now) && now <= time
    requires SameTerms(orders[index], order) && !order.status.Pending?
    ensures ArrivedFirst(orders[index := order]) && Chronological(latency, orders[index := order], time)
    ensures forall i :: 0 <= i < |orders| && !orders[i].status.Pending? ==> i < index
  {
    forall i | 0 <= i < |orders|
      ensures orders[i].status.Pending? <==> index <= i
    {
    }
  }

  lemma {:induction false} ArrivalPriority<S>(cfg: EngineConfig, events: seq<MarketEvent>, s: Loop<Engine<S>>,
      f: Exec, order: Order, id: int)
    requires EngineInv(cfg, events, s) && PriorityInv(cfg, s.now, PendingOf(s.queue), s.state.exec)
    requires s.queue != [] && s.queue[Top(s.queue)].event == ArrivalEvent(id) && 1 <= id <= |s.state.exec.orders|
    requires s.now <= s.queue[Top(s.queue)].timestamp && s.state.exec.orders[id - 1].status.Pending?
    requires SameTerms(s.state.exec.orders[id - 1], order) && order.id == id && !order.status.Pending?
    requires f.orders == s.state.exec.orders[id - 1 := order] && RestsAfter(s.state.exec.active, order, f.active)
    ensures Chronological(cfg.latency, f.orders, s.queue[Top(s.queue)].timestamp) && ArrivedFirst(f.orders) && SortedById(f.active)
  {
    hide EngineInv, RestsAfter, SortedById, Chronological, ArrivedFirst, ArrivalsOrdered, AllAgree, NoneFilled;
    var orders := s.state.exec.orders;
    forall i | 0 <= i < id - 1
      ensures !orders[i].status.Pending?
    {
      TopIsOldest(cfg, events, s, id, i + 1);
    }
    FirstLeaves(cfg.latency, orders, id - 1, order, s.now, s.queue[Top(s.queue)].timestamp);
    ActiveParts(cfg, events, s);
    SortedAppend(orders, s.state.exec.active, f.active, order);
  }

  lemma {:induction false} ActiveParts<S>(cfg: EngineConfig, events: seq<MarketEvent>, s: Loop<Engine<S>>)
    requires EngineInv(cfg, events, s)
    ensures AllAgree(s.state.exec.orders, s.state.exec.active) && NoneFilled(s.state.exec.orders, s.state.exec.active)
  {
    hide LoopInv, QueueInv, AccountInv, FillTimes, ArrivedBehind, OrdersInv, FillsInv, AllAgree, NoneFilled;
  }

  lemma {:induction false} CancelPriority(latency: int, e: Exec, id: int, f: Exec, now: int, time: int)
    requires CanceledInto(e, id, f) && now <= time
    requires Chronological(latency, e.orders, now) && ArrivedFirst(e.orders) && SortedById(e.active)
    ensures Chronological(latency, f.orders, time) && ArrivedFirst(f.orders) && SortedById(f.active)
  {
    var slot :| 0 <= slot < |e.active| && e.active[slot].id == id && f.active == RemoveAt(e.active, slot);
  }

  // ---- Steps ----

  lemma {:induction false} MarketPriority<S(!new)>(cfg: EngineConfig, strategy: Strategy<S>,
      events: seq<MarketEvent>, s: Loop<Engine<S>>, book: Book)
    requires StampsNow(strategy) && StrategyTyped(strategy) && EventsOk(events)
    requires EngineInv(cfg, events, s) && PriorityInv(cfg, s.now, PendingOf(s.queue), s.state.exec)
    requires MarketNext(events, s)
    requires OnMarket(cfg, strategy, s.state, book, events[s.next]).Done?
    ensures var r := OnMarket(cfg, strategy, s.state, book, events[s.next]).value;
      PriorityInv(cfg, events[s.next].key.timestamp, PendingOf(s.queue) + r.requests, r.state.exec)
  {
    hide LoopInv, ExecInv, QueueInv, AccountInv, FillTimes, ArrivedBehind, PriorityInv, TradeResult, ApplyNewFills;
    hide Emit;
    hide AllTyped, AllStamped, Evolves, TradedOnly, PassiveFills;
    var e := s.state;
    var event := events[s.next];
    var pending := PendingOf(s.queue);
    MarketDue(events, s);
    if event.BookUpdate? {
      PriorityLater(cfg, s.now, event.key.timestamp, pending, e.exec);
      EmitHandledPriority(cfg, pending, e, strategy.onBook(e.strategy, event, book), event.key.timestamp);
    } else {
      TradeKeeps(ExecOf(cfg), e.exec, event);
      TradePriority(cfg, pending, e.exec, event, s.now);
      var exec := TradeResult(ExecOf(cfg), e.exec, event).value;
      EvolvesParts(e.exec, exec);
      QueueAfterTrade(cfg, pending, e.exec.orders, exec.orders);
      var after := e.(exec := exec, account := ApplyNewFills(e.account, exec.fills, e.applied).value, applied := Max(e.applied, |exec.fills|));
      EmitHandledPriority(cfg, pending, after, strategy.onTrade(e.strategy, event, book), event.key.timestamp);
    }
  }

  lemma {:induction false} PriorityLater(cfg: EngineConfig, now: int, later: int, pending: seq<Request>, e: Exec)
    requires PriorityInv(cfg, now, pending, e) && now <= later
    ensures PriorityInv(cfg, later, pending, e)
  {
    hide ArrivedFirst, SortedById, ArrivalsOrdered;
  }

  lemma {:induction false} InternalPriority<S>(cfg: EngineConfig, strategy: Strategy<S>, events: seq<MarketEvent>,
      s: Loop<Engine<S>>)
    requires SortedEvents(events) && EventsOk(events)
    requires EngineInv(cfg, events, s) && PriorityInv(cfg, s.now, PendingOf(s.queue), s.state.exec)
    requires s.queue != [] && !MarketNext(events, s)
    requires OnInternal(cfg, strategy, s.state, s.book, s.queue[Top(s.queue)]).Done?
    ensures var event := s.queue[Top(s.queue)];
      var r := OnInternal(cfg, strategy, s.state, s.book, event).value;
      PriorityInv(cfg, event.timestamp, RemoveAt(PendingOf(s.queue), Top(s.queue)) + r.requests, r.state.exec)
  {
    hide EngineInv, SortedEvents, EventsOk, ArrivalResult, CancelResult, ApplyNewFills, CancelRequest, RequestOk;
    hide RemoveAt;
    hide ExecInv, Evolves, SweptAt, RestsAfter, CanceledInto, Chronological, ArrivedFirst, SortedById;
    hide ArrivalsOrdered, Emit;
    var pending, event := PendingOf(s.queue), s.queue[Top(s.queue)];
    NextKind(cfg, events, s);
    InternalNow(events, cfg, s);
    BookOfEngine(cfg, events, s);
    RequestsBounded(cfg, strategy, s.state, s.book, event);
    var r := OnInternal(cfg, strategy, s.state, s.book, event).value;
    OrderedRemoved(pending, Top(s.queue));
    OrderedWithCancel(RemoveAt(pending, Top(s.queue)), r.requests);
    var id := event.event.orderId.value;
    if event.event.kind.OrderArrival? {
      ArrivalKeeps(ExecOf(cfg), s.state.exec, event, s.book);
      var a := ArrivalResult(ExecOf(cfg), s.state.exec, event, s.book).value;
      NewOrderId(a.exec, id - 1);
      EvolvedTerms(s.state.exec, a.exec, id - 1);
      ArrivalPriority(cfg, events, s, a.exec, a.order, id);
    } else {
      CancelKeeps(s.state.exec, event);
      CancelPriority(cfg.latency, s.state.exec, id, CancelResult(s.state.exec, event).value, s.now, event.timestamp);
    }
  }

  lemma {:induction false} EvolvedTerms(e: Exec, f: Exec, i: nat)
    requires Evolves(e, f) && i < |e.orders|
    ensures i < |f.orders| && SameTerms(e.orders[i], f.orders[i])
  {
    assert Evolved(e.orders[i], f.orders[i]);
  }

  lemma {:induction false} InternalNow<S>(events: seq<MarketEvent>, cfg: EngineConfig, s: Loop<Engine<S>>)
    requires SortedEvents(events) && EngineInv(cfg, events, s) && s.queue != [] && !MarketNext(events, s)
    ensures s.now <= s.queue[Top(s.queue)].timestamp && ExecInv(s.state.exec)
  {
    hide LoopInv, ExecInv, QueueInv, AccountInv, FillTimes, ArrivedBehind, SortedEvents, MarketNext;
    InternalDue(events, s);
  }

  lemma {:induction false} BookOfEngine<S>(cfg: EngineConfig, events: seq<MarketEvent>, s: Loop<Engine<S>>)
    requires EventsOk(events) && EngineInv(cfg, events, s)
    ensures BookOk(s.book)
  {
    hide LoopInv, HandlerInv;
    BookIsOk(events, s);
  }

  lemma {:induction false} StepPriority<S(!new)>(cfg: EngineConfig, strategy: Strategy<S>, events: seq<MarketEvent>,
      s: Loop<Engine<S>>)
    requires InputsOk(strategy, events) && StampsNow(strategy) && EngineInv(cfg, events, s) && !Finished(events, s)
    requires PriorityInv(cfg, s.now, PendingOf(s.queue), s.state.exec)
    requires Step(events, EngineHandlers(cfg, strategy), s).Done?
    ensures var t := Step(events, EngineHandlers(cfg, strategy), s).value;
      PriorityInv(cfg, t.now, PendingOf(t.queue), t.state.exec)
  {
    hide SortedEvents, EventsOk, StrategyTyped, StampsNow, EngineInv, PriorityInv, OnMarket, OnInternal, RemoveAt;
    InputsSorted(strategy, events);
    if MarketNext(events, s) {
      var taken := TakeMarket(events, s).value;
      MarketPriority(cfg, strategy, events, s, taken.book);
      var r := OnMarket(cfg, strategy, taken.state, taken.book, events[s.next]).value;
      PendingAfterSchedule(s.queue, r.requests, |s.scheduled|);
    } else {
      InternalPriority(cfg, strategy, events, s);
      var top := Top(s.queue);
      var r := OnInternal(cfg, strategy, s.state, s.book, s.queue[top]).value;
      PendingAfterRemoval(s.queue, top);
      PendingAfterSchedule(RemoveAt(s.queue, top), r.requests, |s.scheduled|);
    }
  }

  lemma {:induction false} RunPriority<S(!new)>(cfg: EngineConfig, strategy: Strategy<S>, start: S,
      events: seq<MarketEvent>, n: nat)
    requires InputsOk(strategy, events) && StampsNow(strategy) && EngineRun(cfg, strategy, start, events, n).Done?
    ensures var s := EngineRun(cfg, strategy, start, events, n).value;
      PriorityInv(cfg, s.now, PendingOf(s.queue), s.state.exec)
  {
    hide InputsOk, StampsNow, EngineInv, Step, EngineHandlers, Finished;
    if n > 0 {
      RunMonotone(cfg, strategy, start, events, n - 1, n);
      RunPriority(cfg, strategy, start, events, n - 1);
      RunInvariant(cfg, strategy, start, events, n - 1);
      var before := EngineRun(cfg, strategy, start, events, n - 1).value;
      if !Finished(events, before) {
        StepPriority(cfg, strategy, events, before);
      }
    }
  }

  // ---- Main results ----

  /** With one latency and intents stamped with the current time, the registry of resting orders is
      sorted by order id at every point of every run, and the orders still to arrive are exactly the
      youngest ones. */
  lemma {:induction false} PriorityIsIdOrder<S(!new)>(cfg: EngineConfig, strategy: Strategy<S>, start: S,
      events: seq<MarketEvent>, n: nat)
    requires InputsOk(strategy, events) && StampsNow(strategy) && EngineRun(cfg, strategy, start, events, n).Done?
    ensures var e := EngineRun(cfg, strategy, start, events, n).value.state.exec;
      SortedById(e.active) && ArrivedFirst(e.orders)
  {
    hide InputsOk, StampsNow, EngineRun, Chronological, ArrivedFirst, SortedById, ArrivalsOrdered;
    RunPriority(cfg, strategy, start, events, n);
  }

  /** Arrivals are handled in order-id order: when the arrival of an order is next, every order with a
      smaller id has arrived and no order with a larger one has. */
  lemma {:induction false} ArrivalsInIdOrder<S(!new)>(cfg: EngineConfig, strategy: Strategy<S>, start: S,
      events: seq<MarketEvent>, n: nat, id: int, other: int)
    requires InputsOk(strategy, events) && StampsNow(strategy) && EngineRun(cfg, strategy, start, events, n).Done?
    requires var s := EngineRun(cfg, strategy, start, events, n).value;
      && s.queue != [] && s.queue[Top(s.queue)].event == ArrivalEvent(id)
      && 1 <= id <= |s.state.exec.orders| && 1 <= other <= |s.state.exec.orders|
    ensures var orders := EngineRun(cfg, strategy, start, events, n).value.state.exec.orders;
      orders[other - 1].status.Pending? <==> id <= other
  {
    hide InputsOk, StampsNow, EngineRun, EngineInv, Chronological, SortedById, ArrivalsOrdered, RequestOk;
    RunPriority(cfg, strategy, start, events, n);
    RunInvariant(cfg, strategy, start, events, n);
    var s := EngineRun(cfg, strategy, start, events, n).value;
    NextKind(cfg, events, s);
    ArrivingIsPending(cfg, s.state.exec.orders, PendingOf(s.queue)[Top(s.queue)]);
    if other < id {
      TopIsOldest(cfg, events, s, id, other);
    }
  }

  lemma {:induction false} ArrivingIsPending(cfg: EngineConfig, orders: seq<Order>, request: Request)
    requires RequestOk(cfg, orders, request) && request.event.kind.OrderArrival?
    ensures orders[request.event.orderId.value - 1].status.Pending?
  {
  }
}
