/** The single-threaded event loop and its scheduler (event_loop.cpp, simulation_clock.cpp). */
module EventLoops {
  import opened Types
  import opened OrderBooks

  datatype InternalEventType = Timer | OrderArrival | CancelArrival | User

  datatype InternalEvent = InternalEvent(kind: InternalEventType, orderId: Option<int>)

  datatype Scheduled = Scheduled(timestamp: int, sequence: nat, event: InternalEvent)

  /** A call of `schedule_internal` made by a handler. */
  datatype Request = Request(timestamp: int, event: InternalEvent)

  datatype TraceEntry = MarketEntry(event: MarketEvent) | InternalEntry(scheduled: Scheduled)

  /** `LaterScheduledEvent` with its operands exchanged. */
  predicate Before(a: Scheduled, b: Scheduled) {
    a.timestamp < b.timestamp || (a.timestamp == b.timestamp && a.sequence < b.sequence)
  }

  /** The position of the queue's top: the least entry by (timestamp, sequence). */
  function Top(queue: seq<Scheduled>): (i: nat)
    requires queue != []
    ensures i < |queue|
    ensures forall j :: 0 <= j < |queue| ==> !Before(queue[j], queue[i])
  {
    if |queue| == 1 then 0
    else
      var last := |queue| - 1;
      var i := Top(queue[..last]);
      assert forall j :: 0 <= j < last ==> queue[..last][j] == queue[j];
      if Before(queue[last], queue[i]) then last else i
  }

  function RemoveAt<T>(s: seq<T>, i: nat): seq<T>
    requires i < |s|
  {
    s[..i] + s[i + 1..]
  }

  /** The entries a batch of requests creates when `base` events were scheduled before it. */
  function Stamped(requests: seq<Request>, base: nat): seq<Scheduled> {
    seq(|requests|, i requires 0 <= i < |requests| => Scheduled(requests[i].timestamp, base + i, requests[i].event))
  }

  predicate NonePast(requests: seq<Request>, now: int) {
    forall i :: 0 <= i < |requests| ==> now <= requests[i].timestamp
  }

  // ---- The loop as a state machine over an arbitrary handler state ----

  /** What a handler leaves behind: its new state and the events it scheduled. */
  datatype Handled<+H> = Handled(state: H, requests: seq<Request>)

  datatype Handlers<!H> = Handlers(
    onMarket: (H, Book, MarketEvent) -> Outcome<Handled<H>>,
    onInternal: (H, Book, Scheduled) -> Outcome<Handled<H>>)

  /** `scheduled` is the history of everything ever pushed; its length is the next sequence id. */
  datatype Loop<+H> = Loop(
    next: nat,
    now: int,
    queue: seq<Scheduled>,
    scheduled: seq<Scheduled>,
    book: Book,
    trace: seq<TraceEntry>,
    state: H)

  function Start<H>(state: H): Loop<H> {
    Loop(0, 0, [], [], EMPTY_BOOK, [], state)
  }

  predicate Finished<H>(events: seq<MarketEvent>, s: Loop<H>) {
    s.next >= |events| && s.queue == []
  }

  predicate MarketNext<H>(events: seq<MarketEvent>, s: Loop<H>) {
    s.next < |events| && (s.queue == [] || events[s.next].key.timestamp <= s.queue[Top(s.queue)].timestamp)
  }

  function Schedule<H>(s: Loop<H>, handled: Handled<H>): Outcome<Loop<H>> {
    if !NonePast(handled.requests, s.now) then Threw(InvalidArgument(ScheduleInPast))
    else
      var added := Stamped(handled.requests, |s.scheduled|);
      Done(s.(queue := s.queue + added, scheduled := s.scheduled + added, state := handled.state))
  }

  /** The market half of an iteration, up to the handler call. */
  function TakeMarket<H>(events: seq<MarketEvent>, s: Loop<H>): Outcome<Loop<H>>
    requires s.next < |events|
  {
    var event := events[s.next];
    if event.key.timestamp < s.now then Threw(InvalidArgument(ClockBackward))
    else
      var book :- if event.BookUpdate? then ApplyUpdate(s.book, event) else Done(s.book);
      Done(s.(next := s.next + 1, now := event.key.timestamp, book := book, trace := s.trace + [MarketEntry(event)]))
  }

  /** The internal half of an iteration, up to the handler call. */
  function TakeInternal<H>(s: Loop<H>): Outcome<Loop<H>>
    requires s.queue != []
  {
    var top := Top(s.queue);
    var event := s.queue[top];
    if event.timestamp < s.now then Threw(InvalidArgument(ClockBackward))
    else Done(s.(now := event.timestamp, queue := RemoveAt(s.queue, top), trace := s.trace + [InternalEntry(event)]))
  }

  /** One iteration of `EventLoop::run`. */
  function Step<H>(events: seq<MarketEvent>, handlers: Handlers<H>, s: Loop<H>): Outcome<Loop<H>>
    requires !Finished(events, s)
  {
    if MarketNext(events, s) then
      var taken :- TakeMarket(events, s);
      var handled :- handlers.onMarket(taken.state, taken.book, events[s.next]);
      Schedule(taken, handled)
    else
      var taken :- TakeInternal(s);
      var handled :- handlers.onInternal(taken.state, taken.book, s.queue[Top(s.queue)]);
      Schedule(taken, handled)
  }

  /** The state after `n` iterations, a finished loop staying where it is. */
  function Run<H>(events: seq<MarketEvent>, handlers: Handlers<H>, s: Loop<H>, n: nat): Outcome<Loop<H>> {
    if n == 0 then Done(s)
    else
      var before :- Run(events, handlers, s, n - 1);
      if Finished(events, before) then Done(before) else Step(events, handlers, before)
  }

  // ---- The mutable components ----

  class SimulationClock {
    var now: int

    constructor (initial: int)
      ensures now == initial
    {
      now := initial;
    }

    method AdvanceTo(timestamp: int) returns (result: Outcome<()>)
      modifies this
      ensures result == if timestamp < old(now) then Threw(InvalidArgument(ClockBackward)) else Done(())
      ensures now == if timestamp < old(now) then old(now) else timestamp
    {
      if timestamp < now {
        return Threw(InvalidArgument(ClockBackward));
      }
      now := timestamp;
      return Done(());
    }
  }

  class InternalEventScheduler {
    var nextSequence: nat
    var queue: seq<Scheduled>

    constructor ()
      ensures nextSequence == 0 && queue == []
    {
      nextSequence, queue := 0, [];
    }

    method Schedule(timestamp: int, event: InternalEvent, now: int) returns (result: Outcome<Scheduled>)
      modifies this
      ensures result.Threw? <==> timestamp < now
      ensures result.Threw? ==> result.error == InvalidArgument(ScheduleInPast)
      ensures result.Threw? ==> queue == old(queue) && nextSequence == old(nextSequence)
      ensures result.Done? ==> result.value == Scheduled(timestamp, old(nextSequence), event)
      ensures result.Done? ==> queue == old(queue) + [result.value] && nextSequence == old(nextSequence) + 1
    {
      if timestamp < now {
        return Threw(InvalidArgument(ScheduleInPast));
      }
      var scheduled := Scheduled(timestamp, nextSequence, event);
      nextSequence := nextSequence + 1;
      queue := queue + [scheduled];
      return Done(scheduled);
    }

    method PopNext() returns (result: Outcome<Scheduled>)
      modifies this
      ensures old(queue) == [] ==> result == Threw(LogicError) && queue == []
      ensures old(queue) != [] ==> result == Done(old(queue)[Top(old(queue))])
      ensures old(queue) != [] ==> queue == RemoveAt(old(queue), Top(old(queue)))
      ensures nextSequence == old(nextSequence)
    {
      if queue == [] {
        return Threw(LogicError);
      }
      var top := Top(queue);
      result := Done(queue[top]);
      queue := RemoveAt(queue, top);
    }
  }

  /** `EventLoop`, with the callback of `run` handed back to the caller: `Advance` does the part of an
      iteration that precedes the handler and returns the entry to dispatch. */
  class EventLoop {
    const events: seq<MarketEvent>
    const clock: SimulationClock
    const scheduler: InternalEventScheduler
    var next: nat
    var trace: seq<TraceEntry>
    ghost var scheduled: seq<Scheduled>

    constructor (events: seq<MarketEvent>)
      ensures this.events == events && fresh(clock) && fresh(scheduler)
      ensures Valid() && clock.now == 0 && next == 0
      ensures scheduler.queue == [] && scheduled == [] && trace == []
    {
      this.events := events;
      clock := new SimulationClock(0);
      scheduler := new InternalEventScheduler();
      next, trace, scheduled := 0, [], [];
    }

    ghost predicate Valid()
      reads this, scheduler
    {
      scheduler.nextSequence == |scheduled|
    }

    /** The abstract state, given the book the loop maintains and the handlers' own state. */
    ghost function View<H>(book: OrderBook, state: H): Loop<H>
      reads this, clock, scheduler, book
    {
      Loop(next, clock.now, scheduler.queue, scheduled, book.Value(), trace, state)
    }

    method HasNext() returns (more: bool)
      ensures more == (next < |events| || scheduler.queue != [])
    {
      more := next < |events| || scheduler.queue != [];
    }

    method ScheduleInternal(timestamp: int, event: InternalEvent) returns (result: Outcome<Scheduled>)
      requires Valid()
      modifies this`scheduled, scheduler
      ensures Valid()
      ensures result.Threw? <==> timestamp < clock.now
      ensures result.Threw? ==> result.error == InvalidArgument(ScheduleInPast)
      ensures result.Done? ==> result.value == Scheduled(timestamp, old(|scheduled|), event)
      ensures result.Done? ==> scheduler.queue == old(scheduler.queue) + [result.value]
      ensures result.Done? ==> scheduled == old(scheduled) + [result.value]
    {
      result := scheduler.Schedule(timestamp, event, clock.now);
      if result.Done? {
        scheduled := scheduled + [result.value];
      }
    }

    method ShouldProcessMarketNext() returns (market: bool)
      ensures market == (next < |events|
        && (scheduler.queue == [] || events[next].key.timestamp <= scheduler.queue[Top(scheduler.queue)].timestamp))
    {
      if next >= |events| {
        return false;
      }
      if scheduler.queue == [] {
        return true;
      }
      return events[next].key.timestamp <= scheduler.queue[Top(scheduler.queue)].timestamp;
    }

    method Advance<H>(book: OrderBook, ghost state: H) returns (result: Outcome<TraceEntry>)
      requires Valid()
      requires next < |events| || scheduler.queue != []
      modifies this, clock, scheduler, book
      ensures Valid()
      ensures old(MarketNext(events, View(book, state))) ==>
        match TakeMarket(events, old(View(book, state)))
        case Threw(error) => result == Threw(error)
        case Done(taken) => result == Done(MarketEntry(events[old(next)])) && View(book, state) == taken
      ensures !old(MarketNext(events, View(book, state))) ==>
        old(scheduler.queue) != [] &&
        match TakeInternal(old(View(book, state)))
        case Threw(error) => result == Threw(error)
        case Done(taken) => result == Done(InternalEntry(old(scheduler.queue)[Top(old(scheduler.queue))])) && View(book, state) == taken
    {
      var market := ShouldProcessMarketNext();
      if market {
        var event := events[next];
        var _ :- clock.AdvanceTo(event.key.timestamp);
        if event.BookUpdate? {
          var _ :- book.Apply(event);
        }
        trace := trace + [MarketEntry(event)];
        next := next + 1;
        return Done(MarketEntry(event));
      }
      var popped := scheduler.PopNext();
      var event := popped.value;
      var _ :- clock.AdvanceTo(event.timestamp);
      trace := trace + [InternalEntry(event)];
      return Done(InternalEntry(event));
    }
  }
}
