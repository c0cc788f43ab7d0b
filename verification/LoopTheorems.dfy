/** What every run of the event loop guarantees, whatever its handlers do. */
module LoopTheorems {
  import opened Types
  import opened OrderBooks
  import opened EventLoops

  /** The order the feeds promise, over unsigned keys. */
  predicate SortedEvents(events: seq<MarketEvent>) {
    && (forall i :: 0 <= i < |events| ==> 0 <= events[i].key.timestamp)
    && forall i, j :: 0 <= i < j < |events| ==> KeyLess(events[i].key, events[j].key)
  }

  function TimeOf(entry: TraceEntry): int {
    match entry
    case MarketEntry(event) => event.key.timestamp
    case InternalEntry(scheduled) => scheduled.timestamp
  }

  /** Timestamp, then Market before Internal, then the sequence id of the class. */
  predicate EntryLess(a: TraceEntry, b: TraceEntry) {
    TimeOf(a) < TimeOf(b) || (TimeOf(a) == TimeOf(b) &&
      match (a, b)
      case (MarketEntry(m), MarketEntry(n)) => m.key.sequence < n.key.sequence
      case (MarketEntry(_), InternalEntry(_)) => true
      case (InternalEntry(_), MarketEntry(_)) => false
      case (InternalEntry(p), InternalEntry(q)) => p.sequence < q.sequence)
  }

  predicate TraceSorted(trace: seq<TraceEntry>) {
    forall i, j :: 0 <= i < j < |trace| ==> EntryLess(trace[i], trace[j])
  }

  function MarketsOf(trace: seq<TraceEntry>): seq<MarketEvent> {
    if trace == [] then []
    else
      var last := trace[|trace| - 1];
      MarketsOf(trace[..|trace| - 1]) + if last.MarketEntry? then [last.event] else []
  }

  function InternalsOf(trace: seq<TraceEntry>): seq<Scheduled> {
    if trace == [] then []
    else
      var last := trace[|trace| - 1];
      InternalsOf(trace[..|trace| - 1]) + if last.InternalEntry? then [last.scheduled] else []
  }

  // ---- The ordering invariant ----

  predicate NumberedFrom<H>(s: Loop<H>) {
    && (forall k :: 0 <= k < |s.scheduled| ==> s.scheduled[k].sequence == k)
    && (forall j :: 0 <= j < |s.queue| ==> s.queue[j].sequence < |s.scheduled|)
    && (forall i, j :: 0 <= i < j < |s.queue| ==> s.queue[i].sequence < s.queue[j].sequence)
  }

  predicate ClockBehind<H>(events: seq<MarketEvent>, s: Loop<H>) {
    && s.next <= |events|
    && (forall j :: 0 <= j < |s.queue| ==> s.now <= s.queue[j].timestamp)
    && (forall k :: s.next <= k < |events| ==> s.now <= events[k].key.timestamp)
  }

  predicate PastBeforeFuture<H>(events: seq<MarketEvent>, s: Loop<H>) {
    && (forall i :: 0 <= i < |s.trace| ==> TimeOf(s.trace[i]) <= s.now)
    && (forall i :: 0 <= i < |s.trace| && s.trace[i].InternalEntry? ==> s.trace[i].scheduled.sequence < |s.scheduled|)
    && (forall i, j :: 0 <= i < |s.trace| && 0 <= j < |s.queue| ==> EntryLess(s.trace[i], InternalEntry(s.queue[j])))
    && (forall i, k :: 0 <= i < |s.trace| && s.next <= k < |events| ==> EntryLess(s.trace[i], MarketEntry(events[k])))
  }

  predicate OrderInv<H>(events: seq<MarketEvent>, s: Loop<H>) {
    NumberedFrom(s) && ClockBehind(events, s) && PastBeforeFuture(events, s) && TraceSorted(s.trace)
  }

  predicate OnceInv<H>(events: seq<MarketEvent>, s: Loop<H>) {
    && s.next <= |events|
    && MarketsOf(s.trace) == events[..s.next]
    && multiset(InternalsOf(s.trace)) + multiset(s.queue) == multiset(s.scheduled)
  }

  predicate BookInv<H>(events: seq<MarketEvent>, s: Loop<H>) {
    s.next <= |events| && Fold(events[..s.next]) == Done(s.book)
  }

  predicate LoopInv<H>(events: seq<MarketEvent>, s: Loop<H>) {
    OrderInv(events, s) && OnceInv(events, s) && BookInv(events, s)
  }

  lemma {:induction false} TakeMarketOrder<H>(events: seq<MarketEvent>, s: Loop<H>)
    requires SortedEvents(events) && OrderInv(events, s) && MarketNext(events, s)
    requires TakeMarket(events, s).Done?
    ensures OrderInv(events, TakeMarket(events, s).value)
  {
    hide PastBeforeFuture;
    NextBeforeQueue(events, s);
    TakeMarketTrace(events, s);
    var t := TakeMarket(events, s).value;
    assert NumberedFrom(t) && ClockBehind(events, t);
  }

  lemma {:induction false} NextBeforeQueue<H>(events: seq<MarketEvent>, s: Loop<H>)
    requires MarketNext(events, s)
    ensures forall j :: 0 <= j < |s.queue| ==> events[s.next].key.timestamp <= s.queue[j].timestamp
  {
    forall j | 0 <= j < |s.queue|
      ensures events[s.next].key.timestamp <= s.queue[j].timestamp
    {
      assert !Before(s.queue[j], s.queue[Top(s.queue)]);
    }
  }

  lemma {:induction false} TakeMarketTrace<H>(events: seq<MarketEvent>, s: Loop<H>)
    requires SortedEvents(events) && OrderInv(events, s) && MarketNext(events, s)
    requires TakeMarket(events, s).Done?
    ensures PastBeforeFuture(events, TakeMarket(events, s).value) && TraceSorted(TakeMarket(events, s).value.trace)
  {
    hide NumberedFrom, ApplyUpdate;
    NextBeforeQueue(events, s);
  }

  lemma {:induction false} TakeMarketKeeps<H>(events: seq<MarketEvent>, s: Loop<H>)
    requires SortedEvents(events) && LoopInv(events, s) && MarketNext(events, s)
    requires TakeMarket(events, s).Done?
    ensures LoopInv(events, TakeMarket(events, s).value)
  {
    hide OrderInv, OnceInv, BookInv;
    TakeMarketOrder(events, s);
    TakeMarketOnce(events, s);
    TakeMarketBook(events, s);
  }

  lemma {:induction false} TakeMarketOnce<H>(events: seq<MarketEvent>, s: Loop<H>)
    requires OnceInv(events, s) && s.next < |events| && TakeMarket(events, s).Done?
    ensures OnceInv(events, TakeMarket(events, s).value)
  {
    hide ApplyUpdate;
    var t := TakeMarket(events, s).value;
    assert t.trace[..|s.trace|] == s.trace;
    assert events[..t.next] == events[..s.next] + [events[s.next]];
    assert InternalsOf(t.trace) == InternalsOf(s.trace);
  }

  lemma {:induction false} TakeMarketBook<H>(events: seq<MarketEvent>, s: Loop<H>)
    requires BookInv(events, s) && s.next < |events| && TakeMarket(events, s).Done?
    ensures BookInv(events, TakeMarket(events, s).value)
  {
    hide ApplyUpdate;
    assert events[..s.next + 1][..s.next] == events[..s.next];
  }

  lemma {:induction false} RemovedSplit<T>(q: seq<T>, i: nat)
    requires i < |q|
    ensures multiset(RemoveAt(q, i)) + multiset{q[i]} == multiset(q)
    ensures forall x :: x in RemoveAt(q, i) ==> x in q
  {
    assert q == q[..i] + [q[i]] + q[i + 1..];
  }

  lemma {:induction false} TopIsLeast(queue: seq<Scheduled>, j: nat)
    requires forall i, k :: 0 <= i < k < |queue| ==> queue[i].sequence < queue[k].sequence
    requires queue != [] && j < |RemoveAt(queue, Top(queue))|
    ensures Before(queue[Top(queue)], RemoveAt(queue, Top(queue))[j])
  {
    var top := Top(queue);
    var k := if j < top then j else j + 1;
    assert RemoveAt(queue, top)[j] == queue[k] && !Before(queue[k], queue[top]);
  }

  /** Taking the top of the queue when the market is not next. */
  lemma {:induction false} TopBeforeRest<H>(events: seq<MarketEvent>, s: Loop<H>)
    requires SortedEvents(events) && NumberedFrom(s) && s.queue != [] && !MarketNext(events, s) && s.next <= |events|
    ensures var top := s.queue[Top(s.queue)];
      var rest := RemoveAt(s.queue, Top(s.queue));
      && (forall j :: 0 <= j < |rest| ==> Before(top, rest[j]))
      && (forall k :: s.next <= k < |events| ==> top.timestamp < events[k].key.timestamp)
  {
    var top := s.queue[Top(s.queue)];
    forall j | 0 <= j < |RemoveAt(s.queue, Top(s.queue))|
      ensures Before(top, RemoveAt(s.queue, Top(s.queue))[j])
    {
      TopIsLeast(s.queue, j);
    }
    forall k | s.next <= k < |events|
      ensures top.timestamp < events[k].key.timestamp
    {
      assert k > s.next ==> KeyLess(events[s.next].key, events[k].key);
    }
  }

  lemma {:induction false} RemovalNumbered(queue: seq<Scheduled>, i: nat, n: nat)
    requires i < |queue|
    requires forall j :: 0 <= j < |queue| ==> queue[j].sequence < n
    requires forall j, k :: 0 <= j < k < |queue| ==> queue[j].sequence < queue[k].sequence
    ensures var rest := RemoveAt(queue, i);
      && (forall j :: 0 <= j < |rest| ==> rest[j].sequence < n && rest[j] in queue)
      && (forall j, k :: 0 <= j < k < |rest| ==> rest[j].sequence < rest[k].sequence)
  {
  }

  lemma {:induction false} TakeInternalOrder<H>(events: seq<MarketEvent>, s: Loop<H>)
    requires SortedEvents(events) && OrderInv(events, s) && s.queue != [] && !MarketNext(events, s)
    requires TakeInternal(s).Done?
    ensures OrderInv(events, TakeInternal(s).value)
  {
    TopBeforeRest(events, s);
    RemovalNumbered(s.queue, Top(s.queue), |s.scheduled|);
    TakenInternalOrder(events, s, TakeInternal(s).value);
  }

  lemma {:induction false} TakenInternalOrder<H>(events: seq<MarketEvent>, s: Loop<H>, t: Loop<H>)
    requires SortedEvents(events) && OrderInv(events, s) && s.queue != []
    requires var top := s.queue[Top(s.queue)];
      && (forall j :: 0 <= j < |t.queue| ==> Before(top, t.queue[j]))
      && (forall k :: s.next <= k < |events| ==> top.timestamp < events[k].key.timestamp)
      && t == s.(now := top.timestamp, trace := s.trace + [InternalEntry(top)], queue := t.queue)
    requires NumberedFrom(t) && forall j :: 0 <= j < |t.queue| ==> t.queue[j] in s.queue
    ensures OrderInv(events, t)
  {
    hide RemoveAt, Top;
    assert TraceSorted(t.trace);
    assert ClockBehind(events, t);
    assert PastBeforeFuture(events, t);
  }

  lemma {:induction false} TakeInternalKeeps<H>(events: seq<MarketEvent>, s: Loop<H>)
    requires SortedEvents(events) && LoopInv(events, s) && s.queue != [] && !MarketNext(events, s)
    requires TakeInternal(s).Done?
    ensures LoopInv(events, TakeInternal(s).value)
  {
    var t := TakeInternal(s).value;
    var top := Top(s.queue);
    TakeInternalOrder(events, s);
    assert t.trace[..|s.trace|] == s.trace;
    RemovedSplit(s.queue, top);
    assert InternalsOf(t.trace) == InternalsOf(s.trace) + [s.queue[top]];
  }

  lemma {:induction false} ScheduleOrder<H>(events: seq<MarketEvent>, s: Loop<H>, handled: Handled<H>)
    requires OrderInv(events, s) && Schedule(s, handled).Done?
    ensures OrderInv(events, Schedule(s, handled).value)
  {
    var t := Schedule(s, handled).value;
    var added := Stamped(handled.requests, |s.scheduled|);
    forall j | |s.queue| <= j < |t.queue|
      ensures t.queue[j] == added[j - |s.queue|]
    {
    }
    assert NumberedFrom(t);
    assert ClockBehind(events, t);
    forall i, j | 0 <= i < |t.trace| && 0 <= j < |t.queue|
      ensures EntryLess(t.trace[i], InternalEntry(t.queue[j]))
    {
      if j >= |s.queue| {
        assert TimeOf(s.trace[i]) <= s.now <= added[j - |s.queue|].timestamp;
      }
    }
    assert PastBeforeFuture(events, t);
  }

  lemma {:induction false} ScheduleKeeps<H>(events: seq<MarketEvent>, s: Loop<H>, handled: Handled<H>)
    requires LoopInv(events, s) && Schedule(s, handled).Done?
    ensures LoopInv(events, Schedule(s, handled).value)
  {
    ScheduleOrder(events, s, handled);
  }

  lemma {:induction false} StepKeeps<H>(events: seq<MarketEvent>, handlers: Handlers<H>, s: Loop<H>)
    requires SortedEvents(events) && LoopInv(events, s) && !Finished(events, s)
    requires Step(events, handlers, s).Done?
    ensures LoopInv(events, Step(events, handlers, s).value)
  {
    if MarketNext(events, s) {
      TakeMarketKeeps(events, s);
      var taken := TakeMarket(events, s).value;
      ScheduleKeeps(events, taken, handlers.onMarket(taken.state, taken.book, events[s.next]).value);
    } else {
      TakeInternalKeeps(events, s);
      var taken := TakeInternal(s).value;
      ScheduleKeeps(events, taken, handlers.onInternal(taken.state, taken.book, s.queue[Top(s.queue)]).value);
    }
  }

  lemma {:induction false} StartOk<H>(events: seq<MarketEvent>, start: H)
    requires SortedEvents(events)
    ensures LoopInv(events, Start(start))
  {
  }

  lemma {:induction false} RunKeeps<H>(events: seq<MarketEvent>, handlers: Handlers<H>, start: H, n: nat)
    requires SortedEvents(events) && Run(events, handlers, Start(start), n).Done?
    ensures LoopInv(events, Run(events, handlers, Start(start), n).value)
  {
    hide LoopInv, SortedEvents, Step, Finished;
    if n == 0 {
      StartOk(events, start);
    } else {
      RunKeeps(events, handlers, start, n - 1);
      var before := Run(events, handlers, Start(start), n - 1).value;
      if !Finished(events, before) {
        StepKeeps(events, handlers, before);
      }
    }
  }

  // ---- Main results ----

  /** At every point of every run the trace is strictly increasing in (timestamp, class, sequence);
      on completion it holds the market stream in order and each scheduled event exactly once. */
  lemma {:induction false} TotalOrder<H>(events: seq<MarketEvent>, handlers: Handlers<H>, start: H, n: nat)
    requires SortedEvents(events) && Run(events, handlers, Start(start), n).Done?
    ensures var s := Run(events, handlers, Start(start), n).value;
      && TraceSorted(s.trace)
      && MarketsOf(s.trace) <= events
      && multiset(InternalsOf(s.trace)) <= multiset(s.scheduled)
      && (forall k :: 0 <= k < |s.scheduled| ==> s.scheduled[k].sequence == k)
      && (Finished(events, s) ==> MarketsOf(s.trace) == events && multiset(InternalsOf(s.trace)) == multiset(s.scheduled))
  {
    RunKeeps(events, handlers, start, n);
    var s := Run(events, handlers, Start(start), n).value;
    if Finished(events, s) {
      assert events[..s.next] == events;
    }
  }

  /** The loop itself never throws on a sorted, well-formed stream: only a handler, or a handler
      scheduling in the past, can stop a run. */
  lemma {:induction false} OnlyHandlersThrow<H>(events: seq<MarketEvent>, handlers: Handlers<H>, s: Loop<H>)
    requires SortedEvents(events) && EventsOk(events) && LoopInv(events, s) && !Finished(events, s)
    ensures MarketNext(events, s) ==> TakeMarket(events, s).Done?
    ensures !MarketNext(events, s) ==> TakeInternal(s).Done?
  {
  }

  /** The market events stamped no later than `time`. */
  function UpTo(events: seq<MarketEvent>, time: int): seq<MarketEvent> {
    if events == [] then []
    else
      var last := events[|events| - 1];
      UpTo(events[..|events| - 1], time) + if last.key.timestamp <= time then [last] else []
  }

  lemma {:induction false} UpToPrefix(events: seq<MarketEvent>, time: int, n: nat)
    requires n <= |events|
    requires forall k :: 0 <= k < n ==> events[k].key.timestamp <= time
    requires forall k :: n <= k < |events| ==> time < events[k].key.timestamp
    ensures UpTo(events, time) == events[..n]
  {
    if events != [] {
      var init := events[..|events| - 1];
      if n == |events| {
        UpToPrefix(init, time, n - 1);
        assert events[..n] == init[..n - 1] + [events[n - 1]];
      } else {
        UpToPrefix(init, time, n);
        assert init[..n] == events[..n];
      }
    }
  }

  lemma {:induction false} MarketsAreEntries(trace: seq<TraceEntry>, k: nat)
    requires k < |MarketsOf(trace)|
    ensures exists i :: 0 <= i < |trace| && trace[i] == MarketEntry(MarketsOf(trace)[k])
  {
    var init := trace[..|trace| - 1];
    if k < |MarketsOf(init)| {
      MarketsAreEntries(init, k);
      var i :| 0 <= i < |init| && init[i] == MarketEntry(MarketsOf(init)[k]);
      assert trace[i] == MarketEntry(MarketsOf(trace)[k]);
    } else {
      assert trace[|trace| - 1] == MarketEntry(MarketsOf(trace)[k]);
    }
  }

  /** The book an internal event at time T is handled with is the fold of exactly the updates
      stamped no later than T. */
  lemma {:induction false} NoLookAhead<H>(events: seq<MarketEvent>, handlers: Handlers<H>, start: H, n: nat)
    requires SortedEvents(events) && Run(events, handlers, Start(start), n).Done?
    requires var s := Run(events, handlers, Start(start), n).value;
      !Finished(events, s) && !MarketNext(events, s) && TakeInternal(s).Done?
    ensures var s := Run(events, handlers, Start(start), n).value;
      Fold(UpTo(events, s.queue[Top(s.queue)].timestamp)) == Done(TakeInternal(s).value.book)
  {
    hide LoopInv, Step, Finished, MarketNext, Top, Fold, UpTo;
    RunKeeps(events, handlers, start, n);
    InternalBook(events, Run(events, handlers, Start(start), n).value);
  }

  lemma {:induction false} InternalBook<H>(events: seq<MarketEvent>, s: Loop<H>)
    requires SortedEvents(events) && LoopInv(events, s) && s.queue != [] && !MarketNext(events, s)
    requires TakeInternal(s).Done?
    ensures Fold(UpTo(events, s.queue[Top(s.queue)].timestamp)) == Done(TakeInternal(s).value.book)
  {
    hide Fold, UpTo, MarketNext;
    TakeInternalKeeps(events, s);
    var t := TakeInternal(s).value;
    forall k | 0 <= k < s.next
      ensures events[k].key.timestamp <= t.now
    {
      assert events[..s.next][k] == events[k];
      MarketsAreEntries(t.trace, k);
    }
    forall k | s.next <= k < |events|
      ensures t.now < events[k].key.timestamp
    {
      assert EntryLess(t.trace[|s.trace|], MarketEntry(events[k]));
    }
    UpToPrefix(events, t.now, s.next);
  }

  lemma {:induction false} StepClock<H>(events: seq<MarketEvent>, handlers: Handlers<H>, s: Loop<H>)
    requires !Finished(events, s) && Step(events, handlers, s).Done?
    ensures var t := Step(events, handlers, s).value;
      t.trace != [] && t.now == TimeOf(t.trace[|t.trace| - 1])
  {
    hide ApplyUpdate, MarketNext, Stamped, NonePast, RemoveAt;
  }

  /** The clock shows the time of the last event processed. */
  lemma {:induction false} ClockIsLast<H>(events: seq<MarketEvent>, handlers: Handlers<H>, start: H, n: nat)
    requires Run(events, handlers, Start(start), n).Done?
    ensures var s := Run(events, handlers, Start(start), n).value;
      s.now == if s.trace == [] then 0 else TimeOf(s.trace[|s.trace| - 1])
  {
    hide Step, Finished;
    if n > 0 {
      ClockIsLast(events, handlers, start, n - 1);
      var before := Run(events, handlers, Start(start), n - 1).value;
      if !Finished(events, before) {
        StepClock(events, handlers, before);
      }
    }
  }

  /** Two completed runs over one market stream end with the same book, whatever their handlers are. */
  lemma {:induction false} NonInterference<G, H>(events: seq<MarketEvent>, one: Handlers<G>, g: G, m: nat,
      two: Handlers<H>, h: H, n: nat)
    requires SortedEvents(events)
    requires Run(events, one, Start(g), m).Done? && Finished(events, Run(events, one, Start(g), m).value)
    requires Run(events, two, Start(h), n).Done? && Finished(events, Run(events, two, Start(h), n).value)
    ensures Run(events, one, Start(g), m).value.book == Run(events, two, Start(h), n).value.book
    ensures Fold(events) == Done(Run(events, one, Start(g), m).value.book)
  {
    RunKeeps(events, one, g, m);
    RunKeeps(events, two, h, n);
    assert events[..|events|] == events;
  }
}
