/** Results about whole engine runs. */
module EngineTheorems {
  import opened Types
  import opened OrderBooks
  import opened Orders
  import opened EventLoops
  import opened LoopTheorems
  import opened LatencyExecution
  import opened Registry
  import opened RegistrySteps
  import opened PortfolioTheorems
  import opened ReplayEngines
  import opened PendingEvents
  import opened EngineInvariants

  /** What a run is given: a feed as the parser and the merge deliver it, and a typed strategy. */
  ghost predicate InputsOk<S(!new)>(strategy: Strategy<S>, events: seq<MarketEvent>) {
    SortedEvents(events) && EventsOk(events) && StrategyTyped(strategy)
  }

  lemma {:induction false} StartInv<S>(cfg: EngineConfig, start: S, events: seq<MarketEvent>)
    requires SortedEvents(events)
    ensures EngineInv(cfg, events, Start(StartEngine(cfg, start)))
  {
    hide LoopInv;
    StartOk(events, StartEngine(cfg, start));
  }

  /** One iteration from a reachable state: it keeps the invariant, or it throws; a strategy that emits
      well-formed intents leaves only overflow and the late cancel as reasons. */
  lemma {:induction false} EngineStep<S(!new)>(cfg: EngineConfig, strategy: Strategy<S>, events: seq<MarketEvent>,
      s: Loop<Engine<S>>)
    requires InputsOk(strategy, events) && EngineInv(cfg, events, s) && !Finished(events, s)
    ensures var r := Step(events, EngineHandlers(cfg, strategy), s);
      && (r.Done? ==> EngineInv(cfg, events, r.value) && !CancelTooLate(events, s))
      && (r.Done? ==> Evolves(s.state.exec, r.value.state.exec))
      && (r.Threw? && StrategyOk(strategy) ==>
        r.error == OverflowError || (r.error == InvalidArgument(NotResting) && CancelTooLate(events, s)))
  {
    hide Evolves, EngineInv, SortedEvents, EventsOk, StrategyTyped, StrategyOk, Step;
    if MarketNext(events, s) {
      MarketStep(cfg, strategy, events, s);
    } else {
      InternalStep(cfg, strategy, events, s);
    }
  }

  /** The invariant holds at every point of every run. */
  lemma {:induction false} RunInvariant<S(!new)>(cfg: EngineConfig, strategy: Strategy<S>, start: S,
      events: seq<MarketEvent>, n: nat)
    requires InputsOk(strategy, events) && EngineRun(cfg, strategy, start, events, n).Done?
    ensures EngineInv(cfg, events, EngineRun(cfg, strategy, start, events, n).value)
  {
    hide EngineInv, InputsOk, Step, EngineHandlers, Finished;
    if n == 0 {
      InputsSorted(strategy, events);
      StartInv(cfg, start, events);
    } else {
      RunInvariant(cfg, strategy, start, events, n - 1);
      var before := EngineRun(cfg, strategy, start, events, n - 1).value;
      if !Finished(events, before) {
        EngineStep(cfg, strategy, events, before);
      }
    }
  }

  lemma {:induction false} InputsSorted<S(!new)>(strategy: Strategy<S>, events: seq<MarketEvent>)
    requires InputsOk(strategy, events)
    ensures SortedEvents(events) && EventsOk(events) && StrategyTyped(strategy)
  {
  }

  /** The account of a reachable state is the replay of its fills. */
  lemma {:induction false} AccountReplays<S>(cfg: EngineConfig, events: seq<MarketEvent>, s: Loop<Engine<S>>)
    requires EngineInv(cfg, events, s)
    ensures Replay(cfg.initialCash, s.state.exec.fills) == Done(s.state.account)
  {
    hide LoopInv, ExecInv, QueueInv, FillTimes, ArrivedBehind;
  }

  // ---- Termination ----

  function WeightOf(event: InternalEvent): nat {
    if event.kind.OrderArrival? then 2 else 1
  }

  /** Twice the pending order arrivals plus the pending cancels. */
  function Weight(pending: seq<Request>): nat {
    if pending == [] then 0 else Weight(pending[..|pending| - 1]) + WeightOf(pending[|pending| - 1].event)
  }

  lemma {:induction false} WeightAppend(a: seq<Request>, b: seq<Request>)
    ensures Weight(a + b) == Weight(a) + Weight(b)
  {
    if b == [] {
      assert a + b == a;
    } else {
      WeightAppend(a, b[..|b| - 1]);
      assert (a + b)[..|a + b| - 1] == a + b[..|b| - 1];
    }
  }

  lemma {:induction false} WeightRemoved(pending: seq<Request>, i: nat)
    requires i < |pending|
    ensures Weight(RemoveAt(pending, i)) == Weight(pending) - WeightOf(pending[i].event)
  {
    var head, tail := pending[..i], pending[i + 1..];
    assert pending == head + ([pending[i]] + tail);
    WeightAppend(head, [pending[i]] + tail);
    WeightAppend([pending[i]], tail);
    WeightAppend(head, tail);
    assert Weight([pending[i]]) == WeightOf(pending[i].event) by {
      assert [pending[i]][..0] == [];
    }
  }

  /** The pending list of the next state. */
  lemma {:induction false} PendingNext<S>(cfg: EngineConfig, strategy: Strategy<S>, events: seq<MarketEvent>,
      s: Loop<Engine<S>>)
    requires !Finished(events, s) && Step(events, EngineHandlers(cfg, strategy), s).Done?
    ensures var t := Step(events, EngineHandlers(cfg, strategy), s).value;
      if MarketNext(events, s) then
        && t.next == s.next + 1 && s.next < |events|
        && PendingOf(s.queue) <= PendingOf(t.queue)
      else
        var event := s.queue[Top(s.queue)];
        var r := OnInternal(cfg, strategy, s.state, s.book, event);
        && t.next == s.next && r.Done? && t.state == r.value.state
        && PendingOf(t.queue) == RemoveAt(PendingOf(s.queue), Top(s.queue)) + r.value.requests
  {
    hide OnMarket, OnInternal;
    var t := Step(events, EngineHandlers(cfg, strategy), s).value;
    if MarketNext(events, s) {
      var taken := TakeMarket(events, s).value;
      var r := OnMarket(cfg, strategy, taken.state, taken.book, events[s.next]).value;
      PendingAfterSchedule(s.queue, r.requests, |s.scheduled|);
    } else {
      var event := s.queue[Top(s.queue)];
      var r := OnInternal(cfg, strategy, s.state, s.book, event).value;
      PendingAfterRemoval(s.queue, Top(s.queue));
      PendingAfterSchedule(RemoveAt(s.queue, Top(s.queue)), r.requests, |s.scheduled|);
    }
  }

  /** An internal event schedules at most one cancel, and only an arrival does. */
  lemma {:induction false} RequestsBounded<S>(cfg: EngineConfig, strategy: Strategy<S>, e: Engine<S>, book: Book,
      event: Scheduled)
    requires event.event.kind.OrderArrival? || event.event.kind.CancelArrival?
    requires OnInternal(cfg, strategy, e, book, event).Done?
    ensures var requests := OnInternal(cfg, strategy, e, book, event).value.requests;
      requests == [] || (event.event.kind.OrderArrival? && |requests| == 1 && requests[0].event.kind.CancelArrival?)
  {
    hide ArrivalResult, ApplyNewFills, CancelResult;
  }

  lemma {:induction false} NextKind<S>(cfg: EngineConfig, events: seq<MarketEvent>, s: Loop<Engine<S>>)
    requires EngineInv(cfg, events, s) && s.queue != []
    ensures var event := s.queue[Top(s.queue)].event;
      && (event.kind.OrderArrival? || event.kind.CancelArrival?)
      && event.orderId.Some? && 1 <= event.orderId.value <= |s.state.exec.orders|
      && RequestOk(cfg, s.state.exec.orders, PendingOf(s.queue)[Top(s.queue)])
      && PendingOf(s.queue)[Top(s.queue)] == Request(s.queue[Top(s.queue)].timestamp, event)
  {
    hide LoopInv, ExecInv, AccountInv, FillTimes, ArrivedBehind;
    RequestFromQueue(cfg, PendingOf(s.queue), Top(s.queue), s.state.exec.orders);
  }

  /** Every iteration lowers (market events left, weight of the queue), although market handlers may
      schedule any number of arrivals. */
  lemma {:induction false} MeasureDrops<S(!new)>(cfg: EngineConfig, strategy: Strategy<S>, events: seq<MarketEvent>,
      s: Loop<Engine<S>>)
    requires EngineInv(cfg, events, s) && !Finished(events, s) && Step(events, EngineHandlers(cfg, strategy), s).Done?
    ensures var t := Step(events, EngineHandlers(cfg, strategy), s).value;
      s.next < t.next <= |events| || (t.next == s.next && Weight(PendingOf(t.queue)) < Weight(PendingOf(s.queue)))
  {
    hide EngineInv, OnInternal, Step, RequestOk, RemoveAt;
    PendingNext(cfg, strategy, events, s);
    if !MarketNext(events, s) {
      NextKind(cfg, events, s);
      var event := s.queue[Top(s.queue)];
      RequestsBounded(cfg, strategy, s.state, s.book, event);
      var requests := OnInternal(cfg, strategy, s.state, s.book, event).value.requests;
      WeightRemoved(PendingOf(s.queue), Top(s.queue));
      WeightAppend(RemoveAt(PendingOf(s.queue), Top(s.queue)), requests);
      if requests != [] {
        assert requests[..0] == [];
      }
    }
  }

  predicate Ended<S>(events: seq<MarketEvent>, r: Outcome<Loop<Engine<S>>>) {
    r.Threw? || Finished(events, r.value)
  }

  /** Every run ends: after some number of events it is finished or has thrown. */
  lemma {:induction false} EngineTerminates<S(!new)>(cfg: EngineConfig, strategy: Strategy<S>, start: S,
      events: seq<MarketEvent>)
    requires InputsOk(strategy, events)
    ensures exists n :: n >= 0 && Ended(events, EngineRun(cfg, strategy, start, events, n))
  {
    hide InputsOk, Step;
    var n := EndsFrom(cfg, strategy, start, events, 0);
  }

  lemma {:induction false} EndsFrom<S(!new)>(cfg: EngineConfig, strategy: Strategy<S>, start: S,
      events: seq<MarketEvent>, from: nat) returns (n: nat)
    requires InputsOk(strategy, events) && EngineRun(cfg, strategy, start, events, from).Done?
    ensures Ended(events, EngineRun(cfg, strategy, start, events, n))
    decreases |events| - EngineRun(cfg, strategy, start, events, from).value.next,
      Weight(PendingOf(EngineRun(cfg, strategy, start, events, from).value.queue))
  {
    hide InputsOk, EngineInv, Step, EngineHandlers, Weight;
    var s := EngineRun(cfg, strategy, start, events, from).value;
    RunInvariant(cfg, strategy, start, events, from);
    if Finished(events, s) {
      n := from;
    } else {
      var t := Step(events, EngineHandlers(cfg, strategy), s);
      assert EngineRun(cfg, strategy, start, events, from + 1) == t;
      if t.Threw? {
        n := from + 1;
      } else {
        MeasureDrops(cfg, strategy, events, s);
        n := EndsFrom(cfg, strategy, start, events, from + 1);
      }
    }
  }

  // ---- Runs as chains ----

  lemma {:induction false} RunMonotone<S>(cfg: EngineConfig, strategy: Strategy<S>, start: S,
      events: seq<MarketEvent>, m: nat, n: nat)
    requires m <= n && EngineRun(cfg, strategy, start, events, n).Done?
    ensures EngineRun(cfg, strategy, start, events, m).Done?
    decreases n - m
  {
    hide Step, EngineHandlers;
    if m < n {
      RunMonotone(cfg, strategy, start, events, m + 1, n);
    }
  }

  lemma {:induction false} ThrownAfter<S>(cfg: EngineConfig, strategy: Strategy<S>, start: S,
      events: seq<MarketEvent>, n: nat) returns (k: nat)
    requires EngineRun(cfg, strategy, start, events, n).Threw?
    ensures k < n && EngineRun(cfg, strategy, start, events, k).Done?
    ensures !Finished(events, EngineRun(cfg, strategy, start, events, k).value)
    ensures Step(events, EngineHandlers(cfg, strategy), EngineRun(cfg, strategy, start, events, k).value)
         == EngineRun(cfg, strategy, start, events, n)
  {
    hide Step, EngineHandlers;
    if EngineRun(cfg, strategy, start, events, n - 1).Threw? {
      k := ThrownAfter(cfg, strategy, start, events, n - 1);
    } else {
      k := n - 1;
    }
  }

  // ---- Which runs abort ----

  /** Some order has been filled completely while its cancel is still scheduled. */
  predicate Doomed<S>(s: Loop<Engine<S>>) {
    exists id :: 1 <= id <= |s.state.exec.orders| && s.state.exec.orders[id - 1].status.Filled?
      && HasEvent(PendingOf(s.queue), CancelEvent(id))
  }

  /** A scheduled cancel stays scheduled until it is handled, and is handled only successfully. */
  lemma {:induction false} CancelPersists<S(!new)>(cfg: EngineConfig, strategy: Strategy<S>,
      events: seq<MarketEvent>, s: Loop<Engine<S>>, id: int)
    requires InputsOk(strategy, events) && EngineInv(cfg, events, s) && !Finished(events, s)
    requires Step(events, EngineHandlers(cfg, strategy), s).Done? && 1 <= id <= |s.state.exec.orders|
    requires HasEvent(PendingOf(s.queue), CancelEvent(id))
    ensures var t := Step(events, EngineHandlers(cfg, strategy), s).value;
      && id <= |t.state.exec.orders|
      && (HasEvent(PendingOf(t.queue), CancelEvent(id))
        || (IsResting(s.state.exec.orders[id - 1].status) && t.state.exec.orders[id - 1].status.Canceled?))
  {
    hide EngineInv, InputsOk, Step, OnArrival, RemoveAt, Emit, RequestOk, Evolved;
    EngineStep(cfg, strategy, events, s);
    PendingNext(cfg, strategy, events, s);
    var t := Step(events, EngineHandlers(cfg, strategy), s).value;
    var pending := PendingOf(s.queue);
    if MarketNext(events, s) {
      var j :| 0 <= j < |pending| && pending[j].event == CancelEvent(id);
      assert PendingOf(t.queue)[j].event == CancelEvent(id);
    } else {
      NextKind(cfg, events, s);
      PendingDistinct(cfg, events, s);
      HasEventRemoved(pending, Top(s.queue), CancelEvent(id));
      if pending[Top(s.queue)].event == CancelEvent(id) {
        CancelDone(cfg, events, s, id);
      } else {
        var rest := RemoveAt(pending, Top(s.queue));
        var j :| 0 <= j < |rest| && rest[j].event == CancelEvent(id);
        assert PendingOf(t.queue)[j].event == CancelEvent(id);
      }
    }
  }

  lemma {:induction false} PendingDistinct<S>(cfg: EngineConfig, events: seq<MarketEvent>, s: Loop<Engine<S>>)
    requires EngineInv(cfg, events, s)
    ensures DistinctEvents(PendingOf(s.queue))
  {
    hide LoopInv, ExecInv;
  }

  lemma {:induction false} CancelDone<S>(cfg: EngineConfig, events: seq<MarketEvent>, s: Loop<Engine<S>>, id: int)
    requires EngineInv(cfg, events, s) && s.queue != [] && s.queue[Top(s.queue)].event == CancelEvent(id)
    requires CancelResult(s.state.exec, s.queue[Top(s.queue)]).Done?
    ensures 1 <= id <= |s.state.exec.orders| && IsResting(s.state.exec.orders[id - 1].status)
    ensures var f := CancelResult(s.state.exec, s.queue[Top(s.queue)]).value;
      |f.orders| == |s.state.exec.orders| && f.orders[id - 1].status.Canceled?
  {
    hide LoopInv, MidInv, NoneFilled, QueueInv, CancelResult, Evolves, RemovedEntry, IsPath;
    CancelKeeps(s.state.exec, s.queue[Top(s.queue)]);
  }

  lemma {:induction false} FilledForever<S>(s: Loop<Engine<S>>, t: Loop<Engine<S>>, id: int)
    requires Evolves(s.state.exec, t.state.exec) && 1 <= id <= |s.state.exec.orders|
    requires s.state.exec.orders[id - 1].status.Filled?
    ensures t.state.exec.orders[id - 1] == s.state.exec.orders[id - 1]
  {
    assert Evolved(s.state.exec.orders[id - 1], t.state.exec.orders[id - 1]);
  }

  lemma {:induction false} DoomedStep<S(!new)>(cfg: EngineConfig, strategy: Strategy<S>, events: seq<MarketEvent>,
      s: Loop<Engine<S>>)
    requires InputsOk(strategy, events) && EngineInv(cfg, events, s) && !Finished(events, s)
    requires Step(events, EngineHandlers(cfg, strategy), s).Done? && Doomed(s)
    ensures Doomed(Step(events, EngineHandlers(cfg, strategy), s).value)
  {
    hide EngineInv, InputsOk, Step, Evolves, HasEvent;
    var id :| 1 <= id <= |s.state.exec.orders| && s.state.exec.orders[id - 1].status.Filled?
      && HasEvent(PendingOf(s.queue), CancelEvent(id));
    EngineStep(cfg, strategy, events, s);
    CancelPersists(cfg, strategy, events, s, id);
    FilledForever(s, Step(events, EngineHandlers(cfg, strategy), s).value, id);
  }

  lemma {:induction false} DoomedForever<S(!new)>(cfg: EngineConfig, strategy: Strategy<S>, start: S,
      events: seq<MarketEvent>, m: nat, n: nat)
    requires InputsOk(strategy, events) && m <= n && EngineRun(cfg, strategy, start, events, n).Done?
    requires EngineRun(cfg, strategy, start, events, m).Done?
    requires Doomed(EngineRun(cfg, strategy, start, events, m).value)
    ensures Doomed(EngineRun(cfg, strategy, start, events, n).value)
    decreases n
  {
    hide InputsOk, EngineInv, Step, EngineHandlers, Doomed;
    if m < n {
      RunMonotone(cfg, strategy, start, events, n - 1, n);
      DoomedForever(cfg, strategy, start, events, m, n - 1);
      var before := EngineRun(cfg, strategy, start, events, n - 1).value;
      RunInvariant(cfg, strategy, start, events, n - 1);
      if !Finished(events, before) {
        DoomedStep(cfg, strategy, events, before);
      }
    }
  }

  lemma {:induction false} DoomedNotFinished<S>(events: seq<MarketEvent>, s: Loop<Engine<S>>)
    requires Doomed(s)
    ensures !Finished(events, s)
  {
  }

  lemma {:induction false} TooLateIsDoomed<S>(cfg: EngineConfig, events: seq<MarketEvent>, s: Loop<Engine<S>>)
    requires EngineInv(cfg, events, s) && CancelTooLate(events, s)
    ensures Doomed(s)
  {
    hide EngineInv;
    var id := s.queue[Top(s.queue)].event.orderId.value;
    assert PendingOf(s.queue)[Top(s.queue)].event == CancelEvent(id);
  }

  /** With a strategy that emits well-formed, currently stamped intents, a run can only throw on
      arithmetic overflow or on a cancel that comes too late. */
  lemma {:induction false} RunErrors<S(!new)>(cfg: EngineConfig, strategy: Strategy<S>, start: S,
      events: seq<MarketEvent>, n: nat)
    requires InputsOk(strategy, events) && StrategyOk(strategy) && EngineRun(cfg, strategy, start, events, n).Threw?
    ensures EngineRun(cfg, strategy, start, events, n).error in {OverflowError, InvalidArgument(NotResting)}
    ensures EngineRun(cfg, strategy, start, events, n).error == InvalidArgument(NotResting) ==>
      exists k :: 0 <= k < n && EngineRun(cfg, strategy, start, events, k).Done? && Doomed(EngineRun(cfg, strategy, start, events, k).value)
  {
    hide InputsOk, StrategyOk, EngineInv, Step, EngineHandlers, Doomed, CancelTooLate, EngineRun;
    var k := ThrownAfter(cfg, strategy, start, events, n);
    RunInvariant(cfg, strategy, start, events, k);
    var s := EngineRun(cfg, strategy, start, events, k).value;
    EngineStep(cfg, strategy, events, s);
    if CancelTooLate(events, s) {
      TooLateIsDoomed(cfg, events, s);
    }
  }

  /** Unless arithmetic overflows, a run aborts if and only if at some point an order has been filled
      completely by trades while its cancel is still scheduled. */
  lemma {:induction false} AbortsIffDoomed<S(!new)>(cfg: EngineConfig, strategy: Strategy<S>, start: S,
      events: seq<MarketEvent>, n: nat)
    requires InputsOk(strategy, events) && StrategyOk(strategy)
    requires Ended(events, EngineRun(cfg, strategy, start, events, n))
    requires EngineRun(cfg, strategy, start, events, n) != Threw(OverflowError)
    ensures EngineRun(cfg, strategy, start, events, n).Threw? <==>
      exists k :: 0 <= k < n && EngineRun(cfg, strategy, start, events, k).Done? && Doomed(EngineRun(cfg, strategy, start, events, k).value)
  {
    hide InputsOk, StrategyOk, Doomed, EngineRun, Finished;
    if EngineRun(cfg, strategy, start, events, n).Threw? {
      RunErrors(cfg, strategy, start, events, n);
    } else if k :| 0 <= k < n && EngineRun(cfg, strategy, start, events, k).Done? && Doomed(EngineRun(cfg, strategy, start, events, k).value) {
      DoomedForever(cfg, strategy, start, events, k, n);
      DoomedNotFinished(events, EngineRun(cfg, strategy, start, events, n).value);
    }
  }

  /** Without configured cancels nothing but arithmetic overflow can stop a run. */
  lemma {:induction false} NoCancelsNoAbort<S(!new)>(cfg: EngineConfig, strategy: Strategy<S>, start: S,
      events: seq<MarketEvent>, n: nat)
    requires InputsOk(strategy, events) && StrategyOk(strategy) && cfg.cancelAfter.None?
    ensures EngineRun(cfg, strategy, start, events, n).Threw? ==> EngineRun(cfg, strategy, start, events, n).error == OverflowError
  {
    hide InputsOk, StrategyOk, EngineInv, EngineRun, Doomed;
    if EngineRun(cfg, strategy, start, events, n).Threw? {
      RunErrors(cfg, strategy, start, events, n);
      forall k | 0 <= k < n && EngineRun(cfg, strategy, start, events, k).Done?
        ensures !Doomed(EngineRun(cfg, strategy, start, events, k).value)
      {
        RunInvariant(cfg, strategy, start, events, k);
        NoCancelsNotDoomed(cfg, events, EngineRun(cfg, strategy, start, events, k).value);
      }
    }
  }

  lemma {:induction false} NoCancelsNotDoomed<S>(cfg: EngineConfig, events: seq<MarketEvent>, s: Loop<Engine<S>>)
    requires EngineInv(cfg, events, s) && cfg.cancelAfter.None?
    ensures !Doomed(s)
  {
    hide LoopInv, ExecInv, AccountInv, FillTimes, ArrivedBehind;
    var pending := PendingOf(s.queue);
    forall j | 0 <= j < |pending|
      ensures pending[j].event.kind.OrderArrival?
    {
      assert RequestOk(cfg, s.state.exec.orders, pending[j]);
    }
  }
}
