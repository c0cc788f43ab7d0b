/** `ReplayEngine::run` on mutable components: the merge, the loop, its handlers and the closing
    count (replay_engine.cpp). The strategy is a deterministic function of its own state, the event and
    the book; the callbacks the source registers with the loop are called directly. */
module ReplayRuns {
  import opened Types
  import opened OrderBooks
  import opened Orders
  import opened EventLoops
  import opened LoopTheorems
  import opened LatencyExecution
  import opened Portfolios
  import opened ReplayEngines
  import opened PendingEvents
  import opened EngineInvariants
  import opened EngineTheorems
  import opened RunTheorems
  import opened FeedMerge
  import PortfolioTheorems

  // ---- Counting final statuses ----

  datatype StatusCounts = StatusCounts(filled: nat, partiallyFilled: nat, canceled: nat, rejected: nat)

  function CountOf(orders: seq<Order>, status: OrderStatus): nat {
    if orders == [] then 0
    else CountOf(orders[..|orders| - 1], status) + if orders[|orders| - 1].status == status then 1 else 0
  }

  function CountsOf(orders: seq<Order>): StatusCounts {
    StatusCounts(CountOf(orders, Filled), CountOf(orders, PartiallyFilled), CountOf(orders, Canceled), CountOf(orders, Rejected))
  }

  /** The orders in a status, by position. */
  function WithStatus(orders: seq<Order>, status: OrderStatus): set<nat> {
    set i: nat | i < |orders| && orders[i].status == status
  }

  lemma {:induction false} CountIsCardinality(orders: seq<Order>, status: OrderStatus)
    ensures CountOf(orders, status) == |WithStatus(orders, status)|
  {
    hide WithStatus;
    if orders == [] {
      NoneWithStatus(status);
    } else {
      var init, last := orders[..|orders| - 1], |orders| - 1;
      CountIsCardinality(init, status);
      WithOneMore(init, orders[last], status);
      assert orders == init + [orders[last]];
    }
  }

  lemma {:induction false} NoneWithStatus(status: OrderStatus)
    ensures WithStatus([], status) == {}
  {
  }

  lemma {:induction false} WithOneMore(init: seq<Order>, o: Order, status: OrderStatus)
    ensures WithStatus(init + [o], status) == if o.status == status then WithStatus(init, status) + {|init|} else WithStatus(init, status)
    ensures |init| !in WithStatus(init, status)
  {
  }

  /** Each count is the number of orders in its own status. */
  predicate CountsMean(counts: StatusCounts, orders: seq<Order>) {
    && counts.filled == |WithStatus(orders, Filled)|
    && counts.partiallyFilled == |WithStatus(orders, PartiallyFilled)|
    && counts.canceled == |WithStatus(orders, Canceled)|
    && counts.rejected == |WithStatus(orders, Rejected)|
  }

  lemma {:induction false} CountsOfMean(orders: seq<Order>)
    ensures CountsMean(CountsOf(orders), orders)
  {
    CountIsCardinality(orders, Filled);
    CountIsCardinality(orders, PartiallyFilled);
    CountIsCardinality(orders, Canceled);
    CountIsCardinality(orders, Rejected);
  }

  method CountOrderStatuses(orders: seq<Order>) returns (counts: StatusCounts)
    ensures counts == CountsOf(orders) && CountsMean(counts, orders)
  {
    CountsOfMean(orders);
    var filled, partiallyFilled, canceled, rejected := 0, 0, 0, 0;
    var i := 0;
    while i < |orders|
      invariant 0 <= i <= |orders|
      invariant StatusCounts(filled, partiallyFilled, canceled, rejected) == CountsOf(orders[..i])
    {
      assert orders[..i + 1][..i] == orders[..i];
      if orders[i].status == Filled {
        filled := filled + 1;
      } else if orders[i].status == PartiallyFilled {
        partiallyFilled := partiallyFilled + 1;
      } else if orders[i].status == Canceled {
        canceled := canceled + 1;
      } else if orders[i].status == Rejected {
        rejected := rejected + 1;
      }
      i := i + 1;
    }
    assert orders[..i] == orders;
    return StatusCounts(filled, partiallyFilled, canceled, rejected);
  }

  // ---- What a run returns ----

  datatype ReplayResult = ReplayResult(
    finalBook: Book,
    account: Account,
    mark: Option<Mark>,
    orders: seq<Order>,
    fills: seq<Fill>,
    trace: seq<TraceEntry>,
    finalTime: int,
    intents: nat,
    counts: StatusCounts)

  /** The result of a run that finished in state `s`. */
  function ResultOf<S>(s: Loop<Engine<S>>): Outcome<ReplayResult> {
    var mark :- MarkAccount(s.state.account, s.book);
    Done(ReplayResult(s.book, s.state.account, mark, s.state.exec.orders, s.state.exec.fills, s.trace, s.now, s.state.emitted,
                      CountsOf(s.state.exec.orders)))
  }

  /** `result` is what a run that ends after `n` events gives. */
  predicate RunsTo<S(==)>(cfg: EngineConfig, strategy: Strategy<S>, start: S, events: seq<MarketEvent>, n: nat,
      result: Outcome<ReplayResult>) {
    var r := EngineRun(cfg, strategy, start, events, n);
    Ended(events, r) && result == if r.Threw? then Threw(r.error) else ResultOf(r.value)
  }

  lemma {:induction false} SubmittedOnTime(e: Exec, intent: Intent, latency: int, now: int)
    requires Submit(e, intent, latency, now).Done?
    ensures now <= Submit(e, intent, latency, now).value.request.timestamp
  {
  }

  /** One more event of a run that has not finished, and the measure it lowers. */
  lemma {:induction false} RunStep<S(!new)>(cfg: EngineConfig, strategy: Strategy<S>, start: S,
      events: seq<MarketEvent>, n: nat, s: Loop<Engine<S>>)
    requires InputsOk(strategy, events) && EngineRun(cfg, strategy, start, events, n) == Done(s) && !Finished(events, s)
    ensures var r := Step(events, EngineHandlers(cfg, strategy), s);
      && EngineRun(cfg, strategy, start, events, n + 1) == r
      && (r.Threw? ==> RunsTo(cfg, strategy, start, events, n + 1, Threw(r.error)))
      && (r.Done? ==>
        (s.next < r.value.next <= |events|
        || (r.value.next == s.next && Weight(PendingOf(r.value.queue)) < Weight(PendingOf(s.queue)))))
  {
    hide InputsOk, Step, EngineHandlers, EngineInv, Weight, ResultOf;
    RunInvariant(cfg, strategy, start, events, n);
    if Step(events, EngineHandlers(cfg, strategy), s).Done? {
      MeasureDrops(cfg, strategy, events, s);
    }
  }

  lemma {:induction false} RunStart<S>(cfg: EngineConfig, strategy: Strategy<S>, start: S, events: seq<MarketEvent>)
    ensures EngineRun(cfg, strategy, start, events, 0) == Done(Start(StartEngine(cfg, start)))
  {
  }

  lemma {:induction false} RunEnd<S>(cfg: EngineConfig, strategy: Strategy<S>, start: S, events: seq<MarketEvent>,
      n: nat, s: Loop<Engine<S>>)
    requires EngineRun(cfg, strategy, start, events, n) == Done(s) && Finished(events, s)
    ensures RunsTo(cfg, strategy, start, events, n, ResultOf(s))
  {
  }

  lemma {:induction false} CancelOnTime(e: Exec, id: int, latency: int, now: int)
    requires CancelRequest(e, id, latency, now).Done?
    ensures now <= CancelRequest(e, id, latency, now).value.timestamp
  {
  }

  // ---- The engine ----

  /** The variables `run` captures by reference, besides the components. */
  datatype Locals<+S> = Locals(applied: nat, strategy: S, emitted: nat)

  class ReplayEngine {
    const config: EngineConfig

    constructor (config: EngineConfig)
      ensures this.config == config
    {
      this.config := config;
    }

    ghost function EngineState<S>(execution: LatencyAwareExecution, portfolio: Portfolio,
        locals: Locals<S>): Engine<S>
      reads execution, execution.sim, execution.sim.factory, portfolio
    {
      Engine(execution.State(), portfolio.State(), locals.applied, locals.strategy, locals.emitted)
    }

    predicate Wired(execution: LatencyAwareExecution) {
      execution.config == ExecOf(config) && execution.sim.ppm == execution.config.feePpm
    }

    method ApplyFills(execution: LatencyAwareExecution, portfolio: Portfolio,
        already: nat) returns (result: Outcome<nat>)
      modifies portfolio
      ensures result.Threw? ==> ApplyNewFills(old(portfolio.State()), execution.fills, already) == Threw(result.error)
      ensures result.Done? ==> ApplyNewFills(old(portfolio.State()), execution.fills, already) == Done(portfolio.State())
      ensures result.Done? ==> result.value == Max(already, |execution.fills|)
    {
      var applied := already;
      ghost var goal := ApplyNewFills(portfolio.State(), execution.fills, applied);
      while applied < |execution.fills|
        invariant already <= applied <= Max(already, |execution.fills|)
        invariant goal == ApplyNewFills(portfolio.State(), execution.fills, applied)
      {
        var _ :- portfolio.ApplyFill(execution.fills[applied]);
        applied := applied + 1;
      }
      return Done(applied);
    }

    /** The counting intent sink, called once per intent of a decision. */
    method SubmitAll(intents: seq<Intent>, loop: EventLoop, execution: LatencyAwareExecution)
      returns (result: Outcome<()>, ghost requests: seq<Request>)
      requires loop.Valid()
      modifies execution, execution.sim, execution.sim.factory, loop`scheduled, loop.scheduler
      ensures loop.Valid()
      ensures result.Threw? ==>
        EmitFrom(Emission(old(execution.State()), []), intents, 0, execution.config.latency, loop.clock.now) == Threw(result.error)
      ensures result.Done? ==>
        EmitFrom(Emission(old(execution.State()), []), intents, 0, execution.config.latency, loop.clock.now)
        == Done(Emission(execution.State(), requests))
      ensures result.Done? ==> NonePast(requests, loop.clock.now)
      ensures result.Done? ==> loop.scheduler.queue == old(loop.scheduler.queue) + Stamped(requests, old(|loop.scheduled|))
      ensures result.Done? ==> loop.scheduled == old(loop.scheduled) + Stamped(requests, old(|loop.scheduled|))
    {
      hide Submit;
      requests := [];
      ghost var goal := EmitFrom(Emission(execution.State(), []), intents, 0, execution.config.latency, loop.clock.now);
      ghost var base := |loop.scheduled|;
      var i := 0;
      while i < |intents|
        invariant 0 <= i <= |intents| && loop.Valid()
        invariant goal == EmitFrom(Emission(execution.State(), requests), intents, i, execution.config.latency, loop.clock.now)
        invariant NonePast(requests, loop.clock.now)
        invariant loop.scheduler.queue == old(loop.scheduler.queue) + Stamped(requests, base)
        invariant loop.scheduled == old(loop.scheduled) + Stamped(requests, base)
      {
        ghost var before := execution.State();
        var arrival := execution.SubmitOrderIntent(intents[i], execution.config.latency, loop);
        if arrival.Threw? {
          return Threw(arrival.error), requests;
        }
        SubmittedOnTime(before, intents[i], execution.config.latency, loop.clock.now);
        ghost var request := Request(arrival.value.timestamp, arrival.value.event);
        assert Stamped(requests + [request], base) == Stamped(requests, base) + [arrival.value];
        requests := requests + [request];
        i := i + 1;
      }
      return Done(()), requests;
    }

    /** The market handler: a book update only informs the strategy, a trade first fills resting orders. */
    method HandleMarket<S>(event: MarketEvent, book: OrderBook, loop: EventLoop, execution: LatencyAwareExecution,
        portfolio: Portfolio,
                           strategy: Strategy<S>, given: Locals<S>)
      returns (result: Outcome<Locals<S>>, ghost requests: seq<Request>)
      requires loop.Valid() && Wired(execution) && loop.clock.now == event.key.timestamp
      modifies execution, execution.sim, execution.sim.factory, portfolio, loop`scheduled, loop.scheduler
      ensures loop.Valid()
      ensures result.Threw? ==>
        OnMarket(config, strategy, old(EngineState(execution, portfolio, given)), book.Value(), event) == Threw(result.error)
      ensures result.Done? ==>
        OnMarket(config, strategy, old(EngineState(execution, portfolio, given)), book.Value(), event)
        == Done(Handled(EngineState(execution, portfolio, result.value), requests))
      ensures result.Done? ==> NonePast(requests, loop.clock.now)
      ensures result.Done? ==> loop.scheduler.queue == old(loop.scheduler.queue) + Stamped(requests, old(|loop.scheduled|))
      ensures result.Done? ==> loop.scheduled == old(loop.scheduled) + Stamped(requests, old(|loop.scheduled|))
    {
      hide EmitFrom, TradeResult, ApplyNewFills;
      var applied := given.applied;
      requests := [];
      var decision;
      if event.BookUpdate? {
        decision := strategy.onBook(given.strategy, event, book.Value());
      } else {
        var traded := execution.ProcessTrade(event);
        if traded.Threw? {
          return Threw(traded.error), [];
        }
        var accounted := ApplyFills(execution, portfolio, applied);
        if accounted.Threw? {
          return Threw(accounted.error), [];
        }
        applied := accounted.value;
        decision := strategy.onTrade(given.strategy, event, book.Value());
      }
      var submitted;
      submitted, requests := SubmitAll(decision.intents, loop, execution);
      if submitted.Threw? {
        return Threw(submitted.error), [];
      }
      return Done(Locals(applied, decision.state, given.emitted + |decision.intents|)), requests;
    }

    /** The internal handler: an arrival executes and may schedule its own cancel. */
    method HandleInternal<S>(event: Scheduled, book: OrderBook, loop: EventLoop, execution: LatencyAwareExecution,
        portfolio: Portfolio,
                             strategy: Strategy<S>, given: Locals<S>)
      returns (result: Outcome<Locals<S>>, ghost requests: seq<Request>)
      requires loop.Valid() && Wired(execution) && loop.clock.now == event.timestamp
      modifies execution, execution.sim, execution.sim.factory, portfolio, loop`scheduled, loop.scheduler
      ensures loop.Valid()
      ensures result.Threw? ==>
        OnInternal(config, strategy, old(EngineState(execution, portfolio, given)), book.Value(), event) == Threw(result.error)
      ensures result.Done? ==>
        OnInternal(config, strategy, old(EngineState(execution, portfolio, given)), book.Value(), event)
        == Done(Handled(EngineState(execution, portfolio, result.value), requests))
      ensures result.Done? ==> NonePast(requests, loop.clock.now)
      ensures result.Done? ==> loop.scheduler.queue == old(loop.scheduler.queue) + Stamped(requests, old(|loop.scheduled|))
      ensures result.Done? ==> loop.scheduled == old(loop.scheduled) + Stamped(requests, old(|loop.scheduled|))
    {
      hide EmitFrom, ArrivalResult, CancelResult, ApplyNewFills, CancelRequest;
      requests := [];
      assert Stamped([], |loop.scheduled|) == [];
      if event.event.kind == OrderArrival {
        result, requests := HandleArrival(event, book, loop, execution, portfolio, given);
        return;
      }
      if event.event.kind == CancelArrival {
        var canceled := execution.ProcessCancelArrival(event);
        if canceled.Threw? {
          return Threw(canceled.error), [];
        }
        return Done(given), [];
      }
      if event.event.kind == Timer {
        var decision := strategy.onTimer(given.strategy, event, book.Value());
        var submitted;
        submitted, requests := SubmitAll(decision.intents, loop, execution);
        if submitted.Threw? {
          return Threw(submitted.error), [];
        }
        return Done(Locals(given.applied, decision.state, given.emitted + |decision.intents|)), requests;
      }
      return Done(given), [];
    }

    method HandleArrival<S>(event: Scheduled, book: OrderBook, loop: EventLoop, execution: LatencyAwareExecution,
        portfolio: Portfolio,
                            given: Locals<S>)
      returns (result: Outcome<Locals<S>>, ghost requests: seq<Request>)
      requires loop.Valid() && Wired(execution) && loop.clock.now == event.timestamp
      modifies execution, execution.sim, execution.sim.factory, portfolio, loop`scheduled, loop.scheduler
      ensures loop.Valid()
      ensures result.Threw? ==>
        OnArrival(config, old(EngineState(execution, portfolio, given)), book.Value(), event) == Threw(result.error)
      ensures result.Done? ==>
        OnArrival(config, old(EngineState(execution, portfolio, given)), book.Value(), event)
        == Done(Handled(EngineState(execution, portfolio, result.value), requests))
      ensures result.Done? ==> NonePast(requests, loop.clock.now)
      ensures result.Done? ==> loop.scheduler.queue == old(loop.scheduler.queue) + Stamped(requests, old(|loop.scheduled|))
      ensures result.Done? ==> loop.scheduled == old(loop.scheduled) + Stamped(requests, old(|loop.scheduled|))
    {
      hide ArrivalResult, ApplyNewFills, CancelRequest;
      assert Stamped([], |loop.scheduled|) == [];
      var arrived := execution.ProcessOrderArrival(event, book);
      if arrived.Threw? {
        return Threw(arrived.error), [];
      }
      var accounted := ApplyFills(execution, portfolio, given.applied);
      if accounted.Threw? {
        return Threw(accounted.error), [];
      }
      var after := given.(applied := accounted.value);
      if config.cancelAfter.Some? && IsActiveRestingOrder(arrived.value.order) {
        ghost var base := |loop.scheduled|;
        var cancel := execution.RequestCancel(arrived.value.order.id, config.cancelAfter.value, loop);
        if cancel.Threw? {
          return Threw(cancel.error), [];
        }
        CancelOnTime(execution.State(), arrived.value.order.id, config.cancelAfter.value, loop.clock.now);
        requests := [Request(cancel.value.timestamp, cancel.value.event)];
        assert Stamped(requests, base) == [cancel.value];
        return Done(after), requests;
      }
      return Done(after), [];
    }

    /** One iteration of `EventLoop::run` with the engine's handlers. */
    method Iterate<S>(book: OrderBook, loop: EventLoop, execution: LatencyAwareExecution, portfolio: Portfolio,
                      strategy: Strategy<S>, given: Locals<S>)
      returns (result: Outcome<Locals<S>>)
      requires loop.Valid() && Wired(execution) && (loop.next < |loop.events| || loop.scheduler.queue != [])
      modifies execution, execution.sim, execution.sim.factory, portfolio, loop, loop.clock, loop.scheduler, book
      ensures loop.Valid()
      ensures var before := old(loop.View(book, EngineState(execution, portfolio, given)));
        var next := Step(loop.events, EngineHandlers(config, strategy), before);
        match result
        case Threw(error) => next == Threw(error)
        case Done(after) => next == Done(loop.View(book, EngineState(execution, portfolio, after)))
    {
      hide OnMarket, OnInternal, ApplyUpdate;
      ghost var state := EngineState(execution, portfolio, given);
      var entry := loop.Advance(book, state);
      if entry.Threw? {
        return Threw(entry.error);
      }
      ghost var requests;
      match entry.value {
        case MarketEntry(event) =>
          result, requests := HandleMarket(event, book, loop, execution, portfolio, strategy, given);
        case InternalEntry(scheduled) =>
          result, requests := HandleInternal(scheduled, book, loop, execution, portfolio, strategy, given);
      }
    }

    /** The loop: it ends, and with exactly the outcome of the state machine. */
    method Replay<S(!new)>(strategy: Strategy<S>, start: S,
        events: seq<MarketEvent>) returns (result: Outcome<ReplayResult>)
      requires InputsOk(strategy, events)
      ensures exists n: nat :: RunsTo(config, strategy, start, events, n, result)
    {
      hide InputsOk, Step, EngineHandlers, EngineRun, Weight, ResultOf, PendingOf, RunsTo;
      var book := new OrderBook();
      var loop := new EventLoop(events);
      var execution := new LatencyAwareExecution(ExecOf(config));
      var portfolio := new Portfolio(config.initialCash);
      var locals := Locals(0, start, 0);
      ghost var n: nat := 0;
      RunStart(config, strategy, start, events);
      var more := loop.HasNext();
      while more
        invariant loop.Valid() && Wired(execution) && loop.events == events
        invariant fresh(execution) && fresh(execution.sim) && fresh(execution.sim.factory) && fresh(portfolio)
        invariant fresh(loop) && fresh(loop.clock) && fresh(loop.scheduler) && fresh(book)
        invariant EngineRun(config, strategy, start, events, n) == Done(loop.View(book, EngineState(execution, portfolio, locals)))
        invariant more == (loop.next < |events| || loop.scheduler.queue != [])
        decreases |events| - loop.next, Weight(PendingOf(loop.scheduler.queue))
      {
        RunStep(config, strategy, start, events, n, loop.View(book, EngineState(execution, portfolio, locals)));
        n := n + 1;
        var stepped := Iterate(book, loop, execution, portfolio, strategy, locals);
        if stepped.Threw? {
          result := Threw(stepped.error);
          assert RunsTo(config, strategy, start, events, n, result);
          return;
        }
        locals := stepped.value;
        more := loop.HasNext();
      }
      RunEnd(config, strategy, start, events, n, loop.View(book, EngineState(execution, portfolio, locals)));
      result := Close(book, loop, execution, portfolio, locals);
      assert RunsTo(config, strategy, start, events, n, result);
    }

    /** The final counts and mark. */
    method Close<S>(book: OrderBook, loop: EventLoop, execution: LatencyAwareExecution, portfolio: Portfolio,
        locals: Locals<S>)
      returns (result: Outcome<ReplayResult>)
      ensures result == ResultOf(loop.View(book, EngineState(execution, portfolio, locals)))
    {
      hide MarkAccount, CountsOf;
      var counts := CountOrderStatuses(execution.orders);
      var mark :- portfolio.MarkToMarket(book);
      return Done(ReplayResult(book.Value(), portfolio.State(), mark, execution.orders, execution.fills, loop.trace,
                               loop.clock.now, locals.emitted, counts));
    }

    /** `run` on two accepted feeds. */
    method Run<S(!new)>(strategy: Strategy<S>, start: S, bookUpdates: seq<MarketEvent>, trades: seq<MarketEvent>)
      returns (result: Outcome<ReplayResult>)
      requires StrictlyIncreasing(bookUpdates) && StrictlyIncreasing(trades) && EventsOk(bookUpdates)
      requires EventsOk(trades)
      requires StrategyTyped(strategy)
      ensures match Merged(bookUpdates, trades)
        case Threw(error) => result == Threw(error)
        case Done(events) => exists n: nat :: RunsTo(config, strategy, start, events, n, result)
    {
      hide EventsOk, StrictlyIncreasing, SortedEvents, StrategyTyped, RunsTo;
      var events :- MergeEvents(bookUpdates, trades);
      MergedFeedOk(bookUpdates, trades);
      result := Replay(strategy, start, events);
    }
  }

  // ---- What the result says ----

  /** The outcome does not depend on where the end of the run is observed. */
  lemma {:induction false} ResultUnique<S>(cfg: EngineConfig, strategy: Strategy<S>, start: S,
      events: seq<MarketEvent>, m: nat, n: nat, a: Outcome<ReplayResult>, b: Outcome<ReplayResult>)
    requires RunsTo(cfg, strategy, start, events, m, a) && RunsTo(cfg, strategy, start, events, n, b)
    ensures a == b
  {
    hide Step, EngineHandlers, Finished;
    if m <= n {
      EndedStays(cfg, strategy, start, events, m, n);
    } else {
      EndedStays(cfg, strategy, start, events, n, m);
    }
  }

  lemma {:induction false} EndedStays<S>(cfg: EngineConfig, strategy: Strategy<S>, start: S,
      events: seq<MarketEvent>, m: nat, n: nat)
    requires m <= n && Ended(events, EngineRun(cfg, strategy, start, events, m))
    ensures EngineRun(cfg, strategy, start, events, n) == EngineRun(cfg, strategy, start, events, m)
    decreases n
  {
    hide Step, EngineHandlers, Finished;
    if m < n {
      EndedStays(cfg, strategy, start, events, m, n - 1);
    }
  }

  // ---- Completed runs ----

  lemma {:induction false} CountsAddUp(orders: seq<Order>)
    ensures var c := CountsOf(orders);
      c.filled + c.partiallyFilled + c.canceled + c.rejected
      + CountOf(orders, New) + CountOf(orders, Pending) + CountOf(orders, Acknowledged) == |orders|
  {
    if orders != [] {
      CountsAddUp(orders[..|orders| - 1]);
    }
  }

  lemma {:induction false} CountsNone(orders: seq<Order>, status: OrderStatus)
    requires forall i :: 0 <= i < |orders| ==> orders[i].status != status
    ensures CountOf(orders, status) == 0
  {
    if orders != [] {
      CountsNone(orders[..|orders| - 1], status);
    }
  }

  /** No order of a completed run is still on its way, and none rests if cancels are configured. */
  lemma {:induction false} NoneOnTheWay<S(!new)>(cfg: EngineConfig, strategy: Strategy<S>, start: S,
      events: seq<MarketEvent>, n: nat)
    requires InputsOk(strategy, events) && EngineRun(cfg, strategy, start, events, n).Done?
    requires Finished(events, EngineRun(cfg, strategy, start, events, n).value)
    ensures var orders := EngineRun(cfg, strategy, start, events, n).value.state.exec.orders;
      && CountOf(orders, New) == 0 && CountOf(orders, Pending) == 0
      && (cfg.cancelAfter.Some? ==> CountOf(orders, Acknowledged) == 0 && CountOf(orders, PartiallyFilled) == 0)
  {
    hide InputsOk, EngineRun, Finished, IsPath;
    var orders := EngineRun(cfg, strategy, start, events, n).value.state.exec.orders;
    forall i | 0 <= i < |orders|
      ensures orders[i].status != New && orders[i].status != Pending
      ensures cfg.cancelAfter.Some? ==> orders[i].status != Acknowledged && orders[i].status != PartiallyFilled
    {
      CompletionSettles(cfg, strategy, start, events, n, i + 1);
    }
    CountsNone(orders, New);
    CountsNone(orders, Pending);
    if cfg.cancelAfter.Some? {
      CountsNone(orders, Acknowledged);
      CountsNone(orders, PartiallyFilled);
    }
  }

  /** Every intent of a completed run is accounted for by the final counts; with cancels configured each
      one has been filled, canceled or rejected. */
  lemma {:induction false} CountsCoverIntents<S(!new)>(cfg: EngineConfig, strategy: Strategy<S>, start: S,
      events: seq<MarketEvent>, n: nat, result: Outcome<ReplayResult>)
    requires InputsOk(strategy, events) && RunsTo(cfg, strategy, start, events, n, result) && result.Done?
    ensures var r := result.value;
      && r.intents == |r.orders| && CountsMean(r.counts, r.orders)
      && r.counts.filled + r.counts.partiallyFilled + r.counts.canceled + r.counts.rejected + CountOf(r.orders, Acknowledged) == r.intents
      && (cfg.cancelAfter.Some? ==> r.counts.filled + r.counts.canceled + r.counts.rejected == r.intents)
  {
    hide InputsOk, EngineRun, Finished, MarkAccount, CountOf, CountsMean;
    CountsOfMean(result.value.orders);
    NoneOnTheWay(cfg, strategy, start, events, n);
    Conservation(cfg, strategy, start, events, n);
    CountsAddUp(result.value.orders);
  }

  /** What a completed replay returns: the book is the fold of the whole stream and the trace its total
      order, both independent of the strategy; the final time is that of the last event; the account is the
      replay of the returned fills; and the mark, if there is one, satisfies the equity identity. */
  lemma {:induction false} CompletedReplay<S(!new)>(cfg: EngineConfig, strategy: Strategy<S>, start: S,
      events: seq<MarketEvent>, n: nat, result: Outcome<ReplayResult>)
    requires InputsOk(strategy, events) && RunsTo(cfg, strategy, start, events, n, result) && result.Done?
    ensures var r := result.value;
      && Fold(events) == Done(r.finalBook)
      && TraceSorted(r.trace) && MarketsOf(r.trace) == events
      && r.finalTime == (if r.trace == [] then 0 else TimeOf(r.trace[|r.trace| - 1]))
      && PortfolioTheorems.Replay(cfg.initialCash, r.fills) == Done(r.account)
      && (r.mark.Some? ==> r.mark.value.equityX2 - 2 * cfg.initialCash == r.mark.value.netX2)
      && (r.mark.None? <==>
        r.account.lots != []
        && (r.finalBook.bids == [] || r.finalBook.asks == [] || r.finalBook.bids[0].price > r.finalBook.asks[0].price))
  {
    hide EngineInv, EngineHandlers, MarkAccount, CountsOf, TraceSorted, MarketsOf, Fold, StrategyTyped;
    hide SortedEvents, EventsOk;
    InputsSorted(strategy, events);
    RunInvariant(cfg, strategy, start, events, n);
    ClockIsLast(events, EngineHandlers(cfg, strategy), StartEngine(cfg, start), n);
    var s := EngineRun(cfg, strategy, start, events, n).value;
    TotalOrder(events, EngineHandlers(cfg, strategy), StartEngine(cfg, start), n);
    NonInterference(events, EngineHandlers(cfg, strategy), StartEngine(cfg, start), n,
      EngineHandlers(cfg, strategy), StartEngine(cfg, start), n);
    AccountReplays(cfg, events, s);
    PortfolioTheorems.EquityIdentity(cfg.initialCash, s.state.exec.fills, s.book);
    PortfolioTheorems.MarkRefused(cfg.initialCash, s.state.exec.fills, s.book);
  }
}
