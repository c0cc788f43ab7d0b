/** What a strategy sees and which orders it gets depend on the strategy and the stream alone. */
module StrategyRuns {
  import opened Types
  import opened OrderBooks
  import opened Orders
  import opened Simulators
  import opened EventLoops
  import opened LoopTheorems
  import opened LatencyExecution
  import opened Registry
  import opened RegistrySteps
  import opened ReplayEngines
  import opened PendingEvents
  import opened EngineInvariants
  import opened EngineTheorems

  // ---- The strategy on its own ----

  /** The book after a well-formed stream. */
  function BookAfter(events: seq<MarketEvent>): Book {
    if Fold(events).Done? then Fold(events).value else EMPTY_BOOK
  }

  /** The callback for the last event of a stream: book updates go to `onBook`, trades to `onTrade`, each
      with the book that already contains the event. */
  function Reaction<S>(strategy: Strategy<S>, start: S, events: seq<MarketEvent>): Decision<S>
    requires events != []
    decreases |events|, 0
  {
    var last := events[|events| - 1];
    var state := StrategyAfter(strategy, start, events[..|events| - 1]);
    match last
    case BookUpdate(_, _, _, _) => strategy.onBook(state, last, BookAfter(events))
    case Trade(_, _, _, _) => strategy.onTrade(state, last, BookAfter(events))
  }

  function StrategyAfter<S>(strategy: Strategy<S>, start: S, events: seq<MarketEvent>): S
    decreases |events|, 1
  {
    if events == [] then start else Reaction(strategy, start, events).state
  }

  /** Every intent the strategy emits on a stream, in order. */
  function IntentsOf<S>(strategy: Strategy<S>, start: S, events: seq<MarketEvent>): seq<Intent> {
    if events == [] then []
    else IntentsOf(strategy, start, events[..|events| - 1]) + Reaction(strategy, start, events).intents
  }

  // ---- Orders ----

  /** An order has the terms of the intent it was made from, was submitted at its decision and arrives one
      latency later. */
  predicate MadeFrom(o: Order, intent: Intent, latency: int) {
    && o.side == intent.side && o.kind == intent.kind && o.original == intent.quantity && o.limit == intent.limit
    && o.submit == intent.decision && o.arrival == intent.decision + latency
  }

  predicate OrdersFrom(orders: seq<Order>, intents: seq<Intent>, latency: int) {
    |orders| == |intents| && forall i :: 0 <= i < |orders| ==> MadeFrom(orders[i], intents[i], latency)
  }

  /** Submitting intents appends one order for each, in order. */
  lemma {:induction false} EmitMakes(em: Emission, intents: seq<Intent>, i: nat, latency: int, now: int,
      earlier: seq<Intent>)
    requires i <= |intents| && EmitFrom(em, intents, i, latency, now).Done?
    requires OrdersFrom(em.exec.orders, earlier, latency)
    ensures OrdersFrom(EmitFrom(em, intents, i, latency, now).value.exec.orders, earlier + intents[i..], latency)
    decreases |intents| - i
  {
    if i == |intents| {
      assert earlier + intents[i..] == earlier;
    } else {
      var s := Submit(em.exec, intents[i], latency, now).value;
      EmitMakes(Emission(s.exec, em.requests + [s.request]), intents, i + 1, latency, now, earlier + [intents[i]]);
      assert earlier + intents[i..] == earlier + [intents[i]] + intents[i + 1..];
    }
  }

  lemma {:induction false} TermsKept(e: Exec, f: Exec, intents: seq<Intent>, latency: int)
    requires Evolves(e, f) && |e.orders| == |f.orders| && OrdersFrom(e.orders, intents, latency)
    ensures OrdersFrom(f.orders, intents, latency)
  {
    forall i | 0 <= i < |e.orders|
      ensures MadeFrom(f.orders[i], intents[i], latency)
    {
      assert Evolved(e.orders[i], f.orders[i]);
    }
  }

  /** A well-formed, currently stamped intent is refused exactly when its arrival time does not fit 64 bits. */
  lemma {:induction false} SubmitAccepted(e: Exec, intent: Intent, latency: int, now: int)
    requires ExecInv(e) && IntentOk(intent, now) && 0 <= latency
    ensures Submit(e, intent, latency, now).Done? <==> now + latency <= UINT64_MAX
    ensures Submit(e, intent, latency, now).Threw? ==> Submit(e, intent, latency, now).error == OverflowError
  {
    hide ExecInv;
  }

  // ---- Runs ----

  /** The run agrees with the strategy on its own. */
  ghost predicate FollowsStrategy<S>(cfg: EngineConfig, strategy: Strategy<S>, start: S, events: seq<MarketEvent>,
      s: Loop<Engine<S>>) {
    && s.next <= |events|
    && s.state.strategy == StrategyAfter(strategy, start, events[..s.next])
    && OrdersFrom(s.state.exec.orders, IntentsOf(strategy, start, events[..s.next]), cfg.latency)
  }

  lemma {:induction false} EmitFollows<S>(cfg: EngineConfig, e: Engine<S>, decision: Decision<S>, now: int,
      earlier: seq<Intent>)
    requires OrdersFrom(e.exec.orders, earlier, cfg.latency) && Emit(cfg, e, decision, now).Done?
    ensures var h := Emit(cfg, e, decision, now).value;
      h.state.strategy == decision.state && OrdersFrom(h.state.exec.orders, earlier + decision.intents, cfg.latency)
  {
    hide OrdersFrom, EmitFrom;
    EmitMakes(Emission(e.exec, []), decision.intents, 0, cfg.latency, now, earlier);
    assert decision.intents[0..] == decision.intents;
  }

  lemma {:induction false} ReactionAt<S>(strategy: Strategy<S>, start: S, events: seq<MarketEvent>, n: nat)
    requires n < |events|
    ensures events[..n + 1] != [] && events[..n + 1][n] == events[n] && events[..n + 1][..n] == events[..n]
    ensures var d := Reaction(strategy, start, events[..n + 1]);
      && StrategyAfter(strategy, start, events[..n + 1]) == d.state
      && IntentsOf(strategy, start, events[..n + 1]) == IntentsOf(strategy, start, events[..n]) + d.intents
  {
  }

  lemma {:induction false} MarketFollows<S(!new)>(cfg: EngineConfig, strategy: Strategy<S>, start: S,
      events: seq<MarketEvent>,
      s: Loop<Engine<S>>, book: Book)
    requires EventsOk(events) && EngineInv(cfg, events, s) && MarketNext(events, s)
    requires FollowsStrategy(cfg, strategy, start, events, s)
    requires Fold(events[..s.next + 1]) == Done(book)
    requires OnMarket(cfg, strategy, s.state, book, events[s.next]).Done?
    ensures var h := OnMarket(cfg, strategy, s.state, book, events[s.next]).value;
      && h.state.strategy == StrategyAfter(strategy, start, events[..s.next + 1])
      && OrdersFrom(h.state.exec.orders, IntentsOf(strategy, start, events[..s.next + 1]), cfg.latency)
  {
    hide LoopInv, ExecInv, QueueInv, AccountInv, FillTimes, ArrivedBehind, TradeResult, ApplyNewFills, Emit, OrdersFrom;
    hide StrategyAfter, IntentsOf, Fold, Evolves, TradedOnly, PassiveFills;
    var event := events[s.next];
    var earlier := IntentsOf(strategy, start, events[..s.next]);
    ReactionAt(strategy, start, events, s.next);
    assert BookAfter(events[..s.next + 1]) == book;
    var decision := Reaction(strategy, start, events[..s.next + 1]);
    if event.BookUpdate? {
      EmitFollows(cfg, s.state, decision, event.key.timestamp, earlier);
    } else {
      TradeKeeps(ExecOf(cfg), s.state.exec, event);
      var exec := TradeResult(ExecOf(cfg), s.state.exec, event).value;
      TradeKeepsCount(s.state.exec.orders, exec.orders);
      TermsKept(s.state.exec, exec, earlier, cfg.latency);
      var after := s.state.(exec := exec, account := ApplyNewFills(s.state.account, exec.fills, s.state.applied).value,
                            applied := Max(s.state.applied, |exec.fills|));
      EmitFollows(cfg, after, decision, event.key.timestamp, earlier);
    }
  }

  lemma {:induction false} InternalFollows<S>(cfg: EngineConfig, strategy: Strategy<S>, start: S,
      events: seq<MarketEvent>,
      s: Loop<Engine<S>>)
    requires EventsOk(events) && EngineInv(cfg, events, s) && s.queue != []
    requires FollowsStrategy(cfg, strategy, start, events, s)
    requires OnInternal(cfg, strategy, s.state, s.book, s.queue[Top(s.queue)]).Done?
    ensures var h := OnInternal(cfg, strategy, s.state, s.book, s.queue[Top(s.queue)]).value;
      && h.state.strategy == s.state.strategy
      && OrdersFrom(h.state.exec.orders, IntentsOf(strategy, start, events[..s.next]), cfg.latency)
  {
    hide LoopInv, ExecInv, QueueInv, AccountInv, FillTimes, ArrivedBehind, ArrivalResult, CancelResult, ApplyNewFills;
    hide CancelRequest, Emit, OrdersFrom, StrategyAfter, IntentsOf, Evolves, RequestOk, RestsAfter;
    hide RemovedEntry, SweptAt;
    NextKind(cfg, events, s);
    BookIsOk(events, s);
    var event := s.queue[Top(s.queue)];
    var intents := IntentsOf(strategy, start, events[..s.next]);
    if event.event.kind.OrderArrival? {
      ArrivalKeeps(ExecOf(cfg), s.state.exec, event, s.book);
      TermsKept(s.state.exec, ArrivalResult(ExecOf(cfg), s.state.exec, event, s.book).value.exec, intents, cfg.latency);
    } else {
      CancelKeeps(s.state.exec, event);
      TermsKept(s.state.exec, CancelResult(s.state.exec, event).value, intents, cfg.latency);
    }
  }

  lemma {:induction false} TakenFold<H>(events: seq<MarketEvent>, s: Loop<H>)
    requires SortedEvents(events) && LoopInv(events, s) && MarketNext(events, s) && TakeMarket(events, s).Done?
    ensures Fold(events[..s.next + 1]) == Done(TakeMarket(events, s).value.book)
  {
    hide OrderInv, OnceInv;
    TakeMarketKeeps(events, s);
  }

  lemma {:induction false} StepFollows<S(!new)>(cfg: EngineConfig, strategy: Strategy<S>, start: S,
      events: seq<MarketEvent>,
      s: Loop<Engine<S>>)
    requires SortedEvents(events) && EventsOk(events) && EngineInv(cfg, events, s) && !Finished(events, s)
    requires FollowsStrategy(cfg, strategy, start, events, s)
    requires Step(events, EngineHandlers(cfg, strategy), s).Done?
    ensures FollowsStrategy(cfg, strategy, start, events, Step(events, EngineHandlers(cfg, strategy), s).value)
  {
    hide SortedEvents, EventsOk, LoopInv, HandlerInv, OnMarket, OnInternal, OrdersFrom, StrategyAfter, IntentsOf, Fold;
    if MarketNext(events, s) {
      TakenFold(events, s);
      MarketFollows(cfg, strategy, start, events, s, TakeMarket(events, s).value.book);
    } else {
      InternalFollows(cfg, strategy, start, events, s);
    }
  }

  lemma {:induction false} FollowsFromStart<S>(cfg: EngineConfig, strategy: Strategy<S>, start: S,
      events: seq<MarketEvent>)
    ensures FollowsStrategy(cfg, strategy, start, events, Start(StartEngine(cfg, start)))
  {
  }

  /** At every point of every run the strategy's state and the registered orders are those of the strategy
      run on the processed stream alone: latency decides when an order arrives, and neither queueing, fees,
      fills nor cancels reach the strategy. */
  lemma {:induction false} RunFollowsStrategy<S(!new)>(cfg: EngineConfig, strategy: Strategy<S>, start: S,
      events: seq<MarketEvent>, n: nat)
    requires InputsOk(strategy, events) && EngineRun(cfg, strategy, start, events, n).Done?
    ensures FollowsStrategy(cfg, strategy, start, events, EngineRun(cfg, strategy, start, events, n).value)
  {
    hide SortedEvents, EventsOk, StrategyTyped, FollowsStrategy, EngineInv, Step, EngineHandlers, Finished;
    if n == 0 {
      FollowsFromStart(cfg, strategy, start, events);
    } else {
      RunFollowsStrategy(cfg, strategy, start, events, n - 1);
      RunInvariant(cfg, strategy, start, events, n - 1);
      var before := EngineRun(cfg, strategy, start, events, n - 1).value;
      if !Finished(events, before) {
        StepFollows(cfg, strategy, start, events, before);
      }
    }
  }
}
