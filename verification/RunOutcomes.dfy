/** What each kind of event does in every run, in terms of the engine's own configuration. */
module RunOutcomes {
  import opened Types
  import opened OrderBooks
  import opened Orders
  import opened Simulators
  import opened EventLoops
  import opened LoopTheorems
  import opened LatencyExecution
  import opened Registry
  import opened RegistrySteps
  import opened TradeAllocation
  import opened SweepTheorems
  import opened ReplayEngines
  import opened PendingEvents
  import opened EngineInvariants
  import opened EngineTheorems

  // ---- Arrivals ----

  function BoundOf(o: Order): Option<int> {
    if o.kind.Limit? then o.limit else None
  }

  /** What may be taken from a book by an order. */
  function DepthFor(o: Order, book: Book): int {
    EligibleDepth(o.side, BoundOf(o), OppositeDepth(o.side, book))
  }

  /** Order `o` arrives at `book`: it fills as far and as well as the book allows; its statuses follow from
      the depth; a limit remainder, and nothing else, rests behind all other orders, at the front of its
      queue if it traded at its limit and else behind the given fraction of what its own side shows. */
  ghost predicate ArrivalLaw(queuePpm: int, o: Order, book: Book, after: Order, fills: seq<Fill>,
      active: seq<ActiveOrder>, activeAfter: seq<ActiveOrder>) {
    && OptimalSweep(o, BoundOf(o), OppositeDepth(o.side, book), fills)
    && after.filled == Min(o.original, DepthFor(o, book))
    && after.history
       == o.history + (if o.kind.Market? then MarketStatuses(o.original, DepthFor(o, book))
                       else LimitStatuses(o.original, DepthFor(o, book)))
    && (o.kind.Limit? ==> o.limit.Some?)
    && activeAfter
       == active + (if o.kind.Limit? && DepthFor(o, book) < o.original then
                      [ActiveOrder(o.id, o.side, o.limit.value, QueueFor(queuePpm, o, book, fills), o.arrival)]
                    else [])
  }

  function QueueFor(queuePpm: int, o: Order, book: Book, fills: seq<Fill>): int {
    if o.limit.None? || FilledAt(fills, o.limit.value) then 0
    else RoundedRate(queuePpm, ShownAt(LevelsOf(book, o.side), o.limit.value))
  }

  lemma {:induction false} LimitLaw(cfg: ExecConfig, e: Exec, o: Order, book: Book)
    requires ConfigOk(cfg) && BookOk(book) && OrderOk(o) && o.status.Pending? && o.kind.Limit?
    requires LimitArrival(cfg, e, o, book).Done?
    ensures var a := LimitArrival(cfg, e, o, book).value;
      ArrivalLaw(cfg.queuePpm, o, book, a.order, a.fills, e.active, a.exec.active)
  {
    hide LimitArrival, OptimalSweep, EligibleDepth, FilledAt, RoundedRate, ShownAt, IsPath, LimitStatuses, BookOk;
    LimitSweep(cfg, e, o, book);
    LimitHistory(cfg, e, o, book);
    LimitArrivalKeeps(cfg, e, o, book);
    var a := LimitArrival(cfg, e, o, book).value;
    assert e.active + [] == e.active;
    if IsResting(a.order.status) {
      LimitQueue(cfg, e, o, book);
    }
  }

  lemma {:induction false} MarketLaw(cfg: ExecConfig, e: Exec, o: Order, book: Book)
    requires ConfigOk(cfg) && BookOk(book) && OrderOk(o) && o.status.Pending? && o.kind.Market?
    requires OrderExecution(cfg.feePpm, o, book, e.nextFill).Done?
    ensures var x := OrderExecution(cfg.feePpm, o, book, e.nextFill).value;
      ArrivalLaw(cfg.queuePpm, o, book, x.order, x.fills, e.active, e.active)
  {
    hide OrderExecution, OptimalSweep, EligibleDepth, IsPath, MarketStatuses, BookOk;
    MarketSweep(cfg.feePpm, o, book, e.nextFill);
    MarketHistory(cfg.feePpm, o, book, e.nextFill);
    assert e.active + [] == e.active;
  }

  lemma {:induction false} ArrivalResultLaw(cfg: ExecConfig, e: Exec, event: Scheduled, book: Book)
    requires ConfigOk(cfg) && ExecInv(e) && BookOk(book) && ArrivalDue(e, event)
    requires ArrivalResult(cfg, e, event, book).Done?
    ensures var o := e.orders[event.event.orderId.value - 1];
      var a := ArrivalResult(cfg, e, event, book).value;
      && ArrivalLaw(cfg.queuePpm, o, book, a.order, a.fills, e.active, a.exec.active)
      && a.exec.fills == e.fills + a.fills && a.exec.orders == e.orders[o.id - 1 := a.order] && o.id == event.event.orderId.value
  {
    hide MidInv, NoneFilled, ArrivalLaw, LimitArrival, OrderExecution;
    var id := event.event.orderId.value;
    FindInExec(e, id);
    OrderOfExec(e, id - 1);
    var o := e.orders[id - 1];
    if o.kind.Limit? {
      LimitLaw(cfg, e, o, book);
    } else {
      MarketLaw(cfg, e, o, book);
    }
  }

  lemma {:induction false} OrderOfExec(e: Exec, i: nat)
    requires ExecInv(e) && i < |e.orders|
    ensures OrderOk(e.orders[i]) && e.orders[i].id == i + 1
  {
  }

  /** From one state to the next, only order `id` and what follows from it has changed. */
  ghost predicate ArrivalStep(queuePpm: int, e: Exec, f: Exec, id: int, book: Book) {
    && 1 <= id <= |e.orders| == |f.orders| && e.fills <= f.fills
    && f.orders == e.orders[id - 1 := f.orders[id - 1]]
    && ArrivalLaw(queuePpm, e.orders[id - 1], book, f.orders[id - 1], f.fills[|e.fills|..], e.active, f.active)
  }

  lemma {:induction false} StepArrival<S(!new)>(cfg: EngineConfig, strategy: Strategy<S>, events: seq<MarketEvent>,
      s: Loop<Engine<S>>, id: int)
    requires InputsOk(strategy, events) && EngineInv(cfg, events, s) && s.queue != [] && !MarketNext(events, s)
    requires s.queue[Top(s.queue)].event == ArrivalEvent(id)
    requires Step(events, EngineHandlers(cfg, strategy), s).Done?
    ensures 1 <= id <= |s.state.exec.orders| && s.queue[Top(s.queue)].timestamp == s.state.exec.orders[id - 1].arrival
    ensures ArrivalStep(cfg.queuePpm, s.state.exec, Step(events, EngineHandlers(cfg, strategy), s).value.state.exec, id, s.book)
  {
    hide SortedEvents, EventsOk, StrategyTyped, LoopInv, MidInv, NoneFilled, QueueInv, AccountInv, FillTimes;
    hide ArrivedBehind, MarketNext;
    hide ArrivalResult, ApplyNewFills, CancelRequest, ArrivalLaw, OnMarket;
    InputsSorted(strategy, events);
    NextKind(cfg, events, s);
    BookIsOk(events, s);
    var event := s.queue[Top(s.queue)];
    ArrivalResultLaw(ExecOf(cfg), s.state.exec, event, s.book);
    var a := ArrivalResult(ExecOf(cfg), s.state.exec, event, s.book).value;
    assert a.exec.fills[|s.state.exec.fills|..] == a.fills;
  }

  /** Whatever arrives at time T in any run meets the book made of exactly the updates up to T: it is
      filled at once as far and as well as that book allows, and what is left rests with the configured
      share of the queue ahead. */
  lemma {:induction false} ArrivalTakesBest<S(!new)>(cfg: EngineConfig, strategy: Strategy<S>, start: S,
      events: seq<MarketEvent>, n: nat, id: int)
    requires InputsOk(strategy, events)
    requires EngineRun(cfg, strategy, start, events, n).Done? && EngineRun(cfg, strategy, start, events, n + 1).Done?
    requires var s := EngineRun(cfg, strategy, start, events, n).value;
      s.queue != [] && !MarketNext(events, s) && s.queue[Top(s.queue)].event == ArrivalEvent(id)
    ensures var e := EngineRun(cfg, strategy, start, events, n).value.state.exec;
      && 1 <= id <= |e.orders| && Fold(UpTo(events, e.orders[id - 1].arrival)).Done?
      && ArrivalStep(cfg.queuePpm, e, EngineRun(cfg, strategy, start, events, n + 1).value.state.exec, id,
                     Fold(UpTo(events, e.orders[id - 1].arrival)).value)
  {
    hide EngineInv, EngineHandlers, ArrivalStep, StrategyTyped, EventsOk, SortedEvents, MarketNext, Fold, UpTo;
    RunInvariant(cfg, strategy, start, events, n);
    var s := EngineRun(cfg, strategy, start, events, n).value;
    StepArrival(cfg, strategy, events, s, id);
    NoLookAhead(events, EngineHandlers(cfg, strategy), StartEngine(cfg, start), n);
  }

  // ---- Trades ----

  /** What one trade does to the resting orders: by registry order each gets what the ones before leave
      over; entries of complete orders disappear, the others stay in order with their new queues. Without
      volume or aggressor nothing happens. */
  predicate TradeLaw(e: Exec, orders: seq<Order>, active: seq<ActiveOrder>, trade: MarketEvent)
    requires trade.Trade? && |orders| == |e.orders|
    requires forall j :: 0 <= j < |e.active| ==> 1 <= e.active[j].id <= |e.orders|
  {
    if trade.quantity == 0 || trade.aggressor.None? then orders == e.orders && active == e.active
    else
      && (forall j :: 0 <= j < |e.active| ==>
        FilledByPrice(e.orders[e.active[j].id - 1], e.active[j].queue, trade, Reaching(e.orders, e.active[..j], trade),
                      orders[e.active[j].id - 1], Requeued(e, trade)[j].queue))
      && (forall id {:trigger IsActive(e.active, id)} ::
        1 <= id <= |e.orders| && !IsActive(e.active, id) ==> orders[id - 1] == e.orders[id - 1])
      && Retained(orders, Requeued(e, trade)) == Done(active)
  }

  lemma {:induction false} EntriesInRange(e: Exec)
    requires ExecInv(e)
    ensures forall j :: 0 <= j < |e.active| ==> 1 <= e.active[j].id <= |e.orders|
  {
  }

  lemma {:induction false} TradeResultLaw(cfg: ExecConfig, e: Exec, trade: MarketEvent)
    requires ConfigOk(cfg) && ExecInv(e) && trade.Trade? && EventOk(trade) && TradeResult(cfg, e, trade).Done?
    requires forall j :: 0 <= j < |e.active| ==> 1 <= e.active[j].id <= |e.orders|
    ensures var f := TradeResult(cfg, e, trade).value;
      |f.orders| == |e.orders| && TradeLaw(e, f.orders, f.active, trade)
  {
    hide ExecInv, TradeResult, FilledByPrice, Reaching, Retained, AfterTrade, Requeued;
    TradeClosedForm(cfg, e, trade);
    var f := TradeResult(cfg, e, trade).value;
    if trade.quantity != 0 && trade.aggressor.Some? {
      forall j | 0 <= j < |e.active|
        ensures FilledByPrice(e.orders[e.active[j].id - 1], e.active[j].queue, trade, Reaching(e.orders, e.active[..j], trade),
                              f.orders[e.active[j].id - 1], Requeued(e, trade)[j].queue)
      {
        OrderAfterTrade(e, f, trade, j);
      }
    }
  }

  /** The trade law of a step: orders submitted in reaction to the trade are appended and do not take part. */
  predicate TradeStep(e: Exec, f: Exec, trade: MarketEvent)
    requires trade.Trade?
  {
    && |e.orders| <= |f.orders|
    && (forall j :: 0 <= j < |e.active| ==> 1 <= e.active[j].id <= |e.orders|)
    && TradeLaw(e, f.orders[..|e.orders|], f.active, trade)
  }

  lemma {:induction false} MarketTradeStep<S(!new)>(cfg: EngineConfig, strategy: Strategy<S>, events: seq<MarketEvent>,
      s: Loop<Engine<S>>, book: Book)
    requires EventsOk(events) && EngineInv(cfg, events, s) && MarketNext(events, s) && events[s.next].Trade?
    requires OnMarket(cfg, strategy, s.state, book, events[s.next]).Done?
    ensures TradeStep(s.state.exec, OnMarket(cfg, strategy, s.state, book, events[s.next]).value.state.exec, events[s.next])
  {
    hide LoopInv, ExecInv, QueueInv, AccountInv, FillTimes, ArrivedBehind, TradeResult, ApplyNewFills;
    hide EmitFrom, TradeLaw;
    var e := s.state.exec;
    var event := events[s.next];
    EntriesInRange(e);
    TradeResultLaw(ExecOf(cfg), e, event);
    var exec := TradeResult(ExecOf(cfg), e, event).value;
    var intents := strategy.onTrade(s.state.strategy, event, book).intents;
    EmitAppends(Emission(exec, []), intents, 0, cfg.latency, event.key.timestamp);
    var f := OnMarket(cfg, strategy, s.state, book, event).value.state.exec;
    assert f.orders[..|e.orders|] == exec.orders;
  }

  /** In every run every trade is allocated to the resting orders by the trade law. */
  lemma {:induction false} TradeReaches<S(!new)>(cfg: EngineConfig, strategy: Strategy<S>, start: S,
      events: seq<MarketEvent>, n: nat)
    requires InputsOk(strategy, events)
    requires EngineRun(cfg, strategy, start, events, n).Done? && EngineRun(cfg, strategy, start, events, n + 1).Done?
    requires var s := EngineRun(cfg, strategy, start, events, n).value;
      MarketNext(events, s) && events[s.next].Trade?
    ensures var s := EngineRun(cfg, strategy, start, events, n).value;
      TradeStep(s.state.exec, EngineRun(cfg, strategy, start, events, n + 1).value.state.exec, events[s.next])
  {
    hide EngineInv, StrategyTyped, EventsOk, SortedEvents, OnMarket, TradeStep;
    RunInvariant(cfg, strategy, start, events, n);
    InputsSorted(strategy, events);
    var s := EngineRun(cfg, strategy, start, events, n).value;
    MarketTradeStep(cfg, strategy, events, s, TakeMarket(events, s).value.book);
  }

  // ---- Cancels ----

  /** Order `id` becomes Canceled with its fills kept, its entry is erased, and nothing else changes. */
  predicate CancelStep(e: Exec, f: Exec, id: int) {
    && 1 <= id <= |e.orders| == |f.orders| && f.fills == e.fills
    && f.orders == e.orders[id - 1 := e.orders[id - 1].(status := Canceled, history := e.orders[id - 1].history + [Canceled])]
    && exists k :: 0 <= k < |e.active| && e.active[k].id == id && f.active == e.active[..k] + e.active[k + 1..]
  }

  lemma {:induction false} CancelIntoStep(e: Exec, id: int, f: Exec)
    requires CanceledInto(e, id, f)
    ensures CancelStep(e, f, id)
  {
    var slot :| 0 <= slot < |e.active| && e.active[slot].id == id && f.active == RemoveAt(e.active, slot);
    assert f.active == e.active[..slot] + e.active[slot + 1..];
  }

  /** In every run a cancel that is carried out does exactly that. */
  lemma {:induction false} CancelCarriedOut<S(!new)>(cfg: EngineConfig, strategy: Strategy<S>, start: S,
      events: seq<MarketEvent>, n: nat, id: int)
    requires InputsOk(strategy, events)
    requires EngineRun(cfg, strategy, start, events, n).Done? && EngineRun(cfg, strategy, start, events, n + 1).Done?
    requires var s := EngineRun(cfg, strategy, start, events, n).value;
      s.queue != [] && !MarketNext(events, s) && s.queue[Top(s.queue)].event == CancelEvent(id)
    ensures CancelStep(EngineRun(cfg, strategy, start, events, n).value.state.exec,
                       EngineRun(cfg, strategy, start, events, n + 1).value.state.exec, id)
  {
    hide EngineInv, StrategyTyped, EventsOk, SortedEvents, OnMarket, OnArrival, CancelResult, CancelStep, MarketNext;
    hide ExecInv, Evolves, CanceledInto;
    RunInvariant(cfg, strategy, start, events, n);
    var s := EngineRun(cfg, strategy, start, events, n).value;
    ExecOfEngine(cfg, events, s);
    CancelKeeps(s.state.exec, s.queue[Top(s.queue)]);
    CancelIntoStep(s.state.exec, id, CancelResult(s.state.exec, s.queue[Top(s.queue)]).value);
  }

  lemma {:induction false} ExecOfEngine<S>(cfg: EngineConfig, events: seq<MarketEvent>, s: Loop<Engine<S>>)
    requires EngineInv(cfg, events, s)
    ensures ExecInv(s.state.exec)
  {
    hide LoopInv, ExecInv, QueueInv, AccountInv, FillTimes, ArrivedBehind;
  }
}
