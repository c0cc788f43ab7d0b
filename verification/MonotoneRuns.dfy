/** Two runs that differ in the queue fraction only. */
module MonotoneRuns {
  import opened Types
  import opened OrderBooks
  import opened Orders
  import opened EventLoops
  import opened LoopTheorems
  import opened LatencyExecution
  import opened Registry
  import opened ReplayEngines
  import opened PendingEvents
  import opened EngineInvariants
  import opened EngineTheorems
  import opened QueueMonotonicity

  /** `high` is `low` with a larger queue fraction. */
  predicate OnlyFractionRaised(low: EngineConfig, high: EngineConfig) {
    && low.latency == high.latency && low.feePpm == high.feePpm && low.initialCash == high.initialCash
    && low.cancelAfter == high.cancelAfter && low.queuePpm <= high.queuePpm
  }

  /** The runs agree on everything but fills, queue positions and money. */
  predicate LoopSim<S(==)>(s: Loop<Engine<S>>, t: Loop<Engine<S>>) {
    && s.next == t.next && s.now == t.now && s.queue == t.queue && s.scheduled == t.scheduled
    && s.book == t.book && s.trace == t.trace
    && s.state.strategy == t.state.strategy && s.state.emitted == t.state.emitted
    && Sim(s.state.exec, t.state.exec)
  }

  lemma {:induction false} EmitFromSim(a: Emission, b: Emission, intents: seq<Intent>, i: nat, latency: int, now: int)
    requires Sim(a.exec, b.exec) && a.requests == b.requests && i <= |intents|
    ensures var l := EmitFrom(a, intents, i, latency, now);
      var h := EmitFrom(b, intents, i, latency, now);
      if l.Threw? then h == Threw(l.error)
      else h.Done? && Sim(l.value.exec, h.value.exec) && l.value.requests == h.value.requests
    decreases |intents| - i
  {
    hide Sim, Submit;
    if i < |intents| {
      SubmitSim(a.exec, b.exec, intents[i], latency, now);
      var l, h := Submit(a.exec, intents[i], latency, now), Submit(b.exec, intents[i], latency, now);
      if l.Done? {
        EmitFromSim(Emission(l.value.exec, a.requests + [l.value.request]), Emission(h.value.exec, b.requests + [h.value.request]),
          intents, i + 1, latency, now);
      }
    }
  }

  /** What two handlers of the runs leave behind. */
  predicate HandledSim<S(==)>(l: Handled<Engine<S>>, h: Handled<Engine<S>>) {
    && l.requests == h.requests && l.state.strategy == h.state.strategy && l.state.emitted == h.state.emitted
    && Sim(l.state.exec, h.state.exec)
  }

  lemma {:induction false} EmitSim<S>(low: EngineConfig, high: EngineConfig, d: Engine<S>, e: Engine<S>,
      decision: Decision<S>, now: int)
    requires OnlyFractionRaised(low, high) && Sim(d.exec, e.exec) && d.emitted == e.emitted
    requires Emit(low, d, decision, now).Done? && Emit(high, e, decision, now).Done?
    ensures HandledSim(Emit(low, d, decision, now).value, Emit(high, e, decision, now).value)
  {
    hide Sim, EmitFrom;
    EmitFromSim(Emission(d.exec, []), Emission(e.exec, []), decision.intents, 0, low.latency, now);
  }

  lemma {:induction false} MarketSim<S>(low: EngineConfig, high: EngineConfig, strategy: Strategy<S>, d: Engine<S>,
      e: Engine<S>, book: Book, event: MarketEvent)
    requires OnlyFractionRaised(low, high) && ExecInv(d.exec) && ExecInv(e.exec) && EventOk(event)
    requires Sim(d.exec, e.exec) && d.strategy == e.strategy && d.emitted == e.emitted
    requires OnMarket(low, strategy, d, book, event).Done? && OnMarket(high, strategy, e, book, event).Done?
    ensures HandledSim(OnMarket(low, strategy, d, book, event).value, OnMarket(high, strategy, e, book, event).value)
  {
    hide Sim, ExecInv, Emit, TradeResult, ApplyNewFills, HandledSim;
    if event.BookUpdate? {
      EmitSim(low, high, d, e, strategy.onBook(d.strategy, event, book), event.key.timestamp);
    } else {
      TradeSim(ExecOf(low), ExecOf(high), d.exec, e.exec, event);
      var l, h := TradeResult(ExecOf(low), d.exec, event).value, TradeResult(ExecOf(high), e.exec, event).value;
      var a := d.(exec := l, account := ApplyNewFills(d.account, l.fills, d.applied).value, applied := Max(d.applied, |l.fills|));
      var b := e.(exec := h, account := ApplyNewFills(e.account, h.fills, e.applied).value, applied := Max(e.applied, |h.fills|));
      EmitSim(low, high, a, b, strategy.onTrade(d.strategy, event, book), event.key.timestamp);
    }
  }

  lemma {:induction false} SameCancel(d: Exec, e: Exec, id: int, latency: int, now: int)
    requires CancelRequest(d, id, latency, now).Done? && CancelRequest(e, id, latency, now).Done?
    ensures CancelRequest(d, id, latency, now) == CancelRequest(e, id, latency, now)
  {
  }

  lemma {:induction false} InternalSim<S>(low: EngineConfig, high: EngineConfig, strategy: Strategy<S>, d: Engine<S>,
      e: Engine<S>, book: Book, event: Scheduled)
    requires OnlyFractionRaised(low, high) && ExecInv(d.exec) && ExecInv(e.exec) && BookOk(book)
    requires Sim(d.exec, e.exec) && d.strategy == e.strategy && d.emitted == e.emitted
    requires event.event.kind.OrderArrival? || event.event.kind.CancelArrival?
    requires OnInternal(low, strategy, d, book, event).Done? && OnInternal(high, strategy, e, book, event).Done?
    ensures HandledSim(OnInternal(low, strategy, d, book, event).value, OnInternal(high, strategy, e, book, event).value)
  {
    hide Sim, ExecInv, ArrivalResult, CancelResult, ApplyNewFills, CancelRequest;
    if event.event.kind.OrderArrival? {
      ArrivalSim(ExecOf(low), ExecOf(high), d.exec, e.exec, event, book);
      var a, b := ArrivalResult(ExecOf(low), d.exec, event, book).value, ArrivalResult(ExecOf(high), e.exec, event, book).value;
      if low.cancelAfter.Some? && IsActiveRestingOrder(a.order) {
        SameCancel(a.exec, b.exec, a.order.id, low.cancelAfter.value, event.timestamp);
      }
    } else {
      CancelSim(d.exec, e.exec, event);
    }
  }

  lemma {:induction false} StepSim<S(!new)>(low: EngineConfig, high: EngineConfig, strategy: Strategy<S>,
      events: seq<MarketEvent>, s: Loop<Engine<S>>, t: Loop<Engine<S>>)
    requires OnlyFractionRaised(low, high) && InputsOk(strategy, events) && LoopSim(s, t)
    requires EngineInv(low, events, s) && EngineInv(high, events, t) && !Finished(events, s)
    requires Step(events, EngineHandlers(low, strategy), s).Done?
    requires Step(events, EngineHandlers(high, strategy), t).Done?
    ensures LoopSim(Step(events, EngineHandlers(low, strategy), s).value, Step(events, EngineHandlers(high, strategy), t).value)
  {
    hide Sim, SortedEvents, EventsOk, StrategyTyped, LoopInv, ExecInv, QueueInv, AccountInv, FillTimes;
    hide ArrivedBehind, OnMarket, OnInternal, RequestOk, RemoveAt;
    InputsSorted(strategy, events);
    BookIsOk(events, s);
    if MarketNext(events, s) {
      var book := TakeMarket(events, s).value.book;
      EventAt(events, s.next);
      MarketSim(low, high, strategy, s.state, t.state, book, events[s.next]);
    } else {
      NextKind(low, events, s);
      InternalSim(low, high, strategy, s.state, t.state, s.book, s.queue[Top(s.queue)]);
    }
  }

  lemma {:induction false} EventAt(events: seq<MarketEvent>, i: nat)
    requires EventsOk(events) && i < |events|
    ensures EventOk(events[i])
  {
  }

  lemma {:induction false} RunsSim<S(!new)>(low: EngineConfig, high: EngineConfig, strategy: Strategy<S>, start: S,
      events: seq<MarketEvent>, n: nat)
    requires OnlyFractionRaised(low, high) && InputsOk(strategy, events)
    requires EngineRun(low, strategy, start, events, n).Done? && EngineRun(high, strategy, start, events, n).Done?
    ensures LoopSim(EngineRun(low, strategy, start, events, n).value, EngineRun(high, strategy, start, events, n).value)
  {
    hide InputsOk, EngineInv, Step, EngineHandlers;
    if n > 0 {
      RunMonotone(low, strategy, start, events, n - 1, n);
      RunMonotone(high, strategy, start, events, n - 1, n);
      RunsSim(low, high, strategy, start, events, n - 1);
      RunInvariant(low, strategy, start, events, n - 1);
      RunInvariant(high, strategy, start, events, n - 1);
      var s := EngineRun(low, strategy, start, events, n - 1).value;
      var t := EngineRun(high, strategy, start, events, n - 1).value;
      if !Finished(events, s) {
        StepSim(low, high, strategy, events, s, t);
      }
    }
  }

  /** Raising the queue fraction never raises the filled quantity of any order, at any point that both
      runs reach, for any number of resting orders, with or without cancels. */
  lemma {:induction false} LargerQueueFillsLess<S(!new)>(low: EngineConfig, high: EngineConfig,
      strategy: Strategy<S>, start: S, events: seq<MarketEvent>, n: nat)
    requires OnlyFractionRaised(low, high) && InputsOk(strategy, events)
    requires EngineRun(low, strategy, start, events, n).Done? && EngineRun(high, strategy, start, events, n).Done?
    ensures var l := EngineRun(low, strategy, start, events, n).value.state.exec.orders;
      var h := EngineRun(high, strategy, start, events, n).value.state.exec.orders;
      |l| == |h| && forall i :: 0 <= i < |l| ==> SameTerms(l[i], h[i]) && h[i].filled <= l[i].filled
  {
    hide InputsOk, EngineRun, Embeds;
    RunsSim(low, high, strategy, start, events, n);
    var l := EngineRun(low, strategy, start, events, n).value.state.exec.orders;
    var h := EngineRun(high, strategy, start, events, n).value.state.exec.orders;
    assert forall i :: 0 <= i < |l| ==> OrderSim(l[i], h[i]);
  }
}
