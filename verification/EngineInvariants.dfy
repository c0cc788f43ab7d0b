/** The invariant of whole engine runs, and the exceptions that can end one. */
module EngineInvariants {
  import opened Types
  import opened OrderBooks
  import opened Orders
  import opened EventLoops
  import opened LoopTheorems
  import opened LatencyExecution
  import opened Registry
  import opened RegistrySteps
  import opened Portfolios
  import opened PortfolioTheorems
  import opened PortfolioLimits
  import opened ReplayEngines
  import opened PendingEvents

  // ---- Assumptions on strategies ----

  predicate AllTyped(intents: seq<Intent>) {
    forall i :: 0 <= i < |intents| ==> IntentTyped(intents[i])
  }

  predicate AllOk(intents: seq<Intent>, now: int) {
    forall i :: 0 <= i < |intents| ==> IntentOk(intents[i], now)
  }

  /** The integer widths of the source hold for every intent the strategy emits. */
  ghost predicate StrategyTyped<S(!new)>(strategy: Strategy<S>) {
    && (forall s, event, book :: AllTyped(strategy.onBook(s, event, book).intents))
    && (forall s, event, book :: AllTyped(strategy.onTrade(s, event, book).intents))
    && (forall s, event, book :: AllTyped(strategy.onTimer(s, event, book).intents))
  }

  /** Every intent is well formed and stamped with the time of the event it reacts to. */
  ghost predicate StrategyOk<S(!new)>(strategy: Strategy<S>) {
    && (forall s, event: MarketEvent, book :: AllOk(strategy.onBook(s, event, book).intents, event.key.timestamp))
    && (forall s, event: MarketEvent, book :: AllOk(strategy.onTrade(s, event, book).intents, event.key.timestamp))
    && (forall s, event: Scheduled, book :: AllOk(strategy.onTimer(s, event, book).intents, event.timestamp))
  }

  // ---- The invariant ----

  /** The account is the replay of every fill, each applied once, in order. */
  predicate AccountInv(cfg: EngineConfig, account: Account, applied: nat, fills: seq<Fill>) {
    applied == |fills| && Replay(cfg.initialCash, fills) == Done(account)
  }

  /** A fill is never before its order's arrival nor after its cancel. */
  predicate InWindow(cfg: EngineConfig, o: Order, time: int) {
    o.arrival <= time && (o.kind.Limit? && cfg.cancelAfter.Some? ==> time <= o.arrival + cfg.cancelAfter.value)
  }

  predicate FillTimes(cfg: EngineConfig, orders: seq<Order>, fills: seq<Fill>, now: int) {
    && (forall k :: 0 <= k < |fills| ==>
      fills[k].timestamp <= now && 1 <= fills[k].orderId <= |orders|
      && InWindow(cfg, orders[fills[k].orderId - 1], fills[k].timestamp))
    && (forall j, k :: 0 <= j < k < |fills| ==> fills[j].timestamp <= fills[k].timestamp)
  }

  /** Every market event still to come is later than every arrival that has happened. */
  predicate ArrivedBehind(events: seq<MarketEvent>, next: nat, now: int, orders: seq<Order>) {
    forall i :: 0 <= i < |orders| && !orders[i].status.Pending? ==>
      orders[i].arrival <= now && forall k :: next <= k < |events| ==> orders[i].arrival < events[k].key.timestamp
  }

  predicate HandlerInv<S>(cfg: EngineConfig, events: seq<MarketEvent>, next: nat, now: int, pending: seq<Request>,
      e: Engine<S>) {
    && ExecInv(e.exec) && QueueInv(cfg, pending, e.exec.orders)
    && AccountInv(cfg, e.account, e.applied, e.exec.fills)
    && FillTimes(cfg, e.exec.orders, e.exec.fills, now)
    && ArrivedBehind(events, next, now, e.exec.orders)
    && e.emitted == |e.exec.orders|
  }

  predicate EngineInv<S>(cfg: EngineConfig, events: seq<MarketEvent>, s: Loop<Engine<S>>) {
    LoopInv(events, s) && HandlerInv(cfg, events, s.next, s.now, PendingOf(s.queue), s.state)
  }

  // ---- Accounting ----

  lemma {:induction false} ReplayStopped(initialCash: int, fills: seq<Fill>, n: nat)
    requires n <= |fills| && Replay(initialCash, fills[..n]).Threw?
    ensures Replay(initialCash, fills) == Threw(Replay(initialCash, fills[..n]).error)
  {
    if n == |fills| {
      assert fills[..n] == fills;
    } else {
      assert fills[..|fills| - 1][..n] == fills[..n];
      ReplayStopped(initialCash, fills[..|fills| - 1], n);
    }
  }

  /** `apply_new_fills` continues the replay. */
  lemma {:induction false} ApplyContinues(initialCash: int, account: Account, fills: seq<Fill>, applied: nat)
    requires applied <= |fills| && Replay(initialCash, fills[..applied]) == Done(account)
    ensures ApplyNewFills(account, fills, applied) == Replay(initialCash, fills)
    decreases |fills| - applied
  {
    hide FillAccount;
    if applied == |fills| {
      assert fills[..applied] == fills;
    } else {
      assert fills[..applied + 1][..applied] == fills[..applied];
      var next := FillAccount(account, fills[applied]);
      assert Replay(initialCash, fills[..applied + 1]) == next;
      if next.Threw? {
        ReplayStopped(initialCash, fills, applied + 1);
      } else {
        ApplyContinues(initialCash, next.value, fills, applied + 1);
      }
    }
  }

  /** Replaying fills numbered 1..n with valid fields can only fail by overflow; in particular the
      duplicate check never fires. */
  lemma {:induction false} ReplayErrors(initialCash: int, fills: seq<Fill>)
    requires forall k :: 0 <= k < |fills| ==>
      fills[k].sequence == k + 1 && 0 <= fills[k].price && 0 < fills[k].quantity && 0 <= fills[k].fee
    ensures Replay(initialCash, fills).Threw? ==> Replay(initialCash, fills).error == OverflowError
    ensures Replay(initialCash, fills).Done? ==> Replay(initialCash, fills).value.applied == seq(|fills|, i => i + 1)
  {
    hide ApplyLot;
    if fills != [] {
      var init := fills[..|fills| - 1];
      ReplayErrors(initialCash, init);
      var before := Replay(initialCash, init);
      if before.Done? {
        LotOverflow(before.value, fills[|fills| - 1]);
      }
    }
  }

  lemma {:induction false} ApplyNewFillsKeeps(cfg: EngineConfig, account: Account, applied: nat, before: seq<Fill>,
      e: Exec)
    requires AccountInv(cfg, account, applied, before) && before <= e.fills && MidInv(e)
    ensures var r := ApplyNewFills(account, e.fills, applied);
      if r.Threw? then r.error == OverflowError else AccountInv(cfg, r.value, Max(applied, |e.fills|), e.fills)
  {
    hide OrdersInv, ActiveInv, Replay, ApplyNewFills;
    assert e.fills[..applied] == before;
    ApplyContinues(cfg.initialCash, account, e.fills, applied);
    assert forall k :: 0 <= k < |e.fills| ==> FillOk(e.orders[e.fills[k].orderId - 1], e.fills[k]);
    ReplayErrors(cfg.initialCash, e.fills);
  }

  // ---- Submission by a strategy ----

  /** What submitting any number of intents does. */
  predicate Emitted(cfg: EngineConfig, pending: seq<Request>, e: Exec, em: Emission, now: int) {
    && ExecInv(em.exec) && Evolves(e, em.exec) && QueueInv(cfg, pending + em.requests, em.exec.orders)
    && em.exec.fills == e.fills && e.orders <= em.exec.orders
    && (forall i :: |e.orders| <= i < |em.exec.orders| ==> em.exec.orders[i].status.Pending?)
    && NonePast(em.requests, now)
    && |em.exec.orders| == |e.orders| + |em.requests|
  }

  lemma {:induction false} EmitOne(cfg: EngineConfig, pending: seq<Request>, e: Exec, em: Emission, intent: Intent,
      now: int)
    requires Emitted(cfg, pending, e, em, now) && IntentTyped(intent)
    ensures var r := Submit(em.exec, intent, cfg.latency, now);
      if r.Threw? then IntentOk(intent, now) ==> r.error == OverflowError
      else Emitted(cfg, pending, e, Emission(r.value.exec, em.requests + [r.value.request]), now)
  {
    hide MidInv, NoneFilled, QueueInv, Submit, Evolved;
    SubmitKeeps(em.exec, intent, cfg.latency, now);
    var r := Submit(em.exec, intent, cfg.latency, now);
    if r.Done? {
      var n := |em.exec.orders|;
      var order := r.value.exec.orders[n];
      assert r.value.exec.orders == em.exec.orders + [order];
      NewOrderId(r.value.exec, n);
      EvolvesTransitive(e, em.exec, r.value.exec);
      QueueAfterSubmit(cfg, pending + em.requests, em.exec.orders, order);
      assert pending + (em.requests + [r.value.request]) == pending + em.requests + [r.value.request];
    }
  }

  /** Submitting intents only appends orders. */
  lemma {:induction false} EmitAppends(em: Emission, intents: seq<Intent>, i: nat, latency: int, now: int)
    requires i <= |intents| && EmitFrom(em, intents, i, latency, now).Done?
    ensures var e := EmitFrom(em, intents, i, latency, now).value.exec;
      e.fills == em.exec.fills && e.active == em.exec.active && em.exec.orders <= e.orders
    decreases |intents| - i
  {
    if i < |intents| {
      var s := Submit(em.exec, intents[i], latency, now).value;
      EmitAppends(Emission(s.exec, em.requests + [s.request]), intents, i + 1, latency, now);
    }
  }

  lemma {:induction false} NewOrderId(e: Exec, i: nat)
    requires ExecInv(e) && i < |e.orders|
    ensures e.orders[i].id == i + 1
  {
  }

  lemma {:induction false} EmitKeeps(cfg: EngineConfig, pending: seq<Request>, e: Exec, em: Emission,
      intents: seq<Intent>, i: nat, now: int)
    requires Emitted(cfg, pending, e, em, now) && AllTyped(intents) && i <= |intents|
    ensures var r := EmitFrom(em, intents, i, cfg.latency, now);
      if r.Threw? then AllOk(intents, now) ==> r.error == OverflowError
      else Emitted(cfg, pending, e, r.value, now) && |r.value.requests| == |em.requests| + |intents| - i
    decreases |intents| - i
  {
    hide Emitted, Submit, IntentTyped, IntentOk;
    if i < |intents| {
      EmitOne(cfg, pending, e, em, intents[i], now);
      var r := Submit(em.exec, intents[i], cfg.latency, now);
      if r.Done? {
        EmitKeeps(cfg, pending, e, Emission(r.value.exec, em.requests + [r.value.request]), intents, i + 1, now);
      }
    }
  }

  lemma {:induction false} EmittedNothing(cfg: EngineConfig, pending: seq<Request>, e: Exec, now: int)
    requires ExecInv(e) && QueueInv(cfg, pending, e.orders)
    ensures Emitted(cfg, pending, e, Emission(e, []), now)
  {
    hide MidInv, NoneFilled, QueueInv;
    assert pending + [] == pending;
  }

  lemma {:induction false} TimesAfterEmission(cfg: EngineConfig, events: seq<MarketEvent>, next: nat, now: int,
      pending: seq<Request>, e: Exec, em: Emission)
    requires Emitted(cfg, pending, e, em, now)
    requires FillTimes(cfg, e.orders, e.fills, now) && ArrivedBehind(events, next, now, e.orders)
    ensures FillTimes(cfg, em.exec.orders, em.exec.fills, now) && ArrivedBehind(events, next, now, em.exec.orders)
  {
    hide ExecInv, QueueInv, Evolves;
    assert forall i :: 0 <= i < |e.orders| ==> em.exec.orders[i] == e.orders[i];
  }

  lemma {:induction false} EmitHandled<S>(cfg: EngineConfig, events: seq<MarketEvent>, next: nat, now: int,
      pending: seq<Request>, e: Engine<S>, decision: Decision<S>)
    requires HandlerInv(cfg, events, next, now, pending, e) && AllTyped(decision.intents)
    ensures var r := Emit(cfg, e, decision, now);
      if r.Threw? then AllOk(decision.intents, now) ==> r.error == OverflowError
      else
        && HandlerInv(cfg, events, next, now, pending + r.value.requests, r.value.state)
        && NonePast(r.value.requests, now) && Evolves(e.exec, r.value.state.exec)
  {
    hide ExecInv, QueueInv, AllTyped, AllOk, EmitFrom, FillTimes, ArrivedBehind, Replay;
    EmittedNothing(cfg, pending, e.exec, now);
    EmitKeeps(cfg, pending, e.exec, Emission(e.exec, []), decision.intents, 0, now);
    var em := EmitFrom(Emission(e.exec, []), decision.intents, 0, cfg.latency, now);
    if em.Done? {
      TimesAfterEmission(cfg, events, next, now, pending, e.exec, em.value);
    }
  }

  // ---- Market events ----

  /** No pending event is due before `time`. */
  predicate NotDue(pending: seq<Request>, time: int) {
    forall j :: 0 <= j < |pending| ==> time <= pending[j].timestamp
  }

  /** The clock moves to market event `next`, which is then consumed. */
  lemma {:induction false} TimesAdvance(cfg: EngineConfig, events: seq<MarketEvent>, next: nat, now: int,
      orders: seq<Order>, fills: seq<Fill>)
    requires SortedEvents(events) && next < |events| && now <= events[next].key.timestamp
    requires FillTimes(cfg, orders, fills, now) && ArrivedBehind(events, next, now, orders)
    ensures FillTimes(cfg, orders, fills, events[next].key.timestamp)
    ensures ArrivedBehind(events, next + 1, events[next].key.timestamp, orders)
  {
  }

  /** A resting order that a trade reaches arrived strictly before it and its cancel is not yet due. */
  lemma {:induction false} RestingInWindow(cfg: EngineConfig, events: seq<MarketEvent>, next: nat, now: int,
      pending: seq<Request>, e: Exec, id: int)
    requires ExecInv(e) && QueueInv(cfg, pending, e.orders) && ArrivedBehind(events, next, now, e.orders)
    requires next < |events| && NotDue(pending, events[next].key.timestamp)
    requires 1 <= id <= |e.orders| && IsResting(e.orders[id - 1].status)
    ensures e.orders[id - 1].arrival < events[next].key.timestamp
    ensures InWindow(cfg, e.orders[id - 1], events[next].key.timestamp)
  {
    hide ExecInv, DistinctEvents, PendingListed;
    if cfg.cancelAfter.Some? {
      assert HasEvent(pending, CancelEvent(id));
      var j :| 0 <= j < |pending| && pending[j].event == CancelEvent(id);
      assert RequestOk(cfg, e.orders, pending[j]);
    }
  }

  lemma {:induction false} TimesAfterTrade(cfg: EngineConfig, events: seq<MarketEvent>, next: nat, now: int,
      pending: seq<Request>, e: Exec, f: Exec)
    requires ExecInv(e) && QueueInv(cfg, pending, e.orders) && SortedEvents(events)
    requires next < |events| && now <= events[next].key.timestamp && NotDue(pending, events[next].key.timestamp)
    requires FillTimes(cfg, e.orders, e.fills, now) && ArrivedBehind(events, next, now, e.orders)
    requires Evolves(e, f) && TradedOnly(e.orders, f.orders)
    requires PassiveFills(e.orders, f.fills, |e.fills|, events[next].key.timestamp)
    ensures FillTimes(cfg, f.orders, f.fills, events[next].key.timestamp)
    ensures ArrivedBehind(events, next + 1, events[next].key.timestamp, f.orders)
  {
    hide ExecInv, QueueInv, NotDue, SortedEvents;
    var time := events[next].key.timestamp;
    TimesAdvance(cfg, events, next, now, e.orders, e.fills);
    forall k | 0 <= k < |f.fills|
      ensures f.fills[k].timestamp <= time && 1 <= f.fills[k].orderId <= |f.orders|
      ensures InWindow(cfg, f.orders[f.fills[k].orderId - 1], f.fills[k].timestamp)
      ensures k >= |e.fills| ==> f.fills[k].timestamp == time
    {
      if k < |e.fills| {
        assert f.fills[k] == e.fills[k];
      } else {
        RestingInWindow(cfg, events, next, now, pending, e, f.fills[k].orderId);
      }
      var i := f.fills[k].orderId - 1;
      assert Evolved(e.orders[i], f.orders[i]);
    }
    forall i | 0 <= i < |f.orders| && !f.orders[i].status.Pending?
      ensures f.orders[i].arrival <= time && !e.orders[i].status.Pending? && f.orders[i].arrival == e.orders[i].arrival
    {
      assert Evolved(e.orders[i], f.orders[i]);
    }
  }

  lemma {:induction false} TradeHandled<S>(cfg: EngineConfig, strategy: Strategy<S>, events: seq<MarketEvent>,
      next: nat, now: int, pending: seq<Request>, e: Engine<S>, book: Book)
    requires HandlerInv(cfg, events, next, now, pending, e) && SortedEvents(events) && EventsOk(events)
    requires next < |events| && now <= events[next].key.timestamp && NotDue(pending, events[next].key.timestamp)
    requires events[next].Trade? && AllTyped(strategy.onTrade(e.strategy, events[next], book).intents)
    ensures var time := events[next].key.timestamp;
      var r := OnMarket(cfg, strategy, e, book, events[next]);
      if r.Threw? then AllOk(strategy.onTrade(e.strategy, events[next], book).intents, time) ==> r.error == OverflowError
      else
        && HandlerInv(cfg, events, next + 1, time, pending + r.value.requests, r.value.state)
        && NonePast(r.value.requests, time) && Evolves(e.exec, r.value.state.exec)
  {
    hide MidInv, NoneFilled, QueueInv, TradeResult, ApplyNewFills, Replay, FillTimes, ArrivedBehind, Emit;
    hide SortedEvents, NotDue;
    hide AllTyped, AllOk, Evolves, TradedOnly, PassiveFills;
    var event := events[next];
    TradeKeeps(ExecOf(cfg), e.exec, event);
    var exec := TradeResult(ExecOf(cfg), e.exec, event);
    if exec.Done? {
      EvolvesParts(e.exec, exec.value);
      ApplyNewFillsKeeps(cfg, e.account, e.applied, e.exec.fills, exec.value);
      var account := ApplyNewFills(e.account, exec.value.fills, e.applied);
      if account.Done? {
        TimesAfterTrade(cfg, events, next, now, pending, e.exec, exec.value);
        QueueAfterTrade(cfg, pending, e.exec.orders, exec.value.orders);
        TradeKeepsCount(e.exec.orders, exec.value.orders);
        var after := e.(exec := exec.value, account := account.value, applied := Max(e.applied, |exec.value.fills|));
        EmitHandled(cfg, events, next + 1, event.key.timestamp, pending, after, strategy.onTrade(e.strategy, event, book));
        var emitted := Emit(cfg, after, strategy.onTrade(e.strategy, event, book), event.key.timestamp);
        if emitted.Done? {
          EvolvesTransitive(e.exec, exec.value, emitted.value.state.exec);
        }
      }
    }
  }

  lemma {:induction false} TradeKeepsCount(before: seq<Order>, after: seq<Order>)
    requires TradedOnly(before, after)
    ensures |before| == |after|
  {
  }

  lemma {:induction false} EvolvesParts(e: Exec, f: Exec)
    requires Evolves(e, f)
    ensures |e.orders| <= |f.orders| && (forall i :: 0 <= i < |e.orders| ==> SameTerms(e.orders[i], f.orders[i]))
    ensures e.fills <= f.fills
  {
  }

  lemma {:induction false} BookHandled<S>(cfg: EngineConfig, strategy: Strategy<S>, events: seq<MarketEvent>,
      next: nat, now: int, pending: seq<Request>, e: Engine<S>, book: Book)
    requires HandlerInv(cfg, events, next, now, pending, e) && SortedEvents(events)
    requires next < |events| && now <= events[next].key.timestamp
    requires events[next].BookUpdate? && AllTyped(strategy.onBook(e.strategy, events[next], book).intents)
    ensures var time := events[next].key.timestamp;
      var r := OnMarket(cfg, strategy, e, book, events[next]);
      if r.Threw? then AllOk(strategy.onBook(e.strategy, events[next], book).intents, time) ==> r.error == OverflowError
      else
        && HandlerInv(cfg, events, next + 1, time, pending + r.value.requests, r.value.state)
        && NonePast(r.value.requests, time) && Evolves(e.exec, r.value.state.exec)
  {
    hide ExecInv, QueueInv, AccountInv, FillTimes, ArrivedBehind, Emit, SortedEvents, AllTyped, AllOk;
    TimesAdvance(cfg, events, next, now, e.exec.orders, e.exec.fills);
    EmitHandled(cfg, events, next + 1, events[next].key.timestamp, pending, e, strategy.onBook(e.strategy, events[next], book));
  }

  // ---- Internal events ----

  /** Event `i` of the pending list is the one being handled, at its own time. */
  predicate Handling(events: seq<MarketEvent>, next: nat, now: int, pending: seq<Request>, i: nat, event: Scheduled) {
    && i < |pending| && pending[i] == Request(event.timestamp, event.event) && now <= event.timestamp
    && forall k :: next <= k < |events| ==> event.timestamp < events[k].key.timestamp
  }

  lemma {:induction false} TimesAfterArrival(cfg: EngineConfig, events: seq<MarketEvent>, next: nat, now: int,
      e: Exec, f: Exec, index: nat, order: Order, fills: seq<Fill>)
    requires index < |e.orders| && SameTerms(e.orders[index], order) && now <= order.arrival
    requires f.orders == e.orders[index := order] && f.fills == e.fills + fills
    requires SweptAt(fills, index + 1, order.arrival)
    requires FillTimes(cfg, e.orders, e.fills, now) && ArrivedBehind(events, next, now, e.orders)
    requires forall k :: next <= k < |events| ==> order.arrival < events[k].key.timestamp
    ensures FillTimes(cfg, f.orders, f.fills, order.arrival) && ArrivedBehind(events, next, order.arrival, f.orders)
  {
    forall k | 0 <= k < |f.fills|
      ensures f.fills[k].timestamp <= order.arrival && 1 <= f.fills[k].orderId <= |f.orders|
      ensures InWindow(cfg, f.orders[f.fills[k].orderId - 1], f.fills[k].timestamp)
      ensures k >= |e.fills| ==> f.fills[k].timestamp == order.arrival
    {
      if k >= |e.fills| {
        assert f.fills[k] == fills[k - |e.fills|];
      } else {
        assert f.fills[k] == e.fills[k];
      }
    }
  }

  lemma {:induction false} ArrivalHandled<S>(cfg: EngineConfig, events: seq<MarketEvent>, next: nat, now: int,
      pending: seq<Request>, i: nat, e: Engine<S>, book: Book, event: Scheduled)
    requires HandlerInv(cfg, events, next, now, pending, e) && BookOk(book)
    requires Handling(events, next, now, pending, i, event) && event.event.kind.OrderArrival?
    ensures var r := OnArrival(cfg, e, book, event);
      if r.Threw? then r.error == OverflowError
      else
        && HandlerInv(cfg, events, next, event.timestamp, RemoveAt(pending, i) + r.value.requests, r.value.state)
        && NonePast(r.value.requests, event.timestamp) && Evolves(e.exec, r.value.state.exec)
  {
    hide MidInv, NoneFilled, ArrivalResult, ApplyNewFills, Replay, FillTimes, ArrivedBehind, CancelRequest;
    hide RemoveAt, QueueInv;
    hide Evolves, SweptAt;
    DueFromQueue(cfg, pending, i, e.exec, event);
    var id := event.event.orderId.value;
    ArrivalKeeps(ExecOf(cfg), e.exec, event, book);
    var r := ArrivalResult(ExecOf(cfg), e.exec, event, book);
    if r.Done? {
      var f := r.value.exec;
      EvolvesParts(e.exec, f);
      ApplyNewFillsKeeps(cfg, e.account, e.applied, e.exec.fills, f);
      TimesAfterArrival(cfg, events, next, now, e.exec, f, id - 1, r.value.order, r.value.fills);
      NewOrderId(f, id - 1);
      ArrivalQueue(cfg, pending, i, e.exec, f, r.value.order, event);
    }
  }

  /** A queued arrival is due for its order. */
  lemma {:induction false} DueFromQueue(cfg: EngineConfig, pending: seq<Request>, i: nat, e: Exec, event: Scheduled)
    requires QueueInv(cfg, pending, e.orders) && i < |pending| && pending[i] == Request(event.timestamp, event.event)
    ensures event.event.orderId.Some? && 1 <= event.event.orderId.value <= |e.orders|
    ensures RequestOk(cfg, e.orders, pending[i])
    ensures event.event.kind.OrderArrival? ==> ArrivalDue(e, event)
    ensures event.event.kind.CancelArrival? ==> CancelDue(e, event)
    ensures event.event.kind.OrderArrival? || event.event.kind.CancelArrival?
  {
    assert RequestOk(cfg, e.orders, pending[i]);
  }

  /** The queue after an arrival: one event fewer, and a cancel if the order rests. */
  lemma {:induction false} ArrivalQueue(cfg: EngineConfig, pending: seq<Request>, i: nat, e: Exec, f: Exec,
      order: Order, event: Scheduled)
    requires ExecInv(f) && QueueInv(cfg, pending, e.orders) && i < |pending|
    requires pending[i] == Request(event.timestamp, event.event)
    requires event.event.kind.OrderArrival? && ArrivalDue(e, event) && !order.status.Pending?
    requires var id := event.event.orderId.value;
      SameTerms(e.orders[id - 1], order) && f.orders == e.orders[id - 1 := order] && order.id == id
    ensures var rest := RemoveAt(pending, i);
      if cfg.cancelAfter.Some? && IsActiveRestingOrder(order) then
        var r := CancelRequest(f, order.id, cfg.cancelAfter.value, event.timestamp);
        if r.Threw? then r.error == OverflowError
        else QueueInv(cfg, rest + [r.value], f.orders) && NonePast([r.value], event.timestamp)
      else QueueInv(cfg, rest + [], f.orders)
  {
    hide MidInv, NoneFilled, RequestsOk, DistinctEvents, PendingListed, CancelsListed, CancelRequest, HasEvent;
    hide RemoveAt;
    var id := event.event.orderId.value;
    RequestFromQueue(cfg, pending, i, e.orders);
    QueueAfterLeaving(cfg, pending, i, e.orders, order);
    var rest := RemoveAt(pending, i);
    assert rest + [] == rest;
    RestingIsLimit(f, id);
    if cfg.cancelAfter.Some? && IsActiveRestingOrder(order) {
      CancelRequestOk(f, id, cfg.cancelAfter.value, event.timestamp);
      QueueAfterCancelRequest(cfg, rest, f.orders, id);
    } else if cfg.cancelAfter.None? {
      NoCancels(cfg, rest, f.orders);
    }
  }

  lemma {:induction false} RequestFromQueue(cfg: EngineConfig, pending: seq<Request>, i: nat, orders: seq<Order>)
    requires QueueInv(cfg, pending, orders) && i < |pending|
    ensures RequestOk(cfg, orders, pending[i])
  {
  }

  lemma {:induction false} RestingIsLimit(e: Exec, id: int)
    requires ExecInv(e) && 1 <= id <= |e.orders|
    ensures IsResting(e.orders[id - 1].status) ==> e.orders[id - 1].kind.Limit?
  {
  }

  lemma {:induction false} NoCancels(cfg: EngineConfig, pending: seq<Request>, orders: seq<Order>)
    requires cfg.cancelAfter.None?
    ensures CancelsListed(cfg, pending, orders)
  {
  }

  lemma {:induction false} TimesAfterCancel(cfg: EngineConfig, events: seq<MarketEvent>, next: nat, now: int,
      time: int, orders: seq<Order>, fills: seq<Fill>, index: nat, order: Order)
    requires index < |orders| && SameTerms(orders[index], order) && !orders[index].status.Pending? && now <= time
    requires FillTimes(cfg, orders, fills, now) && ArrivedBehind(events, next, now, orders)
    ensures FillTimes(cfg, orders[index := order], fills, time) && ArrivedBehind(events, next, time, orders[index := order])
  {
  }

  /** A cancel arrival fails exactly when trades have already filled its order, and then with the
      not-resting error. */
  lemma {:induction false} CancelHandled<S>(cfg: EngineConfig, events: seq<MarketEvent>, next: nat, now: int,
      pending: seq<Request>, i: nat, e: Engine<S>, event: Scheduled)
    requires HandlerInv(cfg, events, next, now, pending, e)
    requires Handling(events, next, now, pending, i, event) && event.event.kind.CancelArrival?
    ensures var r := CancelResult(e.exec, event);
      if r.Threw? then
        r.error == InvalidArgument(NotResting) && e.exec.orders[event.event.orderId.value - 1].status.Filled?
      else
        && HandlerInv(cfg, events, next, event.timestamp, RemoveAt(pending, i) + [], e.(exec := r.value))
        && IsResting(e.exec.orders[event.event.orderId.value - 1].status) && Evolves(e.exec, r.value)
        && r.value.orders[event.event.orderId.value - 1].status.Canceled?
  {
    hide MidInv, NoneFilled, CancelResult, Replay, FillTimes, ArrivedBehind, RemoveAt, QueueInv, Evolves;
    hide RemovedEntry;
    DueFromQueue(cfg, pending, i, e.exec, event);
    CancelKeeps(e.exec, event);
    var r := CancelResult(e.exec, event);
    if r.Done? {
      var index := event.event.orderId.value - 1;
      var order := r.value.orders[index];
      TimesAfterCancel(cfg, events, next, now, event.timestamp, e.exec.orders, e.exec.fills, index, order);
      CancelQueue(cfg, pending, i, e.exec.orders, order);
      assert RemoveAt(pending, i) + [] == RemoveAt(pending, i);
    }
  }

  lemma {:induction false} CancelQueue(cfg: EngineConfig, pending: seq<Request>, i: nat, orders: seq<Order>,
      order: Order)
    requires QueueInv(cfg, pending, orders) && i < |pending| && RequestOk(cfg, orders, pending[i])
    requires pending[i].event.kind.CancelArrival? && order.status.Canceled?
    requires SameTerms(orders[pending[i].event.orderId.value - 1], order)
    ensures QueueInv(cfg, RemoveAt(pending, i), orders[pending[i].event.orderId.value - 1 := order])
  {
    hide RequestsOk, DistinctEvents, PendingListed, CancelsListed, HasEvent, RemoveAt;
    QueueAfterLeaving(cfg, pending, i, orders, order);
  }

  // ---- One iteration ----

  lemma {:induction false} PendingAfterSchedule(queue: seq<Scheduled>, requests: seq<Request>, base: nat)
    ensures PendingOf(queue + Stamped(requests, base)) == PendingOf(queue) + requests
  {
  }

  lemma {:induction false} PendingAfterRemoval(queue: seq<Scheduled>, i: nat)
    requires i < |queue|
    ensures PendingOf(RemoveAt(queue, i)) == RemoveAt(PendingOf(queue), i)
  {
  }

  lemma {:induction false} ScheduleHandled<S>(cfg: EngineConfig, events: seq<MarketEvent>, taken: Loop<Engine<S>>,
      handled: Handled<Engine<S>>)
    requires LoopInv(events, taken) && NonePast(handled.requests, taken.now)
    requires HandlerInv(cfg, events, taken.next, taken.now, PendingOf(taken.queue) + handled.requests, handled.state)
    ensures Schedule(taken, handled).Done? && EngineInv(cfg, events, Schedule(taken, handled).value)
    ensures Schedule(taken, handled).value.state == handled.state
  {
    hide LoopInv, HandlerInv;
    ScheduleKeeps(events, taken, handled);
    PendingAfterSchedule(taken.queue, handled.requests, |taken.scheduled|);
  }

  /** The next event is a cancel whose order trades have already filled. */
  predicate CancelTooLate<S>(events: seq<MarketEvent>, s: Loop<Engine<S>>) {
    && s.queue != [] && !MarketNext(events, s)
    && var event := s.queue[Top(s.queue)].event;
    && event.kind.CancelArrival? && event.orderId.Some?
    && 1 <= event.orderId.value <= |s.state.exec.orders|
    && s.state.exec.orders[event.orderId.value - 1].status.Filled?
  }

  lemma {:induction false} MarketDue<S>(events: seq<MarketEvent>, s: Loop<Engine<S>>)
    requires LoopInv(events, s) && MarketNext(events, s)
    ensures s.next < |events| && s.now <= events[s.next].key.timestamp
    ensures NotDue(PendingOf(s.queue), events[s.next].key.timestamp)
  {
    forall j | 0 <= j < |s.queue|
      ensures events[s.next].key.timestamp <= s.queue[j].timestamp
    {
      assert !Before(s.queue[j], s.queue[Top(s.queue)]);
    }
  }

  lemma {:induction false} InternalDue<S>(events: seq<MarketEvent>, s: Loop<Engine<S>>)
    requires SortedEvents(events) && LoopInv(events, s) && s.queue != [] && !MarketNext(events, s)
    ensures Handling(events, s.next, s.now, PendingOf(s.queue), Top(s.queue), s.queue[Top(s.queue)])
  {
    hide PastBeforeFuture, TraceSorted, OnceInv, BookInv;
    TopBeforeRest(events, s);
  }

  lemma {:induction false} BookIsOk<S>(events: seq<MarketEvent>, s: Loop<S>)
    requires EventsOk(events) && LoopInv(events, s)
    ensures BookOk(s.book)
  {
    hide OrderInv, OnceInv;
    FoldMeaning(events[..s.next], Buy, 0);
  }

  lemma {:induction false} MarketStep<S(!new)>(cfg: EngineConfig, strategy: Strategy<S>, events: seq<MarketEvent>,
      s: Loop<Engine<S>>)
    requires SortedEvents(events) && EventsOk(events) && StrategyTyped(strategy)
    requires EngineInv(cfg, events, s) && MarketNext(events, s)
    ensures var r := Step(events, EngineHandlers(cfg, strategy), s);
      if r.Threw? then StrategyOk(strategy) ==> r.error == OverflowError
      else EngineInv(cfg, events, r.value) && Evolves(s.state.exec, r.value.state.exec)
  {
    hide Evolves, LoopInv, HandlerInv, SortedEvents, EventsOk, AllTyped, AllOk, NotDue, OnMarket, Schedule;
    MarketDue(events, s);
    OnlyHandlersThrow(events, EngineHandlers(cfg, strategy), s);
    TakeMarketKeeps(events, s);
    var taken := TakeMarket(events, s).value;
    var event := events[s.next];
    if event.Trade? {
      TradeHandled(cfg, strategy, events, s.next, s.now, PendingOf(s.queue), s.state, taken.book);
    } else {
      BookHandled(cfg, strategy, events, s.next, s.now, PendingOf(s.queue), s.state, taken.book);
    }
    var r := OnMarket(cfg, strategy, taken.state, taken.book, event);
    if r.Done? {
      ScheduleHandled(cfg, events, taken, r.value);
    }
  }

  lemma {:induction false} InternalStep<S(!new)>(cfg: EngineConfig, strategy: Strategy<S>, events: seq<MarketEvent>,
      s: Loop<Engine<S>>)
    requires SortedEvents(events) && EventsOk(events)
    requires EngineInv(cfg, events, s) && s.queue != [] && !MarketNext(events, s)
    ensures var r := Step(events, EngineHandlers(cfg, strategy), s);
      if r.Threw? then r.error == OverflowError || (r.error == InvalidArgument(NotResting) && CancelTooLate(events, s))
      else EngineInv(cfg, events, r.value) && !CancelTooLate(events, s) && Evolves(s.state.exec, r.value.state.exec)
  {
    hide Evolves, LoopInv, HandlerInv, SortedEvents, EventsOk, MarketNext, OnArrival, CancelResult, Schedule;
    hide Handling, RemoveAt, Emit;
    InternalDue(events, s);
    OnlyHandlersThrow(events, EngineHandlers(cfg, strategy), s);
    TakeInternalKeeps(events, s);
    BookIsOk(events, s);
    InternalHandled(cfg, strategy, events, s);
    PendingAfterRemoval(s.queue, Top(s.queue));
    var taken := TakeInternal(s).value;
    var r := OnInternal(cfg, strategy, taken.state, taken.book, s.queue[Top(s.queue)]);
    if r.Done? {
      ScheduleHandled(cfg, events, taken, r.value);
    }
  }

  lemma {:induction false} InternalHandled<S>(cfg: EngineConfig, strategy: Strategy<S>, events: seq<MarketEvent>,
      s: Loop<Engine<S>>)
    requires EngineInv(cfg, events, s) && s.queue != [] && !MarketNext(events, s) && BookOk(s.book)
    requires Handling(events, s.next, s.now, PendingOf(s.queue), Top(s.queue), s.queue[Top(s.queue)])
    ensures var event := s.queue[Top(s.queue)];
      var r := OnInternal(cfg, strategy, s.state, s.book, event);
      if r.Threw? then r.error == OverflowError || (r.error == InvalidArgument(NotResting) && CancelTooLate(events, s))
      else
        && HandlerInv(cfg, events, s.next, event.timestamp, RemoveAt(PendingOf(s.queue), Top(s.queue)) + r.value.requests, r.value.state)
        && NonePast(r.value.requests, event.timestamp) && !CancelTooLate(events, s)
        && Evolves(s.state.exec, r.value.state.exec)
  {
    hide Evolves, LoopInv, ExecInv, QueueInv, AccountInv, FillTimes, ArrivedBehind, MarketNext, OnArrival;
    hide CancelResult, RemoveAt, Emit, Handling;
    var event := s.queue[Top(s.queue)];
    KindOfQueued(cfg, events, s.next, s.now, PendingOf(s.queue), Top(s.queue), s.state, event);
    if event.event.kind.OrderArrival? {
      ArrivalHandled(cfg, events, s.next, s.now, PendingOf(s.queue), Top(s.queue), s.state, s.book, event);
    } else {
      CancelHandled(cfg, events, s.next, s.now, PendingOf(s.queue), Top(s.queue), s.state, event);
    }
  }

  lemma {:induction false} KindOfQueued<S>(cfg: EngineConfig, events: seq<MarketEvent>, next: nat, now: int,
      pending: seq<Request>, i: nat, e: Engine<S>, event: Scheduled)
    requires HandlerInv(cfg, events, next, now, pending, e) && Handling(events, next, now, pending, i, event)
    ensures event.event.kind.OrderArrival? || event.event.kind.CancelArrival?
    ensures event.event.orderId.Some? && 1 <= event.event.orderId.value <= |e.exec.orders|
  {
    hide ExecInv, AccountInv, FillTimes, ArrivedBehind, QueueInv;
    DueFromQueue(cfg, pending, i, e.exec, event);
  }
}
