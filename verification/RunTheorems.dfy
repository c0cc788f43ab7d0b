/** What holds at every point of an engine run, and when it completes. */
module RunTheorems {
  import opened Types
  import opened OrderBooks
  import opened Orders
  import opened EventLoops
  import opened LoopTheorems
  import opened LatencyExecution
  import opened Registry
  import opened RegistrySteps
  import opened Portfolios
  import opened PortfolioTheorems
  import opened ReplayEngines
  import opened PendingEvents
  import opened EngineInvariants
  import opened EngineTheorems

  // ---- The registry ----

  /** At every point of every run the active list holds exactly one entry per resting limit order, with
      the order's side, limit and arrival and a queue position of at least zero; such an order has
      something left to fill, and every order's history is a path of the transition table. */
  lemma {:induction false} RegistryBijection<S(!new)>(cfg: EngineConfig, strategy: Strategy<S>, start: S,
      events: seq<MarketEvent>, n: nat)
    requires InputsOk(strategy, events) && EngineRun(cfg, strategy, start, events, n).Done?
    ensures var e := EngineRun(cfg, strategy, start, events, n).value.state.exec;
      && (forall id {:trigger IsActive(e.active, id)} ::
        IsActive(e.active, id) <==> 1 <= id <= |e.orders| && e.orders[id - 1].kind.Limit? && IsResting(e.orders[id - 1].status))
      && DistinctIds(e.active) && AllAgree(e.orders, e.active)
      && (forall i :: 0 <= i < |e.orders| ==> e.orders[i].id == i + 1 && OrderOk(e.orders[i]))
  {
    hide InputsOk, EngineRun, LoopInv, QueueInv, AccountInv, FillTimes, ArrivedBehind, FillsInv, OrderOk;
    hide DistinctIds, ActiveOk;
    RunInvariant(cfg, strategy, start, events, n);
    var e := EngineRun(cfg, strategy, start, events, n).value.state.exec;
    forall id | IsActive(e.active, id)
      ensures 1 <= id <= |e.orders| && e.orders[id - 1].kind.Limit? && IsResting(e.orders[id - 1].status)
    {
      var j :| 0 <= j < |e.active| && e.active[j].id == id;
      ActiveIsLimit(e, j);
    }
  }

  lemma {:induction false} ActiveIsLimit(e: Exec, j: nat)
    requires ExecInv(e) && j < |e.active|
    ensures 1 <= e.active[j].id <= |e.orders|
    ensures var o := e.orders[e.active[j].id - 1]; o.kind.Limit? && IsResting(o.status)
  {
    assert ActiveOk(e.orders, e.active[j]);
  }

  // ---- Cancels ----

  /** The cancel of an order is still scheduled, or has been carried out. */
  predicate CancelingOrCanceled<S>(s: Loop<Engine<S>>, id: int) {
    && 1 <= id <= |s.state.exec.orders|
    && (HasEvent(PendingOf(s.queue), CancelEvent(id)) || s.state.exec.orders[id - 1].status.Canceled?)
  }

  lemma {:induction false} RestingHasCancel<S>(cfg: EngineConfig, events: seq<MarketEvent>, s: Loop<Engine<S>>,
      id: int)
    requires EngineInv(cfg, events, s) && cfg.cancelAfter.Some?
    requires 1 <= id <= |s.state.exec.orders| && IsResting(s.state.exec.orders[id - 1].status)
    ensures CancelingOrCanceled(s, id)
  {
    hide LoopInv, ExecInv, AccountInv, FillTimes, ArrivedBehind, RequestsOk, DistinctEvents, PendingListed, HasEvent;
    assert QueueInv(cfg, PendingOf(s.queue), s.state.exec.orders);
  }

  lemma {:induction false} CancelingStep<S(!new)>(cfg: EngineConfig, strategy: Strategy<S>, events: seq<MarketEvent>,
      s: Loop<Engine<S>>, id: int)
    requires InputsOk(strategy, events) && EngineInv(cfg, events, s) && !Finished(events, s)
    requires CancelingOrCanceled(s, id)
    requires Step(events, EngineHandlers(cfg, strategy), s).Done?
    ensures CancelingOrCanceled(Step(events, EngineHandlers(cfg, strategy), s).value, id)
  {
    hide InputsOk, EngineInv, Step, HasEvent, Evolves;
    EngineStep(cfg, strategy, events, s);
    if HasEvent(PendingOf(s.queue), CancelEvent(id)) {
      CancelPersists(cfg, strategy, events, s, id);
    } else {
      TerminalForever(s.state.exec, Step(events, EngineHandlers(cfg, strategy), s).value.state.exec, id);
    }
  }

  lemma {:induction false} TerminalForever(e: Exec, f: Exec, id: int)
    requires Evolves(e, f) && 1 <= id <= |e.orders| && IsTerminal(e.orders[id - 1].status)
    ensures id <= |f.orders| && f.orders[id - 1] == e.orders[id - 1]
  {
    assert Evolved(e.orders[id - 1], f.orders[id - 1]);
  }

  lemma {:induction false} CancelingForever<S(!new)>(cfg: EngineConfig, strategy: Strategy<S>, start: S,
      events: seq<MarketEvent>, m: nat, n: nat, id: int)
    requires InputsOk(strategy, events) && m <= n && EngineRun(cfg, strategy, start, events, n).Done?
    requires EngineRun(cfg, strategy, start, events, m).Done?
    requires CancelingOrCanceled(EngineRun(cfg, strategy, start, events, m).value, id)
    ensures CancelingOrCanceled(EngineRun(cfg, strategy, start, events, n).value, id)
    decreases n
  {
    hide InputsOk, EngineInv, Step, EngineHandlers, CancelingOrCanceled, Finished;
    if m < n {
      RunMonotone(cfg, strategy, start, events, n - 1, n);
      CancelingForever(cfg, strategy, start, events, m, n - 1, id);
      RunInvariant(cfg, strategy, start, events, n - 1);
      var before := EngineRun(cfg, strategy, start, events, n - 1).value;
      if !Finished(events, before) {
        CancelingStep(cfg, strategy, events, before, id);
      }
    }
  }

  /** With cancels configured, every order that rests at any point of a run that completes ends
      Canceled. */
  lemma {:induction false} RestedEndsCanceled<S(!new)>(cfg: EngineConfig, strategy: Strategy<S>, start: S,
      events: seq<MarketEvent>, m: nat, n: nat, id: int)
    requires InputsOk(strategy, events) && m <= n && cfg.cancelAfter.Some?
    requires EngineRun(cfg, strategy, start, events, n).Done?
    requires Finished(events, EngineRun(cfg, strategy, start, events, n).value)
    requires EngineRun(cfg, strategy, start, events, m).Done?
    requires var s := EngineRun(cfg, strategy, start, events, m).value;
      1 <= id <= |s.state.exec.orders| && IsResting(s.state.exec.orders[id - 1].status)
    ensures var t := EngineRun(cfg, strategy, start, events, n).value;
      id <= |t.state.exec.orders| && t.state.exec.orders[id - 1].status.Canceled?
  {
    hide InputsOk, EngineInv, EngineRun;
    RunInvariant(cfg, strategy, start, events, m);
    RestingHasCancel(cfg, events, EngineRun(cfg, strategy, start, events, m).value, id);
    CancelingForever(cfg, strategy, start, events, m, n, id);
  }

  /** When a run completes every order has arrived: none is New or Pending, market orders are settled,
      and limit orders rest only if no cancels are configured. */
  lemma {:induction false} CompletionSettles<S(!new)>(cfg: EngineConfig, strategy: Strategy<S>, start: S,
      events: seq<MarketEvent>, n: nat, id: int)
    requires InputsOk(strategy, events) && EngineRun(cfg, strategy, start, events, n).Done?
    requires Finished(events, EngineRun(cfg, strategy, start, events, n).value)
    requires 1 <= id <= |EngineRun(cfg, strategy, start, events, n).value.state.exec.orders|
    ensures var o := EngineRun(cfg, strategy, start, events, n).value.state.exec.orders[id - 1];
      && (IsTerminal(o.status) || (IsResting(o.status) && o.kind.Limit? && cfg.cancelAfter.None?))
      && IsPath(o.history) && o.history[|o.history| - 1] == o.status
  {
    hide InputsOk, EngineInv, EngineRun;
    RunInvariant(cfg, strategy, start, events, n);
    FinishedSettles(cfg, events, EngineRun(cfg, strategy, start, events, n).value, id);
  }

  lemma {:induction false} FinishedSettles<S>(cfg: EngineConfig, events: seq<MarketEvent>, s: Loop<Engine<S>>,
      id: int)
    requires EngineInv(cfg, events, s) && Finished(events, s) && 1 <= id <= |s.state.exec.orders|
    ensures var o := s.state.exec.orders[id - 1];
      && (IsTerminal(o.status) || (IsResting(o.status) && o.kind.Limit? && cfg.cancelAfter.None?))
      && IsPath(o.history) && o.history[|o.history| - 1] == o.status
  {
    hide LoopInv, AccountInv, FillTimes, ArrivedBehind, ActiveInv, FillsInv, NoneFilled, RequestsOk, DistinctEvents;
    assert OrderOk(s.state.exec.orders[id - 1]);
    assert !HasEvent(PendingOf(s.queue), ArrivalEvent(id)) && !HasEvent(PendingOf(s.queue), CancelEvent(id));
  }

  // ---- Fill times ----

  /** At every point of a run the fills are in time order, none is before its order's arrival, and none
      of a limit order is after its scheduled cancel. */
  lemma {:induction false} FillWindow<S(!new)>(cfg: EngineConfig, strategy: Strategy<S>, start: S,
      events: seq<MarketEvent>, n: nat)
    requires InputsOk(strategy, events) && EngineRun(cfg, strategy, start, events, n).Done?
    ensures var s := EngineRun(cfg, strategy, start, events, n).value;
      FillTimes(cfg, s.state.exec.orders, s.state.exec.fills, s.now)
  {
    hide InputsOk, EngineRun, LoopInv, ExecInv, QueueInv, AccountInv, FillTimes;
    RunInvariant(cfg, strategy, start, events, n);
  }

  /** Where fills come from: an arrival makes aggressive fills of its own order only, stamped exactly at
      the arrival time; a trade makes passive fills only, of resting orders, at their limit price, stamped
      with the trade and strictly after their arrival; no other event makes any. */
  predicate FillsOfStep<S>(cfg: EngineConfig, events: seq<MarketEvent>, s: Loop<Engine<S>>, t: Loop<Engine<S>>) {
    var e, f := s.state.exec, t.state.exec;
    && e.fills <= f.fills
    && forall k :: |e.fills| <= k < |f.fills| ==>
      && 1 <= f.fills[k].orderId <= |e.orders|
      && var o := e.orders[f.fills[k].orderId - 1];
      if MarketNext(events, s) then
        && events[s.next].Trade? && IsResting(o.status) && o.limit == Some(f.fills[k].price)
        && f.fills[k].timestamp == events[s.next].key.timestamp && o.arrival < f.fills[k].timestamp
        && InWindow(cfg, o, f.fills[k].timestamp)
      else
        && s.queue != [] && s.queue[Top(s.queue)].event == ArrivalEvent(o.id) && o.status.Pending?
        && f.fills[k].timestamp == o.arrival
  }

  lemma {:induction false} TradeFills<S(!new)>(cfg: EngineConfig, strategy: Strategy<S>, events: seq<MarketEvent>,
      s: Loop<Engine<S>>, book: Book)
    requires StrategyTyped(strategy) && EventsOk(events)
    requires EngineInv(cfg, events, s) && MarketNext(events, s)
    requires OnMarket(cfg, strategy, s.state, book, events[s.next]).Done?
    ensures var f := OnMarket(cfg, strategy, s.state, book, events[s.next]).value.state.exec;
      if events[s.next].BookUpdate? then f.fills == s.state.exec.fills
      else
        && s.state.exec.fills <= f.fills
        && PassiveFills(s.state.exec.orders, f.fills, |s.state.exec.fills|, events[s.next].key.timestamp)
  {
    hide LoopInv, ExecInv, QueueInv, AccountInv, FillTimes, ArrivedBehind, TradeResult, ApplyNewFills, EmitFrom;
    hide AllTyped, PassiveFills, Evolves, TradedOnly;
    var e := s.state;
    var event := events[s.next];
    if event.BookUpdate? {
      EmitAppends(Emission(e.exec, []), strategy.onBook(e.strategy, event, book).intents, 0, cfg.latency, event.key.timestamp);
    } else {
      TradeKeeps(ExecOf(cfg), e.exec, event);
      var exec := TradeResult(ExecOf(cfg), e.exec, event).value;
      EvolvesParts(e.exec, exec);
      EmitAppends(Emission(exec, []), strategy.onTrade(e.strategy, event, book).intents, 0, cfg.latency, event.key.timestamp);
    }
  }

  lemma {:induction false} StepFills<S(!new)>(cfg: EngineConfig, strategy: Strategy<S>, events: seq<MarketEvent>,
      s: Loop<Engine<S>>)
    requires InputsOk(strategy, events) && EngineInv(cfg, events, s) && !Finished(events, s)
    requires Step(events, EngineHandlers(cfg, strategy), s).Done?
    ensures FillsOfStep(cfg, events, s, Step(events, EngineHandlers(cfg, strategy), s).value)
  {
    hide SortedEvents, EventsOk, StrategyTyped, LoopInv, HandlerInv, OnMarket, OnArrival, CancelResult, Emit;
    InputsSorted(strategy, events);
    if MarketNext(events, s) {
      MarketFills(cfg, strategy, events, s);
    } else {
      InternalFills(cfg, strategy, events, s);
    }
  }

  lemma {:induction false} MarketFills<S(!new)>(cfg: EngineConfig, strategy: Strategy<S>, events: seq<MarketEvent>,
      s: Loop<Engine<S>>)
    requires InputsOk(strategy, events) && EngineInv(cfg, events, s) && MarketNext(events, s)
    requires Step(events, EngineHandlers(cfg, strategy), s).Done?
    ensures FillsOfStep(cfg, events, s, Step(events, EngineHandlers(cfg, strategy), s).value)
  {
    hide SortedEvents, EventsOk, StrategyTyped, LoopInv, ExecInv, QueueInv, AccountInv, FillTimes, ArrivedBehind;
    hide OnMarket, InWindow;
    var book := TakeMarket(events, s).value.book;
    TradeFills(cfg, strategy, events, s, book);
    MarketDue(events, s);
    var e := s.state.exec;
    var f := OnMarket(cfg, strategy, s.state, book, events[s.next]).value.state.exec;
    forall k | |e.fills| <= k < |f.fills|
      ensures e.orders[f.fills[k].orderId - 1].arrival < events[s.next].key.timestamp
      ensures InWindow(cfg, e.orders[f.fills[k].orderId - 1], events[s.next].key.timestamp)
    {
      RestingInWindow(cfg, events, s.next, s.now, PendingOf(s.queue), e, f.fills[k].orderId);
    }
  }

  lemma {:induction false} InternalFills<S(!new)>(cfg: EngineConfig, strategy: Strategy<S>, events: seq<MarketEvent>,
      s: Loop<Engine<S>>)
    requires InputsOk(strategy, events) && EngineInv(cfg, events, s) && s.queue != [] && !MarketNext(events, s)
    requires Step(events, EngineHandlers(cfg, strategy), s).Done?
    ensures FillsOfStep(cfg, events, s, Step(events, EngineHandlers(cfg, strategy), s).value)
  {
    hide SortedEvents, EventsOk, StrategyTyped, LoopInv, MidInv, NoneFilled, QueueInv, AccountInv, FillTimes;
    hide ArrivedBehind, MarketNext;
    hide ArrivalResult, CancelResult, ApplyNewFills, CancelRequest, Evolves, RemovedEntry, Emit;
    NextKind(cfg, events, s);
    BookIsOk(events, s);
    var event := s.queue[Top(s.queue)];
    if event.event.kind.OrderArrival? {
      ArrivalKeeps(ExecOf(cfg), s.state.exec, event, s.book);
      NewOrderId(s.state.exec, event.event.orderId.value - 1);
    } else {
      CancelKeeps(s.state.exec, event);
    }
  }

  /** At every step of every run: aggressive fills exactly at arrival, passive fills strictly after it
      and before the cancel. */
  lemma {:induction false} FillOrigins<S(!new)>(cfg: EngineConfig, strategy: Strategy<S>, start: S,
      events: seq<MarketEvent>, n: nat)
    requires InputsOk(strategy, events) && EngineRun(cfg, strategy, start, events, n + 1).Done?
    ensures EngineRun(cfg, strategy, start, events, n).Done?
    ensures var s := EngineRun(cfg, strategy, start, events, n).value;
      !Finished(events, s) ==> FillsOfStep(cfg, events, s, EngineRun(cfg, strategy, start, events, n + 1).value)
  {
    hide InputsOk, EngineInv, Step, EngineHandlers, FillsOfStep, Finished;
    RunMonotone(cfg, strategy, start, events, n, n + 1);
    RunInvariant(cfg, strategy, start, events, n);
    var s := EngineRun(cfg, strategy, start, events, n).value;
    if !Finished(events, s) {
      StepFills(cfg, strategy, events, s);
    }
  }

  // ---- Conservation ----

  /** The quantity filled over all orders of a side. */
  function FilledOn(orders: seq<Order>, side: Side): int {
    if orders == [] then 0
    else FilledOn(orders[..|orders| - 1], side) + if orders[|orders| - 1].side == side then orders[|orders| - 1].filled else 0
  }

  /** The same total, summed from fills. */
  function SumOn(orders: seq<Order>, fills: seq<Fill>, side: Side): int {
    if orders == [] then 0
    else
      SumOn(orders[..|orders| - 1], fills, side)
      + if orders[|orders| - 1].side == side then SumFor(fills, |orders|) else 0
  }

  lemma {:induction false} SumOnIsFilled(orders: seq<Order>, fills: seq<Fill>, side: Side)
    requires forall i :: 0 <= i < |orders| ==> SumFor(fills, i + 1) == orders[i].filled
    ensures SumOn(orders, fills, side) == FilledOn(orders, side)
  {
    if orders != [] {
      SumOnIsFilled(orders[..|orders| - 1], fills, side);
    }
  }

  /** One more fill adds its quantity on its own side. */
  lemma {:induction false} SumOnAppend(orders: seq<Order>, fills: seq<Fill>, fill: Fill, side: Side)
    requires 1 <= fill.orderId && (fill.orderId <= |orders| ==> orders[fill.orderId - 1].side == fill.side)
    ensures SumOn(orders, fills + [fill], side)
         == SumOn(orders, fills, side) + if fill.orderId <= |orders| && fill.side == side then fill.quantity else 0
  {
    assert (fills + [fill])[..|fills|] == fills;
    if orders != [] {
      SumOnAppend(orders[..|orders| - 1], fills, fill, side);
    }
  }

  lemma {:induction false} SumOnNothing(orders: seq<Order>, side: Side)
    ensures SumOn(orders, [], side) == 0
  {
    if orders != [] {
      SumOnNothing(orders[..|orders| - 1], side);
    }
  }

  lemma {:induction false} DealsMatchOrders(orders: seq<Order>, fills: seq<Fill>, side: Side)
    requires forall k :: 0 <= k < |fills| ==> 1 <= fills[k].orderId <= |orders| && orders[fills[k].orderId - 1].side == fills[k].side
    ensures Quantity(DealsOn(fills, side)) == SumOn(orders, fills, side)
  {
    if fills == [] {
      SumOnNothing(orders, side);
    } else {
      var init, last := fills[..|fills| - 1], fills[|fills| - 1];
      DealsMatchOrders(orders, init, side);
      assert fills == init + [last];
      SumOnAppend(orders, init, last, side);
      var deals := DealsOn(init, side);
      assert (deals + [Deal(last.price, last.quantity, last.fee)])[..|deals|] == deals;
      assert deals + [] == deals;
    }
  }

  lemma {:induction false} InventoryOfDeals(initialCash: int, fills: seq<Fill>)
    requires Replay(initialCash, fills).Done?
    ensures NetQuantity(Replay(initialCash, fills).value.lots) == Quantity(DealsOn(fills, Buy)) - Quantity(DealsOn(fills, Sell))
  {
    hide Replay, DealsOn, Quantity, UnitsOf, Units, TotalOf, NetQuantity, LotsOn, Pnl, Notional, FeesOf, DropUnits;
    hide LotsOf;
    FifoRefinesUnits(initialCash, fills);
    OpenUnits(initialCash, fills);
    var lots := Replay(initialCash, fills).value.lots;
    LotsOfDeals(DealsOn(fills, Buy), Buy);
    LotsOfDeals(DealsOn(fills, Sell), Sell);
    var side := if |UnitsOf(DealsOn(fills, Buy))| >= |UnitsOf(DealsOn(fills, Sell))| then Buy else Sell;
    UnitsTotal(lots, side);
    NetIsTotal(lots, side);
  }

  /** Whenever control is back in the loop: every order's filled quantity is the sum of its fills, fill
      ids are 1..n and each has been applied exactly once and in order, inventory is filled buys minus
      filled sells over all orders, and every emitted intent is a registered order. */
  lemma {:induction false} Conservation<S(!new)>(cfg: EngineConfig, strategy: Strategy<S>, start: S,
      events: seq<MarketEvent>, n: nat)
    requires InputsOk(strategy, events) && EngineRun(cfg, strategy, start, events, n).Done?
    ensures var e := EngineRun(cfg, strategy, start, events, n).value.state;
      && (forall i :: 0 <= i < |e.exec.orders| ==> SumFor(e.exec.fills, i + 1) == e.exec.orders[i].filled)
      && (forall k :: 0 <= k < |e.exec.fills| ==> e.exec.fills[k].sequence == k + 1)
      && e.account.applied == seq(|e.exec.fills|, i => i + 1)
      && NetQuantity(e.account.lots) == FilledOn(e.exec.orders, Buy) - FilledOn(e.exec.orders, Sell)
      && e.emitted == |e.exec.orders|
  {
    hide InputsOk, EngineRun, LoopInv, QueueInv, FillTimes, ArrivedBehind, OrdersInv, ActiveInv, NoneFilled;
    RunInvariant(cfg, strategy, start, events, n);
    var e := EngineRun(cfg, strategy, start, events, n).value.state;
    ConservationOf(cfg, e.exec, e.account, e.applied);
  }

  lemma {:induction false} ConservationOf(cfg: EngineConfig, e: Exec, account: Account, applied: nat)
    requires FillsInv(e.orders, e.fills) && AccountInv(cfg, account, applied, e.fills)
    ensures account.applied == seq(|e.fills|, i => i + 1)
    ensures NetQuantity(account.lots) == FilledOn(e.orders, Buy) - FilledOn(e.orders, Sell)
  {
    hide Replay;
    ReplayErrors(cfg.initialCash, e.fills);
    InventoryOfDeals(cfg.initialCash, e.fills);
    DealsMatchOrders(e.orders, e.fills, Buy);
    DealsMatchOrders(e.orders, e.fills, Sell);
    SumOnIsFilled(e.orders, e.fills, Buy);
    SumOnIsFilled(e.orders, e.fills, Sell);
  }
}
