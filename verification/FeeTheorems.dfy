/** Every fill of every run is charged the configured rate, and the account adds the charges up. */
module FeeTheorems {
  import opened Types
  import opened OrderBooks
  import opened Orders
  import opened Simulators
  import opened EventLoops
  import opened LatencyExecution
  import opened Portfolios
  import opened PortfolioTheorems
  import opened PortfolioLimits
  import opened ReplayEngines
  import opened EngineInvariants
  import opened EngineTheorems

  /** The fee is the rate on the notional, rounded to the nearest unit. */
  predicate Charged(ppm: int, fill: Fill) {
    fill.fee == RoundedRate(ppm, fill.price * fill.quantity)
  }

  predicate AllCharged(ppm: int, fills: seq<Fill>) {
    forall k :: 0 <= k < |fills| ==> Charged(ppm, fills[k])
  }

  lemma {:induction false} FillCharged(ppm: int, order: Order, price: int, quantity: int, time: int, sequence: int)
    requires 0 <= ppm <= PPM && FillFor(ppm, order, price, quantity, time, sequence).Done?
    ensures Charged(ppm, FillFor(ppm, order, price, quantity, time, sequence).value)
  {
    GuardedRate(ppm, price * quantity);
  }

  lemma {:induction false} ChargedMore(ppm: int, fills: seq<Fill>, more: seq<Fill>)
    requires AllCharged(ppm, fills) && AllCharged(ppm, more)
    ensures AllCharged(ppm, fills + more)
  {
  }

  // ---- Sweeps ----

  lemma {:induction false} SweepCharged(ppm: int, levels: seq<PriceLevel>, bound: Option<int>, acc: Sweep, i: nat)
    requires 0 <= ppm <= PPM && i <= |levels| && AllCharged(ppm, acc.fills)
    requires SweepFrom(ppm, levels, bound, acc, i).Done?
    ensures AllCharged(ppm, SweepFrom(ppm, levels, bound, acc, i).value.fills)
    decreases |levels| - i
  {
    hide FillFor, Charged;
    if i < |levels| {
      if levels[i].quantity == 0 || acc.order.Remaining() == 0 {
        SweepCharged(ppm, levels, bound, acc, i + 1);
      } else if !(bound.Some? && !Allows(acc.order.side, bound.value, levels[i].price)) {
        var quantity := Min(acc.order.Remaining(), levels[i].quantity);
        FillCharged(ppm, acc.order, levels[i].price, quantity, acc.order.arrival, acc.nextFill);
        var next := SweepLevel(ppm, levels[i], bound, acc).value;
        if !(bound.None? && next.order.Remaining() == 0) {
          SweepCharged(ppm, levels, bound, next, i + 1);
        }
      }
    }
  }

  lemma {:induction false} ArrivalCharged(cfg: ExecConfig, e: Exec, event: Scheduled, book: Book)
    requires ConfigOk(cfg) && AllCharged(cfg.feePpm, e.fills) && ArrivalResult(cfg, e, event, book).Done?
    ensures AllCharged(cfg.feePpm, ArrivalResult(cfg, e, event, book).value.exec.fills)
  {
    hide AllCharged, SweepFrom, FindOrder, QueueAhead, Rest, SettleMarket;
    NothingCharged(cfg.feePpm);
    var index := FindOrder(e.orders, event.event.orderId.value, 0).value;
    var o := e.orders[index];
    var acknowledged := Transition(o, Acknowledged);
    if acknowledged.Done? {
      var bound := if o.kind.Limit? then o.limit else None;
      var start := Sweep(acknowledged.value, [], e.nextFill, false);
      if SweepFrom(cfg.feePpm, OppositeDepth(o.side, book), bound, start, 0).Done? {
        SweepCharged(cfg.feePpm, OppositeDepth(o.side, book), bound, start, 0);
      }
    }
    ChargedMore(cfg.feePpm, e.fills, ArrivalResult(cfg, e, event, book).value.fills);
  }

  lemma {:induction false} NothingCharged(ppm: int)
    ensures AllCharged(ppm, [])
  {
  }

  // ---- Trades ----

  lemma {:induction false} PassiveCharged(cfg: ExecConfig, e: Exec, i: nat, index: nat, trade: MarketEvent, left: int)
    requires ConfigOk(cfg) && trade.Trade? && i < |e.active| && index < |e.orders| && AllCharged(cfg.feePpm, e.fills)
    requires FillPassive(cfg, e, i, index, trade, left).Done?
    ensures AllCharged(cfg.feePpm, FillPassive(cfg, e, i, index, trade, left).value.exec.fills)
  {
    hide FillFor, Charged, RecordFill, SettlePassive;
    var quantity := Min(e.orders[index].Remaining(), left);
    if quantity != 0 {
      FillCharged(cfg.feePpm, e.orders[index], e.active[i].limit, quantity, trade.key.timestamp, e.nextFill);
    }
  }

  lemma {:induction false} AllocationCharged(cfg: ExecConfig, run: Allocation, i: nat, trade: MarketEvent)
    requires ConfigOk(cfg) && trade.Trade? && i <= |run.exec.active| && AllCharged(cfg.feePpm, run.exec.fills)
    requires AllocateFrom(cfg, run, i, trade).Done?
    ensures AllCharged(cfg.feePpm, AllocateFrom(cfg, run, i, trade).value.exec.fills)
    decreases |run.exec.active| - i
  {
    hide AllCharged, FillPassive, Qualifies, FindOrder;
    if i < |run.exec.active| && run.volume != 0 {
      var a := run.exec.active[i];
      if Qualifies(a, trade) && IsResting(run.exec.orders[FindOrder(run.exec.orders, a.id, 0).value].status) {
        var queued := ConsumeQueue(run, i, trade);
        if queued.volume != 0 && queued.exec.active[i].queue <= 0 {
          PassiveCharged(cfg, queued.exec, i, FindOrder(run.exec.orders, a.id, 0).value, trade, queued.volume);
        }
      }
      AllocationCharged(cfg, AllocateOne(cfg, run, i, trade).value, i + 1, trade);
    }
  }

  lemma {:induction false} TradeCharged(cfg: ExecConfig, e: Exec, trade: MarketEvent)
    requires ConfigOk(cfg) && trade.Trade? && AllCharged(cfg.feePpm, e.fills) && TradeResult(cfg, e, trade).Done?
    ensures AllCharged(cfg.feePpm, TradeResult(cfg, e, trade).value.fills)
  {
    hide AllCharged, AllocateFrom, Retained;
    if trade.quantity != 0 && trade.aggressor.Some? {
      AllocationCharged(cfg, Allocation(e, trade.quantity), 0, trade);
    }
  }

  // ---- Runs ----

  lemma {:induction false} MarketCharged<S>(cfg: EngineConfig, strategy: Strategy<S>, e: Engine<S>, book: Book,
      event: MarketEvent)
    requires AllCharged(cfg.feePpm, e.exec.fills) && OnMarket(cfg, strategy, e, book, event).Done?
    ensures AllCharged(cfg.feePpm, OnMarket(cfg, strategy, e, book, event).value.state.exec.fills)
  {
    hide AllCharged, TradeResult, ApplyNewFills, EmitFrom;
    if event.BookUpdate? {
      EmitAppends(Emission(e.exec, []), strategy.onBook(e.strategy, event, book).intents, 0, cfg.latency, event.key.timestamp);
    } else {
      TradeCharged(ExecOf(cfg), e.exec, event);
      var exec := TradeResult(ExecOf(cfg), e.exec, event).value;
      EmitAppends(Emission(exec, []), strategy.onTrade(e.strategy, event, book).intents, 0, cfg.latency, event.key.timestamp);
    }
  }

  lemma {:induction false} InternalCharged<S>(cfg: EngineConfig, strategy: Strategy<S>, e: Engine<S>, book: Book,
      event: Scheduled)
    requires AllCharged(cfg.feePpm, e.exec.fills) && OnInternal(cfg, strategy, e, book, event).Done?
    ensures AllCharged(cfg.feePpm, OnInternal(cfg, strategy, e, book, event).value.state.exec.fills)
  {
    hide AllCharged, ArrivalResult, ApplyNewFills, EmitFrom;
    match event.event.kind
    case OrderArrival =>
      ArrivalCharged(ExecOf(cfg), e.exec, event, book);
    case CancelArrival =>
    case Timer =>
      EmitAppends(Emission(e.exec, []), strategy.onTimer(e.strategy, event, book).intents, 0, cfg.latency, event.timestamp);
    case User =>
  }

  lemma {:induction false} StepCharged<S>(cfg: EngineConfig, strategy: Strategy<S>, events: seq<MarketEvent>,
      s: Loop<Engine<S>>)
    requires AllCharged(cfg.feePpm, s.state.exec.fills) && !Finished(events, s)
    requires Step(events, EngineHandlers(cfg, strategy), s).Done?
    ensures AllCharged(cfg.feePpm, Step(events, EngineHandlers(cfg, strategy), s).value.state.exec.fills)
  {
    hide AllCharged, OnMarket, OnInternal;
    if MarketNext(events, s) {
      MarketCharged(cfg, strategy, s.state, TakeMarket(events, s).value.book, events[s.next]);
    } else {
      InternalCharged(cfg, strategy, s.state, s.book, s.queue[Top(s.queue)]);
    }
  }

  lemma {:induction false} RunCharged<S>(cfg: EngineConfig, strategy: Strategy<S>, start: S,
      events: seq<MarketEvent>, n: nat)
    requires EngineRun(cfg, strategy, start, events, n).Done?
    ensures AllCharged(cfg.feePpm, EngineRun(cfg, strategy, start, events, n).value.state.exec.fills)
  {
    hide Step, EngineHandlers, Finished;
    if n > 0 {
      RunCharged(cfg, strategy, start, events, n - 1);
      var before := EngineRun(cfg, strategy, start, events, n - 1).value;
      if !Finished(events, before) {
        StepCharged(cfg, strategy, events, before);
      }
    }
  }

  /** At every point of every run each fill carries the configured rate on its notional, rounded to the
      nearest unit, and the account's fees are their sum. */
  lemma {:induction false} FeesOfRun<S(!new)>(cfg: EngineConfig, strategy: Strategy<S>, start: S,
      events: seq<MarketEvent>, n: nat)
    requires InputsOk(strategy, events) && EngineRun(cfg, strategy, start, events, n).Done?
    ensures var e := EngineRun(cfg, strategy, start, events, n).value.state;
      && (forall k :: 0 <= k < |e.exec.fills| ==>
        e.exec.fills[k].fee == RoundedRate(cfg.feePpm, e.exec.fills[k].price * e.exec.fills[k].quantity))
      && e.account.fees == FeeTotal(e.exec.fills)
  {
    hide InputsOk, EngineRun, EngineInv, FeeTotal, RoundedRate, Replay;
    RunCharged(cfg, strategy, start, events, n);
    RunInvariant(cfg, strategy, start, events, n);
    var s := EngineRun(cfg, strategy, start, events, n).value;
    AccountReplays(cfg, events, s);
    TotalsOfFills(cfg.initialCash, s.state.exec.fills);
  }
}
