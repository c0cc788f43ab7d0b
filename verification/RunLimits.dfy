/** Ordinary runs never overflow. */
module RunLimits {
  import opened Types
  import opened OrderBooks
  import opened Orders
  import opened Simulators
  import opened EventLoops
  import opened LoopTheorems
  import opened LatencyExecution
  import opened Registry
  import opened RegistrySteps
  import opened TradeAllocation
  import opened SweepTheorems
  import opened Portfolios
  import opened PortfolioTheorems
  import opened PortfolioLimits
  import opened ReplayEngines
  import opened PendingEvents
  import opened EngineInvariants
  import opened EngineTheorems
  import opened RunTheorems
  import opened RunOutcomes
  import opened FeeTheorems
  import opened StrategyRuns

  // ---- What is assumed to fit ----

  /** The quantity ordered over all orders. */
  function QuantityOrdered(orders: seq<Order>): int {
    if orders == [] then 0 else QuantityOrdered(orders[..|orders| - 1]) + orders[|orders| - 1].original
  }

  predicate EventsPriced(events: seq<MarketEvent>, top: int) {
    forall k :: 0 <= k < |events| ==> events[k].price <= top
  }

  predicate LimitsPriced(orders: seq<Order>, top: int) {
    forall i :: 0 <= i < |orders| && orders[i].limit.Some? ==> orders[i].limit.value <= top
  }

  predicate FillsPriced(fills: seq<Fill>, top: int) {
    forall k :: 0 <= k < |fills| ==> fills[k].price <= top
  }

  /** Everything ordered so far, twice at the highest price, fits 64 bits beside the initial cash: once for
      the trades and once for their fees. */
  predicate MoneyFits(cfg: EngineConfig, orders: seq<Order>, top: int) {
    && 0 <= top && QuantityOrdered(orders) <= INT64_MAX
    && Abs(cfg.initialCash) + 2 * (top * QuantityOrdered(orders)) <= INT64_MAX
  }

  // ---- QuantityOrdered quantities ----

  lemma {:induction false} OrderedBounds(orders: seq<Order>)
    requires forall i :: 0 <= i < |orders| ==> OrderOk(orders[i])
    ensures 0 <= QuantityOrdered(orders) && forall i :: 0 <= i < |orders| ==> orders[i].original <= QuantityOrdered(orders)
    ensures FilledOn(orders, Buy) + FilledOn(orders, Sell) <= QuantityOrdered(orders)
  {
    if orders != [] {
      var init := orders[..|orders| - 1];
      assert forall i :: 0 <= i < |init| ==> init[i] == orders[i];
      OrderedBounds(init);
    }
  }

  lemma {:induction false} OrderedSame(a: seq<Order>, b: seq<Order>)
    requires |a| == |b| && forall i :: 0 <= i < |a| ==> SameTerms(a[i], b[i])
    ensures QuantityOrdered(a) == QuantityOrdered(b)
  {
    if a != [] {
      OrderedSame(a[..|a| - 1], b[..|b| - 1]);
    }
  }

  lemma {:induction false} OrdersOfInv(e: Exec)
    requires MidInv(e)
    ensures forall i :: 0 <= i < |e.orders| ==> OrderOk(e.orders[i])
  {
  }

  // ---- Prices ----

  lemma {:induction false} ShownFromEvent(events: seq<MarketEvent>, side: Side, price: int)
    requires LastQuantity(events, side, price).Some?
    ensures exists k :: 0 <= k < |events| && events[k].price == price
  {
    var event := events[|events| - 1];
    if !(event.BookUpdate? && event.side == side && event.price == price) {
      ShownFromEvent(events[..|events| - 1], side, price);
      var k :| 0 <= k < |events| - 1 && events[..|events| - 1][k].price == price;
      assert events[k].price == price;
    } else {
      assert events[|events| - 1].price == price;
    }
  }

  lemma {:induction false} ListedIsShown(levels: seq<PriceLevel>, i: nat)
    requires i < |levels|
    ensures QuantityAt(levels, levels[i].price).Some?
  {
    if levels[0].price != levels[i].price {
      ListedIsShown(levels[1..], i - 1);
    }
  }

  predicate LevelsPriced(levels: seq<PriceLevel>, top: int) {
    forall i :: 0 <= i < |levels| ==> levels[i].price <= top
  }

  /** Every level of a folded book is at the price of some event. */
  lemma {:induction false} FoldPriced(events: seq<MarketEvent>, top: int, side: Side)
    requires EventsOk(events) && EventsPriced(events, top)
    ensures Fold(events).Done? && LevelsPriced(LevelsOf(Fold(events).value, side), top)
  {
    hide Fold, LastQuantity, QuantityAt;
    FoldMeaning(events, side, 0);
    var levels := LevelsOf(Fold(events).value, side);
    forall i | 0 <= i < |levels|
      ensures levels[i].price <= top
    {
      FoldMeaning(events, side, levels[i].price);
      ListedIsShown(levels, i);
      ShownFromEvent(events, side, levels[i].price);
    }
  }

  // ---- Fees never exceed what is traded ----

  lemma {:induction false} RateBound(ppm: int, notional: int)
    requires 0 <= ppm <= PPM && 0 <= notional
    ensures 0 <= RoundedRate(ppm, notional) <= notional
  {
    assert 0 <= notional * ppm <= notional * PPM;
  }

  lemma {:induction false} ProductBound(price: int, top: int, quantity: int, most: int)
    requires 0 <= price <= top && 0 <= quantity <= most
    ensures 0 <= price * quantity <= top * most
  {
    assert price * quantity <= top * quantity <= top * most;
  }

  lemma {:induction false} FillBounded(ppm: int, fill: Fill, top: int)
    requires 0 <= ppm <= PPM && ValidFill(fill) && fill.price <= top && Charged(ppm, fill)
    ensures fill.price * fill.quantity <= top * fill.quantity && fill.fee <= fill.price * fill.quantity
  {
    hide RoundedRate;
    ProductBound(fill.price, top, fill.quantity, fill.quantity);
    RateBound(ppm, fill.price * fill.quantity);
  }

  /** The totals of charged, priced fills. */
  lemma {:induction false} TotalsBounded(ppm: int, fills: seq<Fill>, top: int)
    requires 0 <= ppm <= PPM && ValidFills(fills) && FillsPriced(fills, top) && AllCharged(ppm, fills)
    ensures TotalNotional(fills) <= top * TotalQuantity(fills) && FeeTotal(fills) <= TotalNotional(fills)
  {
    hide Charged, ValidFill;
    if fills != [] {
      var init, last := fills[..|fills| - 1], fills[|fills| - 1];
      TotalsBounded(ppm, init, top);
      FillBounded(ppm, last, top);
      Distributes(top, TotalQuantity(init), last.quantity);
    }
  }

  lemma {:induction false} QuantitySplit(fills: seq<Fill>)
    ensures Quantity(DealsOn(fills, Buy)) + Quantity(DealsOn(fills, Sell)) == TotalQuantity(fills)
  {
    if fills != [] {
      var init, last := fills[..|fills| - 1], fills[|fills| - 1];
      QuantitySplit(init);
      QuantityAppend(DealsOn(init, last.side), Deal(last.price, last.quantity, last.fee), last.side);
      assert DealsOn(fills, Opposite(last.side)) == DealsOn(init, Opposite(last.side));
    }
  }

  lemma {:induction false} DealtIsFilled(orders: seq<Order>, fills: seq<Fill>)
    requires FillsInv(orders, fills)
    ensures TotalQuantity(fills) == FilledOn(orders, Buy) + FilledOn(orders, Sell)
    ensures ValidFills(fills) && DistinctSequences(fills)
  {
    QuantitySplit(fills);
    DealsMatchOrders(orders, fills, Buy);
    DealsMatchOrders(orders, fills, Sell);
    SumOnIsFilled(orders, fills, Buy);
    SumOnIsFilled(orders, fills, Sell);
  }

  /** All fills of a registry fit the account. */
  lemma {:induction false} FillsFitAccount(cfg: EngineConfig, e: Exec, top: int)
    requires MidInv(e) && MoneyFits(cfg, e.orders, top) && FillsPriced(e.fills, top) && AllCharged(cfg.feePpm, e.fills)
    ensures Replay(cfg.initialCash, e.fills).Done?
  {
    hide Replay, FillsPriced, AllCharged, OrderOk, ActiveInv, FillsInv, FilledOn, QuantityOrdered;
    hide TotalNotional, TotalQuantity, FeeTotal;
    OrdersOfInv(e);
    OrderedBounds(e.orders);
    DealtIsFilled(e.orders, e.fills);
    TotalsBounded(cfg.feePpm, e.fills, top);
    TotalsNonNegative(e.fills);
    ProductBound(top, top, TotalQuantity(e.fills), QuantityOrdered(e.orders));
    ReplayAccepted(cfg.initialCash, e.fills);
  }

  // ---- The handlers have room ----

  lemma {:induction false} NotionalFits(cfg: EngineConfig, orders: seq<Order>, top: int, price: int, quantity: int)
    requires MoneyFits(cfg, orders, top) && 0 <= price <= top && 0 <= quantity <= QuantityOrdered(orders)
    ensures RoundedRate(cfg.feePpm, price * quantity) <= INT64_MAX
  {
    hide RoundedRate, QuantityOrdered;
    ProductBound(price, top, quantity, QuantityOrdered(orders));
    RateBound(cfg.feePpm, price * quantity);
  }

  lemma {:induction false} EntryFits(cfg: EngineConfig, e: Exec, trade: MarketEvent, top: int, j: nat)
    requires ExecInv(e) && trade.Trade? && MoneyFits(cfg, e.orders, top) && LimitsPriced(e.orders, top)
    requires j < |e.active| && 1 <= e.active[j].id <= |e.orders|
    ensures EntryFeeFits(cfg.feePpm, e, j, trade)
  {
    hide MidInv, NoneFilled, RoundedRate, QuantityOrdered, Reaching, OrderOk;
    CapacityNonNegative(e, j, trade);
    EntryAgrees(e, j);
    OrdersOfInv(e);
    OrderedBounds(e.orders);
    var a, o := e.active[j], e.orders[e.active[j].id - 1];
    var filled := FilledAfter(o, a, trade, Reaching(e.orders, e.active[..j], trade)) - o.filled;
    OrderRemains(o);
    NotionalFits(cfg, e.orders, top, a.limit, filled);
  }

  lemma {:induction false} OrderRemains(o: Order)
    requires OrderOk(o)
    ensures 0 <= o.Remaining() <= o.original && (o.limit.Some? ==> 0 <= o.limit.value)
  {
  }

  lemma {:induction false} TradeFits(cfg: EngineConfig, e: Exec, trade: MarketEvent, top: int)
    requires ExecInv(e) && trade.Trade? && EventOk(trade) && MoneyFits(cfg, e.orders, top)
    requires LimitsPriced(e.orders, top)
    ensures TradeResult(ExecOf(cfg), e, trade).Done?
  {
    hide ExecInv, AllocateFrom, EntryFeeFits, MoneyFits, LimitsPriced;
    if trade.quantity != 0 && trade.aggressor.Some? {
      EntriesInRange(e);
      forall j | 0 <= j < |e.active|
        ensures EntryFeeFits(cfg.feePpm, e, j, trade)
      {
        EntryFits(cfg, e, trade, top, j);
      }
      TradeAccepted(ExecOf(cfg), e, trade);
    }
  }

  lemma {:induction false} GreedyFits(cfg: EngineConfig, orders: seq<Order>, top: int, o: Order,
      levels: seq<PriceLevel>)
    requires MoneyFits(cfg, orders, top) && LevelsOk(levels) && LevelsPriced(levels, top)
    requires 0 <= o.original <= QuantityOrdered(orders)
    ensures FeesFit(cfg.feePpm, Greedy(o.side, BoundOf(o), levels, o.original))
  {
    hide Greedy, RoundedRate, QuantityOrdered;
    var taken := Greedy(o.side, BoundOf(o), levels, o.original);
    GreedyLevels(o.side, BoundOf(o), levels, o.original);
    forall k | 0 <= k < |taken|
      ensures FeeFits(cfg.feePpm, taken[k])
    {
      NotionalFits(cfg, orders, top, taken[k].price, taken[k].quantity);
    }
  }

  lemma {:induction false} ArrivalFits(cfg: EngineConfig, e: Exec, event: Scheduled, book: Book, top: int)
    requires ExecInv(e) && BookOk(book) && ArrivalDue(e, event) && MoneyFits(cfg, e.orders, top)
    requires LevelsPriced(book.bids, top) && LevelsPriced(book.asks, top)
    ensures ArrivalResult(ExecOf(cfg), e, event, book).Done?
  {
    hide MidInv, NoneFilled, LimitArrival, OrderExecution, Greedy, FeesFit, MoneyFits, QuantityOrdered;
    hide OrderOk, LevelsOk;
    var id := event.event.orderId.value;
    FindInExec(e, id);
    OrdersOfInv(e);
    OrderedBounds(e.orders);
    var o := e.orders[id - 1];
    OriginalPositive(o);
    DepthOk(o.side, book);
    GreedyFits(cfg, e.orders, top, o, OppositeDepth(o.side, book));
    if o.kind.Limit? {
      LimitAccepted(ExecOf(cfg), e, o, book);
    } else {
      MarketAccepted(cfg.feePpm, o, book, e.nextFill);
    }
  }

  lemma {:induction false} OriginalPositive(o: Order)
    requires OrderOk(o)
    ensures 0 <= o.original
  {
  }

  /** Well-formed intents are all accepted when their arrival time fits. */
  lemma {:induction false} EmitAccepted(cfg: EngineConfig, pending: seq<Request>, e: Exec, em: Emission,
      intents: seq<Intent>, i: nat, now: int)
    requires Emitted(cfg, pending, e, em, now) && AllOk(intents, now) && i <= |intents|
    requires now + cfg.latency <= UINT64_MAX
    ensures EmitFrom(em, intents, i, cfg.latency, now).Done?
    decreases |intents| - i
  {
    hide Emitted, Submit, IntentTyped;
    if i < |intents| {
      assert IntentOk(intents[i], now);
      EmittedInv(cfg, pending, e, em, now);
      SubmitAccepted(em.exec, intents[i], cfg.latency, now);
      EmitOne(cfg, pending, e, em, intents[i], now);
      var s := Submit(em.exec, intents[i], cfg.latency, now).value;
      EmitAccepted(cfg, pending, e, Emission(s.exec, em.requests + [s.request]), intents, i + 1, now);
    }
  }

  lemma {:induction false} EmittedInv(cfg: EngineConfig, pending: seq<Request>, e: Exec, em: Emission, now: int)
    requires Emitted(cfg, pending, e, em, now)
    ensures ExecInv(em.exec)
  {
    hide ExecInv, Evolves, QueueInv;
  }

  lemma {:induction false} AccountFits(cfg: EngineConfig, account: Account, applied: nat, before: seq<Fill>, f: Exec,
      top: int)
    requires AccountInv(cfg, account, applied, before) && before <= f.fills && MidInv(f)
    requires MoneyFits(cfg, f.orders, top) && FillsPriced(f.fills, top) && AllCharged(cfg.feePpm, f.fills)
    ensures ApplyNewFills(account, f.fills, applied).Done?
  {
    hide MidInv, Replay, ApplyNewFills, MoneyFits, FillsPriced, AllCharged;
    assert f.fills[..applied] == before;
    ApplyContinues(cfg.initialCash, account, f.fills, applied);
    FillsFitAccount(cfg, f, top);
  }

  // ---- One event ----

  /** What the next event schedules still fits the clock. */
  predicate TimeFits<S>(cfg: EngineConfig, events: seq<MarketEvent>, s: Loop<Engine<S>>) {
    && (MarketNext(events, s) ==> events[s.next].key.timestamp + cfg.latency <= UINT64_MAX)
    && (s.queue != [] && s.queue[Top(s.queue)].event.kind.OrderArrival? && cfg.cancelAfter.Some? ==>
      s.queue[Top(s.queue)].timestamp + cfg.cancelAfter.value <= UINT64_MAX)
  }

  lemma {:induction false} PassivePriced(e: Exec, fills: seq<Fill>, time: int, top: int)
    requires e.fills <= fills && PassiveFills(e.orders, fills, |e.fills|, time)
    requires LimitsPriced(e.orders, top) && FillsPriced(e.fills, top)
    ensures FillsPriced(fills, top)
  {
    forall k | 0 <= k < |fills|
      ensures fills[k].price <= top
    {
      if k < |e.fills| {
        assert fills[k] == e.fills[k];
      } else {
        assert e.orders[fills[k].orderId - 1].limit == Some(fills[k].price);
      }
    }
  }

  lemma {:induction false} TradeHasRoom<S>(cfg: EngineConfig, strategy: Strategy<S>, e: Engine<S>, book: Book,
      event: MarketEvent,
      pending: seq<Request>, top: int)
    requires ExecInv(e.exec) && QueueInv(cfg, pending, e.exec.orders)
    requires AccountInv(cfg, e.account, e.applied, e.exec.fills)
    requires event.Trade? && EventOk(event) && event.key.timestamp + cfg.latency <= UINT64_MAX
    requires AllOk(strategy.onTrade(e.strategy, event, book).intents, event.key.timestamp)
    requires MoneyFits(cfg, e.exec.orders, top) && LimitsPriced(e.exec.orders, top)
    requires FillsPriced(e.exec.fills, top) && AllCharged(cfg.feePpm, e.exec.fills)
    ensures OnMarket(cfg, strategy, e, book, event).Done?
  {
    hide MidInv, NoneFilled, QueueInv, AccountInv, TradeResult, ApplyNewFills, EmitFrom, QuantityOrdered;
    hide LimitsPriced, FillsPriced, AllCharged;
    hide Evolves, TradedOnly, PassiveFills, AllOk, Emitted;
    var e0 := e.exec;
    TradeFits(cfg, e0, event, top);
    TradeKeeps(ExecOf(cfg), e0, event);
    TradeCharged(ExecOf(cfg), e0, event);
    var f := TradeResult(ExecOf(cfg), e0, event).value;
    EvolvesParts(e0, f);
    TradeKeepsCount(e0.orders, f.orders);
    OrderedSame(e0.orders, f.orders);
    PassivePriced(e0, f.fills, event.key.timestamp, top);
    AccountFits(cfg, e.account, e.applied, e0.fills, f, top);
    QueueAfterTrade(cfg, pending, e0.orders, f.orders);
    EmittedNothing(cfg, pending, f, event.key.timestamp);
    EmitAccepted(cfg, pending, f, Emission(f, []), strategy.onTrade(e.strategy, event, book).intents, 0, event.key.timestamp);
  }

  lemma {:induction false} BookHasRoom<S>(cfg: EngineConfig, strategy: Strategy<S>, e: Engine<S>, book: Book,
      event: MarketEvent,
      pending: seq<Request>)
    requires ExecInv(e.exec) && QueueInv(cfg, pending, e.exec.orders)
    requires event.BookUpdate? && event.key.timestamp + cfg.latency <= UINT64_MAX
    requires AllOk(strategy.onBook(e.strategy, event, book).intents, event.key.timestamp)
    ensures OnMarket(cfg, strategy, e, book, event).Done?
  {
    hide ExecInv, QueueInv, EmitFrom, AllOk, Emitted;
    EmittedNothing(cfg, pending, e.exec, event.key.timestamp);
    EmitAccepted(cfg, pending, e.exec, Emission(e.exec, []), strategy.onBook(e.strategy, event, book).intents, 0, event.key.timestamp);
  }

  lemma {:induction false} SweptPriced(e: Exec, o: Order, levels: seq<PriceLevel>, fills: seq<Fill>, top: int)
    requires OptimalSweep(o, BoundOf(o), levels, fills) && LevelsPriced(levels, top) && FillsPriced(e.fills, top)
    ensures FillsPriced(e.fills + fills, top)
  {
    forall k | 0 <= k < |e.fills| + |fills|
      ensures (e.fills + fills)[k].price <= top
    {
      if k >= |e.fills| {
        assert fills[k - |e.fills|].price == levels[k - |e.fills|].price;
      }
    }
  }

  lemma {:induction false} ArrivalHasRoom<S>(cfg: EngineConfig, e: Engine<S>, book: Book, event: Scheduled, top: int)
    requires ExecInv(e.exec) && AccountInv(cfg, e.account, e.applied, e.exec.fills)
    requires ArrivalDue(e.exec, event) && BookOk(book) && LevelsPriced(book.bids, top) && LevelsPriced(book.asks, top)
    requires cfg.cancelAfter.Some? ==> event.timestamp + cfg.cancelAfter.value <= UINT64_MAX
    requires MoneyFits(cfg, e.exec.orders, top) && FillsPriced(e.exec.fills, top)
    requires AllCharged(cfg.feePpm, e.exec.fills)
    ensures OnArrival(cfg, e, book, event).Done?
  {
    hide MidInv, NoneFilled, AccountInv, ArrivalResult, ApplyNewFills, CancelRequest, QuantityOrdered;
    hide LevelsPriced, FillsPriced, AllCharged;
    hide Evolves, SweptAt, RestsAfter, OptimalSweep, DepthFor, MarketStatuses, LimitStatuses, FilledAt, BookOk;
    var id := event.event.orderId.value;
    ArrivalFits(cfg, e.exec, event, book, top);
    ArrivalKeeps(ExecOf(cfg), e.exec, event, book);
    ArrivalCharged(ExecOf(cfg), e.exec, event, book);
    ArrivalResultLaw(ExecOf(cfg), e.exec, event, book);
    var a := ArrivalResult(ExecOf(cfg), e.exec, event, book).value;
    var o := e.exec.orders[id - 1];
    SweptPriced(e.exec, o, OppositeDepth(o.side, book), a.fills, top);
    EvolvesParts(e.exec, a.exec);
    OrderedSame(e.exec.orders, a.exec.orders);
    AccountFits(cfg, e.account, e.applied, e.exec.fills, a.exec, top);
    NewOrderId(a.exec, id - 1);
    if cfg.cancelAfter.Some? && IsActiveRestingOrder(a.order) {
      CancelRequestOk(a.exec, id, cfg.cancelAfter.value, event.timestamp);
    }
  }

  lemma {:induction false} PricedPrefix(events: seq<MarketEvent>, top: int, n: nat)
    requires EventsPriced(events, top) && EventsOk(events) && n <= |events|
    ensures EventsPriced(events[..n], top) && EventsOk(events[..n])
  {
  }

  lemma {:induction false} BookPriced<S>(cfg: EngineConfig, events: seq<MarketEvent>, s: Loop<Engine<S>>, top: int)
    requires EventsOk(events) && EngineInv(cfg, events, s) && EventsPriced(events, top)
    ensures LevelsPriced(s.book.bids, top) && LevelsPriced(s.book.asks, top) && BookOk(s.book)
  {
    hide OrderInv, OnceInv, HandlerInv, EventsPriced, EventsOk, Fold, LevelsPriced;
    BookIsOk(events, s);
    PricedPrefix(events, top, s.next);
    FoldPriced(events[..s.next], top, Buy);
    FoldPriced(events[..s.next], top, Sell);
  }

  /** What is assumed of a state before its next event. */
  predicate HasRoom<S>(cfg: EngineConfig, events: seq<MarketEvent>, s: Loop<Engine<S>>, top: int) {
    && LimitsPriced(s.state.exec.orders, top) && MoneyFits(cfg, s.state.exec.orders, top) && TimeFits(cfg, events, s)
  }

  lemma {:induction false} MarketStepFits<S(!new)>(cfg: EngineConfig, strategy: Strategy<S>, events: seq<MarketEvent>,
      s: Loop<Engine<S>>, top: int)
    requires SortedEvents(events) && EventsOk(events) && StrategyOk(strategy) && EngineInv(cfg, events, s)
    requires MarketNext(events, s)
    requires HasRoom(cfg, events, s, top)
    requires FillsPriced(s.state.exec.fills, top) && AllCharged(cfg.feePpm, s.state.exec.fills)
    ensures Step(events, EngineHandlers(cfg, strategy), s) != Threw(OverflowError)
  {
    hide LoopInv, ExecInv, QueueInv, AccountInv, FillTimes, ArrivedBehind, OnMarket, MoneyFits, LimitsPriced;
    hide FillsPriced, AllCharged;
    hide AllOk, SortedEvents;
    OnlyHandlersThrow(events, EngineHandlers(cfg, strategy), s);
    var book := TakeMarket(events, s).value.book;
    if events[s.next].Trade? {
      TradeHasRoom(cfg, strategy, s.state, book, events[s.next], PendingOf(s.queue), top);
    } else {
      BookHasRoom(cfg, strategy, s.state, book, events[s.next], PendingOf(s.queue));
    }
  }

  lemma {:induction false} InternalStepFits<S(!new)>(cfg: EngineConfig, strategy: Strategy<S>, events: seq<MarketEvent>,
      s: Loop<Engine<S>>, top: int)
    requires SortedEvents(events) && EventsOk(events) && EngineInv(cfg, events, s) && s.queue != []
    requires !MarketNext(events, s)
    requires EventsPriced(events, top) && HasRoom(cfg, events, s, top)
    requires FillsPriced(s.state.exec.fills, top) && AllCharged(cfg.feePpm, s.state.exec.fills)
    ensures Step(events, EngineHandlers(cfg, strategy), s) != Threw(OverflowError)
  {
    hide LoopInv, ExecInv, QueueInv, AccountInv, FillTimes, ArrivedBehind, OnArrival, CancelResult, MoneyFits;
    hide LimitsPriced;
    hide FillsPriced, AllCharged, EventsPriced, SortedEvents, EventsOk, LevelsPriced, BookOk, MarketNext, Emit;
    hide RequestOk;
    OnlyHandlersThrow(events, EngineHandlers(cfg, strategy), s);
    NextKind(cfg, events, s);
    BookPriced(cfg, events, s, top);
    var event := s.queue[Top(s.queue)];
    DueFromQueue(cfg, PendingOf(s.queue), Top(s.queue), s.state.exec, event);
    if event.event.kind.OrderArrival? {
      ArrivalHasRoom(cfg, s.state, s.book, event, top);
    } else {
      CancelKeeps(s.state.exec, event);
    }
  }

  /** One event of a state with room never overflows. */
  lemma {:induction false} StepFits<S(!new)>(cfg: EngineConfig, strategy: Strategy<S>, events: seq<MarketEvent>,
      s: Loop<Engine<S>>, top: int)
    requires InputsOk(strategy, events) && StrategyOk(strategy) && EngineInv(cfg, events, s) && !Finished(events, s)
    requires EventsPriced(events, top) && HasRoom(cfg, events, s, top)
    requires FillsPriced(s.state.exec.fills, top) && AllCharged(cfg.feePpm, s.state.exec.fills)
    ensures Step(events, EngineHandlers(cfg, strategy), s) != Threw(OverflowError)
  {
    hide InputsOk, StrategyOk, EngineInv, Step, EngineHandlers, HasRoom, EventsPriced, FillsPriced, AllCharged;
    InputsSorted(strategy, events);
    if MarketNext(events, s) {
      MarketStepFits(cfg, strategy, events, s, top);
    } else {
      InternalStepFits(cfg, strategy, events, s, top);
    }
  }

  // ---- Prices of a whole run ----

  lemma {:induction false} LimitsBefore(e: Exec, f: Exec, top: int)
    requires Evolves(e, f) && LimitsPriced(f.orders, top)
    ensures LimitsPriced(e.orders, top)
  {
    forall i | 0 <= i < |e.orders|
      ensures e.orders[i].limit == f.orders[i].limit
    {
      assert Evolved(e.orders[i], f.orders[i]);
    }
  }

  lemma {:induction false} StepPriced<S(!new)>(cfg: EngineConfig, strategy: Strategy<S>, events: seq<MarketEvent>,
      s: Loop<Engine<S>>, top: int)
    requires InputsOk(strategy, events) && EngineInv(cfg, events, s) && !Finished(events, s)
    requires EventsPriced(events, top)
    requires Step(events, EngineHandlers(cfg, strategy), s).Done?
    requires LimitsPriced(s.state.exec.orders, top) && FillsPriced(s.state.exec.fills, top)
    ensures FillsPriced(Step(events, EngineHandlers(cfg, strategy), s).value.state.exec.fills, top)
  {
    hide InputsOk, EngineInv, Step, EngineHandlers, EventsPriced, LevelsPriced, MarketNext, InWindow, BookOk;
    InputsSorted(strategy, events);
    BookPriced(cfg, events, s, top);
    StepFills(cfg, strategy, events, s);
    var e, f := s.state.exec, Step(events, EngineHandlers(cfg, strategy), s).value.state.exec;
    forall k | |e.fills| <= k < |f.fills|
      ensures f.fills[k].price <= top
    {
      var o := e.orders[f.fills[k].orderId - 1];
      if MarketNext(events, s) {
        assert o.limit == Some(f.fills[k].price);
      } else {
        StepArrival(cfg, strategy, events, s, o.id);
        SweptBound(cfg, e, f, o.id, s.book, k, top);
      }
    }
    assert forall k :: 0 <= k < |e.fills| ==> f.fills[k] == e.fills[k];
  }

  lemma {:induction false} SweptBound(cfg: EngineConfig, e: Exec, f: Exec, id: int, book: Book, k: nat, top: int)
    requires ArrivalStep(cfg.queuePpm, e, f, id, book) && LevelsPriced(book.bids, top) && LevelsPriced(book.asks, top)
    requires |e.fills| <= k < |f.fills|
    ensures f.fills[k].price <= top
  {
    hide MarketStatuses, LimitStatuses, FilledAt, EligibleDepth, RoundedRate;
    var levels := OppositeDepth(e.orders[id - 1].side, book);
    assert f.fills[|e.fills|..][k - |e.fills|] == f.fills[k];
    assert levels[k - |e.fills|].price <= top;
  }

  /** No fill of a run is above every price of the stream and every limit. */
  lemma {:induction false} RunPriced<S(!new)>(cfg: EngineConfig, strategy: Strategy<S>, start: S,
      events: seq<MarketEvent>,
      n: nat, top: int)
    requires InputsOk(strategy, events) && EventsPriced(events, top) && EngineRun(cfg, strategy, start, events, n).Done?
    requires LimitsPriced(EngineRun(cfg, strategy, start, events, n).value.state.exec.orders, top)
    ensures FillsPriced(EngineRun(cfg, strategy, start, events, n).value.state.exec.fills, top)
  {
    hide InputsOk, EventsPriced, LimitsPriced, EngineInv, Step, EngineHandlers, Finished, Evolves;
    if n > 0 {
      RunMonotone(cfg, strategy, start, events, n - 1, n);
      RunInvariant(cfg, strategy, start, events, n - 1);
      var before := EngineRun(cfg, strategy, start, events, n - 1).value;
      if !Finished(events, before) {
        EngineStep(cfg, strategy, events, before);
        LimitsBefore(before.state.exec, EngineRun(cfg, strategy, start, events, n).value.state.exec, top);
        RunPriced(cfg, strategy, start, events, n - 1, top);
        StepPriced(cfg, strategy, events, before, top);
      } else {
        RunPriced(cfg, strategy, start, events, n - 1, top);
      }
    }
  }

  // ---- Main results ----

  /** Overflow is never a surprise: as long as twice the quantity ordered so far at the highest price, beside
      the initial cash, fits 64 bits, and the next event's consequences fit the clock, the next event of any
      run does not overflow. */
  lemma {:induction false} NoOverflow<S(!new)>(cfg: EngineConfig, strategy: Strategy<S>, start: S,
      events: seq<MarketEvent>,
      n: nat, top: int)
    requires InputsOk(strategy, events) && StrategyOk(strategy) && EventsPriced(events, top)
    requires EngineRun(cfg, strategy, start, events, n).Done?
    requires HasRoom(cfg, events, EngineRun(cfg, strategy, start, events, n).value, top)
    ensures EngineRun(cfg, strategy, start, events, n + 1) != Threw(OverflowError)
  {
    hide InputsOk, StrategyOk, EventsPriced, EngineInv, Step, EngineHandlers, Finished, MoneyFits;
    hide LimitsPriced, TimeFits;
    hide FillsPriced, AllCharged;
    RunInvariant(cfg, strategy, start, events, n);
    RunPriced(cfg, strategy, start, events, n, top);
    RunCharged(cfg, strategy, start, events, n);
    var s := EngineRun(cfg, strategy, start, events, n).value;
    if !Finished(events, s) {
      StepFits(cfg, strategy, events, s, top);
    }
  }
}
