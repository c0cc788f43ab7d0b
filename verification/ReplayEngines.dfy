/** The replay engine: how the event loop, execution, the portfolio and a strategy are composed
    (replay_engine.cpp). */
module ReplayEngines {
  import opened Types
  import opened OrderBooks
  import opened Orders
  import opened EventLoops
  import opened LatencyExecution
  import opened Portfolios

  datatype RawConfig = RawConfig(latency: int, cancelAfter: Option<int>, queuePpm: int, feePpm: int, initialCash: int)

  /** What `validate_replay_config` and the unsigned latency type establish. */
  predicate IsConfig(c: RawConfig) {
    && 0 <= c.latency <= UINT64_MAX
    && (c.cancelAfter.Some? ==> 0 <= c.cancelAfter.value <= UINT64_MAX)
    && 0 <= c.queuePpm <= PPM && 0 <= c.feePpm <= PPM
  }

  type EngineConfig = c: RawConfig | IsConfig(c) witness RawConfig(0, None, 0, 0, 0)

  function ExecOf(cfg: EngineConfig): (e: ExecConfig)
    ensures ConfigOk(e)
  {
    ExecConfig(cfg.latency, cfg.feePpm, cfg.queuePpm)
  }

  // ---- Strategies ----

  /** What a callback does: a new strategy state and the intents it emitted, in order. */
  datatype Decision<+S> = Decision(state: S, intents: seq<Intent>)

  /** A deterministic strategy. It sees its own state, the event and the book, never the execution. */
  datatype Strategy<!S> = Strategy(
    onBook: (S, MarketEvent, Book) -> Decision<S>,
    onTrade: (S, MarketEvent, Book) -> Decision<S>,
    onTimer: (S, Scheduled, Book) -> Decision<S>)

  // ---- Handlers ----

  /** The handlers' own state. */
  datatype Engine<+S> = Engine(exec: Exec, account: Account, applied: nat, strategy: S, emitted: nat)

  function StartEngine<S>(cfg: EngineConfig, strategy: S): Engine<S> {
    Engine(EMPTY_EXEC, OpenAccount(cfg.initialCash), 0, strategy, 0)
  }

  /** `apply_new_fills`: every fill from position `applied` on. */
  function ApplyNewFills(account: Account, fills: seq<Fill>, applied: nat): Outcome<Account>
    decreases |fills| - applied
  {
    if applied >= |fills| then Done(account)
    else
      var next :- FillAccount(account, fills[applied]);
      ApplyNewFills(next, fills, applied + 1)
  }

  /** Intents being submitted: the execution state so far and the arrivals requested. */
  datatype Emission = Emission(exec: Exec, requests: seq<Request>)

  function EmitFrom(em: Emission, intents: seq<Intent>, i: nat, latency: int, now: int): Outcome<Emission>
    requires i <= |intents|
    decreases |intents| - i
  {
    if i == |intents| then Done(em)
    else
      var s :- Submit(em.exec, intents[i], latency, now);
      EmitFrom(Emission(s.exec, em.requests + [s.request]), intents, i + 1, latency, now)
  }

  function Emit<S>(cfg: EngineConfig, e: Engine<S>, decision: Decision<S>, now: int): Outcome<Handled<Engine<S>>> {
    var em :- EmitFrom(Emission(e.exec, []), decision.intents, 0, cfg.latency, now);
    Done(Handled(e.(exec := em.exec, strategy := decision.state, emitted := e.emitted + |decision.intents|), em.requests))
  }

  function OnMarket<S>(cfg: EngineConfig, strategy: Strategy<S>, e: Engine<S>, book: Book,
      event: MarketEvent): Outcome<Handled<Engine<S>>> {
    if event.BookUpdate? then Emit(cfg, e, strategy.onBook(e.strategy, event, book), event.key.timestamp)
    else
      var exec :- TradeResult(ExecOf(cfg), e.exec, event);
      var account :- ApplyNewFills(e.account, exec.fills, e.applied);
      var after := e.(exec := exec, account := account, applied := Max(e.applied, |exec.fills|));
      Emit(cfg, after, strategy.onTrade(e.strategy, event, book), event.key.timestamp)
  }

  predicate IsActiveRestingOrder(order: Order) {
    order.kind.Limit? && IsResting(order.status)
  }

  function OnArrival<S>(cfg: EngineConfig, e: Engine<S>, book: Book, event: Scheduled): Outcome<Handled<Engine<S>>> {
    var arrived :- ArrivalResult(ExecOf(cfg), e.exec, event, book);
    var account :- ApplyNewFills(e.account, arrived.exec.fills, e.applied);
    var after := e.(exec := arrived.exec, account := account, applied := Max(e.applied, |arrived.exec.fills|));
    if cfg.cancelAfter.Some? && IsActiveRestingOrder(arrived.order) then
      var cancel :- CancelRequest(arrived.exec, arrived.order.id, cfg.cancelAfter.value, event.timestamp);
      Done(Handled(after, [cancel]))
    else Done(Handled(after, []))
  }

  function OnInternal<S>(cfg: EngineConfig, strategy: Strategy<S>, e: Engine<S>, book: Book,
      event: Scheduled): Outcome<Handled<Engine<S>>> {
    match event.event.kind
    case OrderArrival => OnArrival(cfg, e, book, event)
    case CancelArrival =>
      var exec :- CancelResult(e.exec, event);
      Done(Handled(e.(exec := exec), []))
    case Timer => Emit(cfg, e, strategy.onTimer(e.strategy, event, book), event.timestamp)
    case User => Done(Handled(e, []))
  }

  function EngineHandlers<S>(cfg: EngineConfig, strategy: Strategy<S>): Handlers<Engine<S>> {
    Handlers((e, book, event) => OnMarket(cfg, strategy, e, book, event),
             (e, book, event) => OnInternal(cfg, strategy, e, book, event))
  }

  /** The state of an engine run after `n` events. */
  function EngineRun<S>(cfg: EngineConfig, strategy: Strategy<S>, start: S, events: seq<MarketEvent>,
      n: nat): Outcome<Loop<Engine<S>>> {
    Run(events, EngineHandlers(cfg, strategy), Start(StartEngine(cfg, start)), n)
  }
}
