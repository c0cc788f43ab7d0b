/** A run that aborts: not every replay completes. */
module LateCancels {
  import opened Types
  import opened OrderBooks
  import opened Orders
  import opened Simulators
  import opened EventLoops
  import opened LoopTheorems
  import opened LatencyExecution
  import opened Portfolios
  import opened ReplayEngines
  import opened ScriptedStrategies

  /** No latency, cancels 10 ns after arrival, an empty modelled queue, no fees. */
  const CONFIG: EngineConfig := RawConfig(0, Some(10), 0, 0, 0)

  /** One buy of 5 at 100, triggered by the first trade. */
  const SCRIPT: seq<ScriptedIntent> := [ScriptedIntent(EventKey(1, 1), Buy, Limit, 5, Some(100))]

  /** The second trade sells exactly 5 at 100. */
  const FIRST: MarketEvent := Trade(EventKey(1, 1), 100, 1, None)
  const SECOND: MarketEvent := Trade(EventKey(5, 2), 100, 5, Some(Sell))
  const FEED: seq<MarketEvent> := [FIRST, SECOND]

  const ARRIVAL: Scheduled := Scheduled(1, 0, ArrivalEvent(1))
  const CANCEL: Scheduled := Scheduled(11, 1, CancelEvent(1))
  const PENDING: Order := Order(1, Buy, Limit, 5, 0, 1, 1, Some(100), Pending, [New, Pending])
  const RESTING: Order := PENDING.(status := Acknowledged, history := [New, Pending, Acknowledged])
  const FILLED: Order := RESTING.(filled := 5, status := Filled, history := [New, Pending, Acknowledged, Filled])
  const FILL: Fill := Fill(1, Buy, 100, 5, 5, 1, 0)
  const PAID: Account := Account(0, -500, 0, 0, 500, [Lot(Buy, 5, 100)], [1], [LedgerEntry(FILL, -500, 5, 0)])

  const SUBMITTED: Loop<Engine<seq<bool>>> :=
    Loop(1, 1, [ARRIVAL], [ARRIVAL], EMPTY_BOOK, [MarketEntry(FIRST)],
         Engine(Exec([PENDING], [], [], 2, 1), OpenAccount(0), 0, [true], 1))

  const RESTED: Loop<Engine<seq<bool>>> :=
    Loop(1, 1, [CANCEL], [ARRIVAL, CANCEL], EMPTY_BOOK, [MarketEntry(FIRST), InternalEntry(ARRIVAL)],
         Engine(Exec([RESTING], [ActiveOrder(1, Buy, 100, 0, 1)], [], 2, 1), OpenAccount(0), 0, [true], 1))

  const TRADED: Loop<Engine<seq<bool>>> :=
    Loop(2, 5, [CANCEL], [ARRIVAL, CANCEL], EMPTY_BOOK, [MarketEntry(FIRST), InternalEntry(ARRIVAL), MarketEntry(SECOND)],
         Engine(Exec([FILLED], [], [FILL], 2, 2), PAID, 1, [true], 1))

  function Handlers(): Handlers<Engine<seq<bool>>> {
    EngineHandlers(CONFIG, Scripted(SCRIPT))
  }

  lemma {:induction false} FirstSubmitted()
    ensures Submit(EMPTY_EXEC, Intent(Buy, 5, Limit, Some(100), 1), 0, 1)
         == Done(Submitted(SUBMITTED.state.exec, Request(1, ArrivalEvent(1))))
  {
    assert [New] + [Pending] == [New, Pending];
    assert [] + [PENDING] == [PENDING];
  }

  lemma {:induction false} FirstTrade()
    ensures Step(FEED, Handlers(), Start(StartEngine(CONFIG, NoneEmitted(SCRIPT)))) == Done(SUBMITTED)
  {
    hide Submit;
    var e := StartEngine(CONFIG, NoneEmitted(SCRIPT));
    var decision := OnKey(SCRIPT, NoneEmitted(SCRIPT), FIRST.key);
    var intent := Intent(Buy, 5, Limit, Some(100), 1);
    assert decision.intents == [intent] && decision.state == [true];
    FirstSubmitted();
    var request := Request(1, ArrivalEvent(1));
    assert [] + [request] == [request];
    assert EmitFrom(Emission(EMPTY_EXEC, []), [intent], 1, 0, 1).Done?;
    assert EmitFrom(Emission(SUBMITTED.state.exec, [request]), [intent], 1, 0, 1) == Done(Emission(SUBMITTED.state.exec, [request]));
    assert EmitFrom(Emission(EMPTY_EXEC, []), [intent], 0, 0, 1) == Done(Emission(SUBMITTED.state.exec, [request]));
    assert OnMarket(CONFIG, Scripted(SCRIPT), e, EMPTY_BOOK, FIRST) == Done(Handled(SUBMITTED.state, [request]));
    assert [] + Stamped([request], 0) == [ARRIVAL];
    assert [] + [MarketEntry(FIRST)] == [MarketEntry(FIRST)];
    assert Start(e).trace == [] && Start(e).queue == [];
  }

  lemma {:induction false} Rests()
    ensures ArrivalResult(ExecOf(CONFIG), SUBMITTED.state.exec, ARRIVAL, EMPTY_BOOK) == Done(Arrived(RESTED.state.exec, RESTING, []))
  {
    assert [New, Pending] + [Acknowledged] == [New, Pending, Acknowledged];
    assert SweepFrom(0, [], Some(100), Sweep(RESTING, [], 1, false), 0) == Done(Sweep(RESTING, [], 1, false));
    assert QueueAhead(ExecOf(CONFIG), RESTING, EMPTY_BOOK) == Done(0);
    var entry := ActiveOrder(1, Buy, 100, 0, 1);
    assert [] + [entry] == [entry];
    var none: seq<Fill> := [];
    assert none + none == none && [PENDING][0 := RESTING] == [RESTING];
    assert LimitArrival(ExecOf(CONFIG), SUBMITTED.state.exec, PENDING, EMPTY_BOOK)
        == Done(Arrived(Exec([PENDING], [entry], [], 2, 1), RESTING, []));
  }

  lemma {:induction false} Arrives()
    ensures Step(FEED, Handlers(), SUBMITTED) == Done(RESTED)
  {
    hide ArrivalResult, EmitFrom;
    Rests();
    assert Top([ARRIVAL]) == 0 && [ARRIVAL][0].timestamp == 1 && FEED[1].key.timestamp == 5;
    assert RemoveAt([ARRIVAL], 0) == [];
    var request := Request(11, CancelEvent(1));
    assert CancelRequest(RESTED.state.exec, 1, 10, 1) == Done(request);
    assert OnArrival(CONFIG, SUBMITTED.state, EMPTY_BOOK, ARRIVAL) == Done(Handled(RESTED.state, [request]));
    assert [] + Stamped([request], 1) == [CANCEL];
    assert [ARRIVAL] + Stamped([request], 1) == [ARRIVAL, CANCEL];
    assert [MarketEntry(FIRST)] + [InternalEntry(ARRIVAL)] == [MarketEntry(FIRST), InternalEntry(ARRIVAL)];
  }

  const TAKEN: Exec := Exec([FILLED], [ActiveOrder(1, Buy, 100, 0, 1)], [FILL], 2, 2)

  lemma {:induction false} Settles()
    ensures RecordFill(RESTING, 5) == Done(RESTING.(filled := 5))
    ensures SettlePassive(RESTING.(filled := 5)) == Done(FILLED)
    ensures FillFor(0, RESTING, 100, 5, 5, 1) == Done(FILL)
  {
    assert [New, Pending, Acknowledged] + [Filled] == [New, Pending, Acknowledged, Filled];
  }

  lemma {:induction false} FillsWhole()
    ensures FillPassive(ExecOf(CONFIG), RESTED.state.exec, 0, 0, SECOND, 5) == Done(Allocation(TAKEN, 0))
  {
    hide RecordFill, SettlePassive, FillFor;
    Settles();
    var e := RESTED.state.exec;
    var none: seq<Fill> := [];
    assert none + [FILL] == [FILL] && [RESTING][0 := FILLED] == [FILLED];
    assert e.active[0 := e.active[0].(queue := 0)] == e.active;
  }

  lemma {:induction false} Fills()
    ensures TradeResult(ExecOf(CONFIG), RESTED.state.exec, SECOND) == Done(TRADED.state.exec)
  {
    hide FillPassive;
    var e := RESTED.state.exec;
    FillsWhole();
    assert e.active[0 := e.active[0].(queue := 0)] == e.active;
    assert ConsumeQueue(Allocation(e, 5), 0, SECOND) == Allocation(e, 5);
    assert AllocateOne(ExecOf(CONFIG), Allocation(e, 5), 0, SECOND) == Done(Allocation(TAKEN, 0));
    assert AllocateFrom(ExecOf(CONFIG), Allocation(e, 5), 0, SECOND) == Done(Allocation(TAKEN, 0));
    assert Retained([FILLED], []) == Done([]);
    assert TAKEN.active[..0] == [];
    assert Retained([FILLED], TAKEN.active) == Done([]);
  }

  lemma {:induction false} Pays()
    ensures ApplyNewFills(OpenAccount(0), [FILL], 0) == Done(PAID)
  {
    var lot := Lot(Buy, 5, 100);
    var none: seq<Lot> := [];
    assert none + [lot] == [lot];
    assert ApplyLot([], 0, FILL) == Done(Matching([lot], 0, 5));
    assert [lot][..0] == [] && NetQuantity([lot][..0]) == 0;
    assert NetQuantity([lot]) == 5;
    var ids: seq<int>, lines: seq<LedgerEntry> := [], [];
    assert ids + [1] == [1] && lines + [LedgerEntry(FILL, -500, 5, 0)] == [LedgerEntry(FILL, -500, 5, 0)];
    assert FillAccount(OpenAccount(0), FILL) == Done(PAID);
    assert ApplyNewFills(PAID, [FILL], 1) == Done(PAID);
  }

  lemma {:induction false} SecondTrade()
    ensures Step(FEED, Handlers(), RESTED) == Done(TRADED)
  {
    hide TradeResult, ApplyNewFills;
    Fills();
    Pays();
    assert Top([CANCEL]) == 0;
    var decision := OnKey(SCRIPT, [true], SECOND.key);
    assert decision.intents == [] && decision.state == [true];
    var requests: seq<Request> := [];
    assert OnMarket(CONFIG, Scripted(SCRIPT), RESTED.state, EMPTY_BOOK, SECOND) == Done(Handled(TRADED.state, requests));
    assert [CANCEL] + Stamped(requests, 2) == [CANCEL] && [ARRIVAL, CANCEL] + Stamped(requests, 2) == [ARRIVAL, CANCEL];
    assert [MarketEntry(FIRST), InternalEntry(ARRIVAL)] + [MarketEntry(SECOND)]
        == [MarketEntry(FIRST), InternalEntry(ARRIVAL), MarketEntry(SECOND)];
  }

  lemma {:induction false} CancelFails()
    ensures Step(FEED, Handlers(), TRADED) == Threw(InvalidArgument(NotResting))
  {
    assert Top([CANCEL]) == 0;
  }

  /** Not every replay completes: here a trade fills the order before its scheduled cancel arrives, and
      the fourth event aborts the run. */
  lemma {:induction false} AbortExample()
    ensures ScriptOk(SCRIPT) && SortedEvents(FEED) && EventsOk(FEED)
    ensures EngineRun(CONFIG, Scripted(SCRIPT), NoneEmitted(SCRIPT), FEED, 4) == Threw(InvalidArgument(NotResting))
  {
    hide Step, StartEngine;
    FirstTrade();
    Arrives();
    SecondTrade();
    CancelFails();
    var start := Start(StartEngine(CONFIG, NoneEmitted(SCRIPT)));
    assert Run(FEED, Handlers(), start, 0) == Done(start);
    assert Run(FEED, Handlers(), start, 1) == Done(SUBMITTED);
    assert Run(FEED, Handlers(), start, 2) == Done(RESTED);
    assert Run(FEED, Handlers(), start, 3) == Done(TRADED);
  }
}
