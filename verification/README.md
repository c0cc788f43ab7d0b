# Verified model of the market replay engine

This project models the single-threaded replay engine of `cpp-market-replay-engine` in Dafny and proves
what its documentation promises of it: deterministic event order, no look-ahead, latency-aware execution
with queue positions, FIFO accounting, exact tick conversion, and what a whole replay can and cannot do.

`dafny verify dfyconfig.toml` checks everything.

## How it is organized

Each component appears twice: as a `class` with the fields and loops of the C++ class, and as pure
functions over values. Every method of a class is proved to compute exactly the function, exceptions
included; the theorems are then about the functions and about runs of them. An exception is the `Threw`
case of `Outcome`; the failure operator `:-` propagates it.

| Files | Subject |
|---|---|
| `Types`, `OrderBooks`, `Orders`, `Simulators` | integer ranges, the visible book, order lifecycle, fees, fills and sweeps |
| `EventLoops`, `LoopTheorems` | the merge of a market stream with a queue that grows while it drains |
| `LatencyExecution`, `Registry`, `RegistrySteps` | the execution component and the invariant each handler keeps |
| `TradeAllocation`, `SweepTheorems`, `QueueMonotonicity` | what one trade, one arrival, and two configurations do |
| `Refusals` | when the calls of the execution component are refused |
| `Portfolios`, `PortfolioTheorems`, `PortfolioLimits` | FIFO lots, the accounting identity, when the arithmetic fits |
| `ReplayEngines`, `PendingEvents`, `EngineInvariants` | the handlers composed, and the invariant of a run |
| `EngineTheorems`, `RunTheorems`, `RunOutcomes`, `StrategyRuns`, `FeeTheorems` | results about all runs |
| `MonotoneRuns`, `LatencyPriority`, `RunLimits` | two runs compared, priority by id, runs that cannot overflow |
| `ScriptedStrategies`, `ScriptedLimits` | the scripted strategy and when its replays complete |
| `ReplayRuns`, `LateCancels` | the engine object, a run that aborts |
| `FeedMerge`, `Decimals` | feed acceptance and merge; decimal prices and ticks |

Run-level theorems speak about `EngineRun(cfg, strategy, start, events, n)`, the state after `n` events, for
every configuration, every strategy (an arbitrary function of its own state, the event and the book), every
stream and every `n`. `InputsOk` is what the feed parser, the merge and the integer types establish;
`StrategyOk` additionally says that intents are well formed and stamped with the current time.
`MergedFeedOk` and `ScriptedStrategyOk` show that the engine's own feeds and scripts satisfy both.

## Findings

* Not every replay completes. `docs/execution_model.md` says that canceling a filled order fails
  explicitly; the engine schedules a cancel for every resting order and does not guard its arrival, so an
  order that trades fill completely before its cancel arrives ends the whole run with an exception.
  `AbortsIffDoomed` proves that, overflow aside, this is the only way a run can fail; `AbortExample` is such
  a run.
* Overflow is characterised too: `SweepAccepted`, `TradeAccepted`, `FillAccepted` and `MarkAccepted` say
  exactly when one operation overflows, and `NoOverflow` that no event of a run does while twice the quantity
  ordered so far at the highest price fits 64 bits beside the initial cash. A scripted replay within such
  bounds completes if and only if no late cancel occurs (`ScriptedReplayCompletes`).
* Printing ticks and parsing the price back gives the same ticks if and only if the tick size has at most
  19 decimals in normal form (`RoundTrip`, `RoundTripFails`).
* A market order whose sweep takes nothing would be moved from Acknowledged to Rejected, which the
  transition table forbids; the depth of a reachable book is always positive, so no run gets there
  (`MarketTakesSomething`).

## Model

| member | source | states |
|---|---|---|
| OrderBooks.OrderBook.Apply | src/order_book.cpp:84-102 | an update changes one level of one side, or is refused and changes nothing |
| OrderBooks.OrderBook.TopLevels | src/order_book.cpp:17-31 | the loop returns exactly the best `maxLevels` levels, best first |
| OrderBooks.FoldMeaning | src/order_book.cpp:84-102 | folding any well-formed updates never throws, keeps both sides strictly sorted with positive quantities, and shows at each price what the last update naming it said |
| OrderBooks.BookDetermined | src/order_book.cpp:226-235 | streams that agree on the last update of every level end in one and the same book |
| OrderBooks.FoldAccepted | src/order_book.cpp:84-102 | a stream of updates is refused exactly when some price or quantity is negative, and for the first such |
| Orders.PathsListed | src/order.cpp:111-128 | the table allows exactly the beginnings of five status histories |
| Orders.MutableOrder.TransitionTo | src/order.cpp:94-101 | a transition follows the table and is recorded in the history, or nothing changes |
| Orders.MutableOrder.RecordFillQuantity | src/order.cpp:103-109 | a fill is positive and within the remainder, or nothing changes |
| Simulators.OrderFactory.CreateOrderFromIntent | src/execution_simulator.cpp:84-103 | the order carries the intent's terms and arrives one latency later; an id is consumed even when the order's own checks throw |
| Simulators.ExecutionSimulator.CreateFill | src/execution_simulator.cpp:191-211 | a fill or the exact exception; a fill id is consumed only by success |
| Simulators.ExecutionSimulator.ExecuteOrder | src/execution_simulator.cpp:132-139 | limit orders are rejected, market orders swept |
| Simulators.ExecutionSimulator.ExecuteMarketOrder | src/execution_simulator.cpp:141-185 | the in-place execution equals the specification, exceptions and fill ids included; `MarketSweep` and `MarketHistory` say what that is |
| Simulators.ExecutionSimulator.SweepMarket | src/execution_simulator.cpp:154-170 | the loop with its early exit equals the recursive sweep |
| Simulators.ExecutionSimulator.SettleMarketOrder | src/execution_simulator.cpp:172-182 | the in-place final transitions equal the specification; `MarketHistory` lists the statuses they append |
| Simulators.FillMeaning | src/execution_simulator.cpp:12-74 | the fee is the rate on the notional rounded to nearest; it is refused exactly when it exceeds 64 bits, so the 128-bit guard refuses nothing that fits |
| EventLoops.SimulationClock.AdvanceTo | src/simulation_clock.cpp:13-18 | the clock never moves backward |
| EventLoops.InternalEventScheduler.Schedule | src/event_loop.cpp:108-123 | an event gets the next sequence id, or is refused for the past without effect |
| EventLoops.Top | src/event_loop.cpp:100-106 | the top is least by timestamp, then sequence |
| EventLoops.InternalEventScheduler.PopNext | src/event_loop.cpp:136-143 | removes exactly the top |
| EventLoops.EventLoop.ScheduleInternal | src/event_loop.cpp:155-157 | scheduling is relative to the loop's clock |
| EventLoops.EventLoop.ShouldProcessMarketNext | src/event_loop.cpp:197-208 | the market goes first on equal timestamps |
| EventLoops.EventLoop.Advance | src/event_loop.cpp:163-190 | one iteration up to the handler: clock, book, trace and queue change as in the state machine |
| LoopTheorems.StepKeeps | src/event_loop.cpp:163-195 | whatever a handler schedules, an iteration keeps order, exactly-once bookkeeping and the book as a fold |
| LoopTheorems.TotalOrder | src/event_loop.cpp:100-208 | at every point of every run the trace is strictly increasing in timestamp, Market before Internal, sequence; on completion it holds every market event in input order and every scheduled event exactly once |
| LoopTheorems.NoLookAhead | src/event_loop.cpp:163-208 | an internal event at T sees the fold of exactly the updates up to T |
| LoopTheorems.NonInterference | src/event_loop.cpp:163-195 | the final book is the fold of the whole stream, whatever the handlers are |
| LatencyExecution.LatencyAwareExecution.FindOrderIndex | src/latency_execution.cpp:279-286 | the first order with the id, or the exception |
| LatencyExecution.LatencyAwareExecution.FindActiveLimitOrderIndex | src/latency_execution.cpp:288-295 | the first active entry with the id, or the exception |
| LatencyExecution.LatencyAwareExecution.SubmitOrderIntent | src/latency_execution.cpp:112-124 | a Pending order is registered and its arrival scheduled, or the exact exception is thrown |
| LatencyExecution.LatencyAwareExecution.RequestCancel | src/latency_execution.cpp:130-140 | a cancel of a resting order is scheduled one delay from now, or the exact exception |
| LatencyExecution.LatencyAwareExecution.ProcessOrderArrival | src/latency_execution.cpp:142-165 | registry, active list, fills and fill ids after an arrival equal the specification |
| LatencyExecution.LatencyAwareExecution.ProcessLimitOrderArrival | src/latency_execution.cpp:306-350 | sweep, final status, queue position and resting equal the specification |
| LatencyExecution.LatencyAwareExecution.SweepLimit | src/latency_execution.cpp:315-334 | the sweep loop stops at the limit and reports whether it filled there |
| LatencyExecution.LatencyAwareExecution.VisibleQuantityAtLimit | src/latency_execution.cpp:297-304 | the quantity the order's own side shows at its limit |
| LatencyExecution.LatencyAwareExecution.RestLimitOrder | src/latency_execution.cpp:352-365 | a resting order goes behind all others |
| LatencyExecution.LatencyAwareExecution.ProcessCancelArrival | src/latency_execution.cpp:167-178 | the order is Canceled and its entry erased, or the exact exception |
| LatencyExecution.LatencyAwareExecution.ProcessTrade | src/latency_execution.cpp:180-244 | the loop with early break, in-place queues and final removal equals the specification |
| LatencyExecution.LatencyAwareExecution.AllocateAt | src/latency_execution.cpp:187-232 | one iteration of the trade loop |
| LatencyExecution.LatencyAwareExecution.FillAt | src/latency_execution.cpp:215-231 | the passive fill of one order and its status |
| LatencyExecution.LatencyAwareExecution.RemoveTerminal | src/latency_execution.cpp:234-243 | the order-preserving removal of terminal entries |
| Registry.SweepKeeps | src/latency_execution.cpp:315-334 | every fill of a sweep is the order's own, numbered on, timed at arrival and within the limit; overflow is the only exception |
| Registry.LimitArrivalKeeps | src/latency_execution.cpp:306-365 | a limit arrival ends Filled, or rests as the last active entry with the order's terms; overflow is the only exception |
| Registry.MarketArrivalKeeps | src/execution_simulator.cpp:141-185 | a market arrival always ends in a terminal status |
| Registry.MarketTakesSomething | src/execution_simulator.cpp:154-175 | with positive depth a market sweep fills something, so Acknowledged to Rejected is never tried |
| RegistrySteps.SubmitKeeps | src/latency_execution.cpp:112-124 | submission keeps the registry invariant; a well-formed intent can only overflow |
| RegistrySteps.ArrivalKeeps | src/latency_execution.cpp:142-165 | an arrival keeps the registry invariant and moves only its own order forward |
| RegistrySteps.CancelKeeps | src/latency_execution.cpp:167-178 | a cancel succeeds exactly when its order rests, and removes exactly its entry |
| RegistrySteps.TradeKeeps | src/latency_execution.cpp:180-244 | a trade keeps the registry invariant; its fills are at the limit price, at its own time, of orders that rested |
| RegistrySteps.RetainedKeeps | src/latency_execution.cpp:234-243 | removal keeps exactly the resting entries |
| TradeAllocation.TradeClosedForm | src/latency_execution.cpp:180-244 | each order's fill and each queue follow in closed form from the volume the entries ahead leave over |
| TradeAllocation.GreedyAllocation | src/latency_execution.cpp:180-244 | the first k entries absorb exactly the smaller of the trade's volume and their total capacity |
| TradeAllocation.StrictPriority | src/latency_execution.cpp:187-232 | volume reaches an order only if every qualifying order registered before it ends Filled |
| TradeAllocation.OrderAfterTrade | src/latency_execution.cpp:53-71 | traded through, an order ignores its queue; at its limit it waits for it; otherwise it does not fill; quantity, status, history and queue afterwards follow exactly |
| TradeAllocation.TradeAccepted | src/latency_execution.cpp:180-244 | a trade throws exactly when the rounded fee of one of the fills it makes does not fit 64 bits |
| SweepTheorems.SweepIsGreedy | src/latency_execution.cpp:315-334 | both sweeps take the best levels first, each as far as needed |
| SweepTheorems.SweepAccepted | src/execution_simulator.cpp:191-211 | a sweep throws exactly when the rounded fee of one of its fills does not fit 64 bits |
| SweepTheorems.GreedyCheapest | src/execution_simulator.cpp:154-170 | no allocation of at least the same quantity over the eligible depth is cheaper for a buyer or dearer for a seller |
| SweepTheorems.LimitSweep | src/latency_execution.cpp:306-350 | a limit arrival fills the smaller of its quantity and the eligible depth, optimally, and rests if and only if that depth is exhausted first |
| SweepTheorems.MarketSweep | src/execution_simulator.cpp:141-185 | the same for market orders, with Filled, Canceled and Rejected decided by the depth |
| SweepTheorems.MarketHistory | src/execution_simulator.cpp:141-185 | a market arrival appends Rejected, or Acknowledged and Filled, or Acknowledged, PartiallyFilled and Canceled to the history, decided by the depth |
| SweepTheorems.LimitHistory | src/latency_execution.cpp:306-350 | a limit arrival appends Acknowledged, then Filled or PartiallyFilled, decided by the depth within its limit |
| SweepTheorems.LimitQueue | src/latency_execution.cpp:98-103 | a remainder rests at the front if it traded at its limit, else behind the rounded fraction of what its side shows, never farther back than that |
| Refusals.SubmitMeaning | src/latency_execution.cpp:112-124 | submission is accepted exactly for a positive quantity, a limit where one is due, and an arrival time that fits and is not past |
| Refusals.ArrivalMeaning | src/latency_execution.cpp:142-165 | an arrival is accepted exactly for a Pending order at its arrival time whose fees fit 64 bits |
| Refusals.ArrivalErrors | src/latency_execution.cpp:142-153 | which exception an arrival throws for an unknown order, one not Pending, and a wrong time |
| Refusals.ArrivesOnce | src/latency_execution.cpp:142-165 | after a handled arrival any other for the same order is refused |
| Refusals.CancelRequestMeaning | src/latency_execution.cpp:130-140 | a cancel can be requested exactly for a resting order and a delay that fits; otherwise which exception |
| Refusals.CancelsOnce | src/latency_execution.cpp:167-178 | a canceled order can neither be canceled again nor have another cancel requested |
| QueueMonotonicity.TradeSim | src/latency_execution.cpp:180-244 | through partial consumption, trade-through, early break and removal, a smaller fraction stays ahead in every queue and every fill |
| QueueMonotonicity.ArrivalSim | src/latency_execution.cpp:306-350 | an arrival has the same outcome under both fractions, at most farther back in the queue |
| QueueMonotonicity.CancelSim | src/latency_execution.cpp:167-178 | a cancel that succeeds under both fractions keeps them comparable |
| MonotoneRuns.LargerQueueFillsLess | src/latency_execution.cpp:98-244 | raising the queue fraction never raises the filled quantity of any order at any point both runs reach, with or without cancels |
| Portfolios.Portfolio.ApplyFill | src/portfolio.cpp:73-94 | all or nothing: the account of the specification, or its exception and no change; `FillAccepted` says when, `FifoRefinesUnits` what |
| Portfolios.Portfolio.AccountFor | src/portfolio.cpp:77-92 | the checked arithmetic on the copy equals the specification |
| Portfolios.Portfolio.ApplyLots | src/portfolio.cpp:191-225 | the in-place matching loops of both sides |
| Portfolios.Portfolio.IsDuplicate | src/portfolio.cpp:184-189 | whether a fill id has been applied |
| Portfolios.Portfolio.CurrentInventory | src/portfolio.cpp:104-114 | the signed sum of the lots, checked |
| Portfolios.Portfolio.RecordLedgerEntry | src/portfolio.cpp:227-238 | one line with cash, inventory and realized PnL |
| Portfolios.Portfolio.MarkToMarket | src/portfolio.cpp:140-170 | the accumulator loop and the checked totals |
| PortfolioTheorems.MatchExact | src/portfolio.cpp:191-225 | the matching loop drops exactly the first units and realizes the exit price against their cost |
| PortfolioTheorems.FifoRefinesUnits | src/portfolio.cpp:191-225 | after any accepted fills cash, fees, turnover, realized PnL and lots are functions of the two deal histories; PnL is the sum over k of k-th unit sold minus k-th unit bought |
| PortfolioTheorems.OpenUnits | src/portfolio.cpp:191-225 | the open lots expand to exactly the unmatched units, all on one side |
| PortfolioTheorems.InterleavingIrrelevant | src/portfolio.cpp:191-225 | two accepted interleavings of the same buys and sells end in the same account |
| PortfolioTheorems.CashBalance | src/portfolio.cpp:73-94 | cash plus open cost equals initial cash plus realized PnL minus fees, and lots are one-sided |
| PortfolioTheorems.EquityIdentity | src/portfolio.cpp:140-182 | every mark of every reachable account satisfies equity minus initial cash equals net PnL, doubled |
| PortfolioTheorems.MarkValue | src/portfolio.cpp:52-170 | equity is cash plus inventory at the midpoint, and unrealized PnL the open units at the midpoint minus their cost |
| PortfolioTheorems.MarkRefused | src/portfolio.cpp:59-144 | a mark is refused exactly when there are lots and no uncrossed two-sided book |
| PortfolioLimits.FillAccepted | src/portfolio.cpp:12-94 | a fill is booked exactly when it is valid, its id is new, and notional, both cash values, each realized step, fees, turnover and inventory fit 64 bits; otherwise which exception |
| PortfolioLimits.DuplicateRefused | src/portfolio.cpp:184-189 | a fill whose id has been applied is refused after any further fills |
| PortfolioLimits.NextFillAccepted | src/portfolio.cpp:73-94 | after any booked fills the next one is booked if and only if it is valid, new, and fits |
| PortfolioLimits.ReplayAccepted | src/portfolio.cpp:73-94 | valid fills with distinct ids are all booked when their notional, their fees and the initial cash together fit 64 bits, and their quantity does |
| PortfolioLimits.MarkAccepted | src/portfolio.cpp:140-170 | a mark overflows exactly when the inventory, the midpoint, an unrealized step, doubled cash, equity or net PnL does not fit 64 bits |
| PortfolioTheorems.LedgerRecordsHistory | src/portfolio.cpp:227-238 | ledger line i records the account after the first i + 1 fills |
| EngineInvariants.ApplyContinues | src/replay_engine.cpp:405-411 | applying new fills continues the replay of all fills |
| EngineInvariants.ReplayErrors | src/portfolio.cpp:184-189 | on fills numbered 1..n the duplicate check never fires and only overflow can throw |
| EngineInvariants.ArrivalHandled | src/replay_engine.cpp:787-795 | the arrival handler keeps the run invariant, schedules at most its own cancel, and can only overflow |
| EngineInvariants.TradeHandled | src/replay_engine.cpp:778-782 | the trade handler keeps the run invariant whatever the strategy emits |
| EngineInvariants.CancelHandled | src/replay_engine.cpp:796-799 | the cancel handler throws exactly when trades have filled the order |
| EngineTheorems.EngineStep | src/replay_engine.cpp:770-805 | one event keeps the run invariant or throws; for well-formed intents only by overflow or a late cancel |
| EngineTheorems.RunInvariant | src/replay_engine.cpp:741-805 | the invariant holds at every point of every run |
| EngineTheorems.MeasureDrops | src/event_loop.cpp:163-190 | every event lowers market events left, then twice the pending arrivals plus pending cancels |
| EngineTheorems.EngineTerminates | src/event_loop.cpp:163-195 | every run ends, although handlers schedule new events while it drains |
| EngineTheorems.CancelPersists | src/replay_engine.cpp:790-799 | a scheduled cancel stays scheduled until it is carried out |
| EngineTheorems.RunErrors | src/replay_engine.cpp:770-805 | the only exceptions of a run are overflow and the late cancel |
| EngineTheorems.AbortsIffDoomed | src/latency_execution.cpp:167-178 | overflow aside, a run aborts if and only if trades fill an order completely while its cancel is scheduled |
| EngineTheorems.NoCancelsNoAbort | src/replay_engine.cpp:790-793 | without configured cancels nothing but overflow stops a run |
| LateCancels.AbortExample | src/latency_execution.cpp:172-174 | a concrete well-formed replay that aborts on its fourth event |
| RunTheorems.RegistryBijection | src/latency_execution.cpp:142-365 | active entries are distinct, agree with their orders, and are in bijection with the resting limit orders; every history is a path of the table |
| RunTheorems.RestedEndsCanceled | src/replay_engine.cpp:790-799 | with cancels configured, every order that ever rests in a completed run ends Canceled |
| RunTheorems.CompletionSettles | src/replay_engine.cpp:807-811 | on completion every order is terminal, or a resting limit order if no cancels are configured |
| RunTheorems.FillWindow | src/latency_execution.cpp:142-244 | fills are in time order, none before its order's arrival nor after its cancel |
| RunTheorems.FillOrigins | src/latency_execution.cpp:142-244 | aggressive fills are stamped exactly at arrival; passive fills strictly after it, with the trade, at the limit; nothing else fills |
| RunOutcomes.ArrivalTakesBest | src/latency_execution.cpp:98-365 | in every run an arrival at T is filled as far and as well as the fold of exactly the updates up to T allows, passes through exactly the statuses that depth implies, and rests last, at the front of its queue or behind the configured fraction of what its side of that fold shows |
| RunOutcomes.TradeReaches | src/replay_engine.cpp:778-782 | in every run a trade changes quantity, status, history and queue of each resting order exactly as volume left over by the entries ahead implies, and nothing else |
| RunOutcomes.CancelCarriedOut | src/replay_engine.cpp:796-799 | in every run a cancel that succeeds makes its order Canceled, erases its entry, and changes nothing else |
| StrategyRuns.RunFollowsStrategy | src/replay_engine.cpp:772-805 | at every point of every run the strategy's state and the terms and arrival times of all orders are those of the strategy run alone on the stream processed so far and its book |
| FeeTheorems.FeesOfRun | src/execution_simulator.cpp:12-74 | at every point of every run each fill carries the configured rate on its notional, rounded to nearest, and the account's fees are their sum |
| RunLimits.NoOverflow | src/replay_engine.cpp:770-805 | for every strategy, while twice the quantity ordered so far at the highest price fits beside the initial cash, and the next times fit, the next event does not overflow |
| RunTheorems.Conservation | src/replay_engine.cpp:405-411 | filled quantities are sums of fills, fill ids are 1..n and applied once each, and inventory is filled buys minus filled sells |
| LatencyPriority.PriorityIsIdOrder | src/latency_execution.cpp:112-124 | with one latency and current stamps, the active registry is sorted by order id at every point of every run |
| LatencyPriority.ArrivalsInIdOrder | src/event_loop.cpp:100-123 | and arrivals are processed in order-id order |
| ScriptedStrategies.ScriptedReplayStrategy.EmitForKey | src/replay_engine.cpp:374-385 | the in-place flags loop emits, in script order, the side, quantity, type, limit and trigger time of each entry of the key that has not fired, and marks exactly those |
| ScriptedStrategies.ScriptedStrategyOk | src/replay_engine.cpp:189-220 | a parsed script only emits well-formed intents stamped with the current time |
| ScriptedStrategies.PlannedOnce | src/replay_engine.cpp:359-389 | the entries a stream triggers are each script entry once if its trigger occurs, else never |
| ScriptedStrategies.ScriptedOrders | src/replay_engine.cpp:359-389 | in every run the orders are, in order, one per triggered entry with that entry's side, quantity, type, limit and trigger time, whatever latency, queue, fees and cancels are |
| ScriptedLimits.ScriptedNeverOverflows | src/replay_engine.cpp:741-823 | a scripted replay whose whole script at the highest price fits 64 bits never overflows |
| ScriptedLimits.ScriptedReplayCompletes | src/replay_engine.cpp:741-823 | and it completes if and only if trades never fill an order completely while its cancel is scheduled |
| FeedMerge.AcceptFeed | src/market_feed.cpp:173-246 | the adjacent check accepts exactly the strictly increasing feeds and reports the first violation |
| FeedMerge.MergeEvents | src/replay_engine.cpp:324-341 | sort and scan equal the specification |
| FeedMerge.MergeMeaning | src/replay_engine.cpp:324-341 | two accepted feeds merge into a strictly increasing permutation of both, or are rejected exactly when they share a key |
| FeedMerge.IncreasingUnique | src/replay_engine.cpp:329-334 | that permutation is unique, so the sorting algorithm does not matter |
| FeedMerge.MergedFeedOk | src/replay_engine.cpp:324-341 | the merge delivers the stream the loop needs |
| ReplayRuns.CountOrderStatuses | src/replay_engine.cpp:418-430 | each of the four counts is the number of orders in its own status |
| ReplayRuns.ReplayEngine.ApplyFills | src/replay_engine.cpp:405-411 | every fill not yet applied is applied, in order |
| ReplayRuns.ReplayEngine.SubmitAll | src/replay_engine.cpp:343-351 | every intent becomes an order with a scheduled arrival, in order |
| ReplayRuns.ReplayEngine.HandleMarket | src/replay_engine.cpp:772-783 | the market handler on the mutable components equals the state machine's |
| ReplayRuns.ReplayEngine.HandleInternal | src/replay_engine.cpp:784-804 | likewise the internal handler |
| ReplayRuns.ReplayEngine.HandleArrival | src/replay_engine.cpp:787-795 | likewise its arrival branch |
| ReplayRuns.ReplayEngine.Iterate | src/event_loop.cpp:163-190 | one loop iteration with the engine's handlers is one step of the state machine |
| ReplayRuns.ReplayEngine.Replay | src/replay_engine.cpp:755-830 | the loop ends, with exactly the outcome of the state machine |
| ReplayRuns.ReplayEngine.Close | src/replay_engine.cpp:807-823 | the returned counts and mark |
| ReplayRuns.ReplayEngine.Run | src/replay_engine.cpp:741-823 | two accepted feeds are rejected for a shared key or replayed to the end |
| ReplayRuns.ResultUnique | src/replay_engine.cpp:741-823 | the result is a function of configuration, strategy and feeds |
| ReplayRuns.CountsCoverIntents | src/replay_engine.cpp:418-430 | each count is the number of orders in its status, and together they account for every intent of a completed run |
| ReplayRuns.CompletedReplay | src/replay_engine.cpp:807-823 | final book, trace, time, account and mark of a completed run, from the stream and the fills alone |
| Decimals.ParseNonNegativeDecimal | src/types.cpp:28-80 | both loops equal the specification, errors included |
| Decimals.ParseMeaning | src/types.cpp:28-80 | accepted is exactly an optional plus before digits with at most one point whose digits fit 64 bits; the result is the normal form of the number denoted |
| Decimals.Pow10 | src/types.cpp:82-91 | succeeds exactly up to exponent 19 |
| Decimals.FormatParses | src/types.cpp:100-114 | a formatted decimal parses back to the normal form of what was formatted |
| Decimals.FormatMeaning | src/types.cpp:100-114 | the printed text is the only one with exactly `scale` decimals, no superfluous leading zero, and the given digits |
| Decimals.ProductsFit | src/types.cpp:216-221 | neither product of the conversion exceeds 128 bits |
| Decimals.TicksExact | src/types.cpp:212-235 | conversion gives n exactly when the price is n ticks as an exact rational and the scales fit |
| Decimals.TicksRefused | src/types.cpp:212-235 | a conversion of two decimals fails for a scale beyond 19, a price that is no whole number of ticks, or too many ticks |
| Decimals.RoundTrip | src/types.cpp:212-245 | printing then parsing gives the ticks back if and only if the normal tick scale is at most 19 |
| Decimals.RoundTripFails | src/types.cpp:82-91 | a tick size of twenty decimals prints but does not parse |
| Decimals.PrintsBack | src/types.cpp:212-245 | parsing then printing gives the same number whenever the digits fit 64 bits |

## Left out

- File reading, CSV splitting and field parsing, configuration files, artifacts, the command line and the Python bindings: input and output only.
- FNV-1a hashes, run hashes and canonical texts: checksums of values that are modelled.
- `QueueImbalanceStrategy`: its signal is a floating-point ratio; the theorems hold for every strategy function instead.
- `run_latency_aware_strategy` (`src/latency_execution.cpp:372`): the same handlers without portfolio and configured cancels, a part of what the engine run covers.
- Strategies that throw: a strategy is a total function here.
- Callbacks: the source registers closures over the components with the loop; here the engine calls its handlers directly, and the loop object hands back the entry to dispatch. A loop without an order book is not modelled.
- The state of the execution component after an exception: the engine abandons the run, so only the exception is specified. The portfolio, which is transactional, is specified in full.
- `submissions` and `executions` records and label strings: written and never read; the trace carries the order id.
- A limit order without a limit price: its constructor refuses it, so the model checks for it once on arrival where the source would notice it inside the sweep.
- Decision and submit time of an order: always equal in the source, kept once. The check that an order id is not zero cannot fail, because ids start at one.
- Order, fill and sequence counters: unbounded here, no wrap-around at 2^64.
- `std::map`, `std::priority_queue` and `std::stable_sort`: modelled by what they return (in-order traversal, removal of the least entry, stable insertion), not by their algorithms.
- `Portfolio::cash_only_mark` and `OrderBook` getters such as spread and locked checks: pure one-liners; the first is covered as a function in `EquityIdentity`.
- Error messages and source line numbers of rejected feed rows: only which rule was broken is kept.
