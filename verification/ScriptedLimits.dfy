/** Scripted replays within stated bounds: nothing overflows, and only a late cancel can abort them. */
module ScriptedLimits {
  import opened Types
  import opened OrderBooks
  import opened Orders
  import opened EventLoops
  import opened LoopTheorems
  import opened LatencyExecution
  import opened ReplayEngines
  import opened EngineInvariants
  import opened EngineTheorems
  import opened FeedMerge
  import opened ScriptedStrategies
  import opened PortfolioLimits
  import opened RunLimits

  /** The quantity ordered by all entries. */
  function ScriptQuantity(script: seq<ScriptedIntent>): int {
    if script == [] then 0 else ScriptQuantity(script[..|script| - 1]) + script[|script| - 1].quantity
  }

  predicate ScriptPriced(script: seq<ScriptedIntent>, top: int) {
    forall i :: 0 <= i < |script| && script[i].limit.Some? ==> script[i].limit.value <= top
  }

  /** The whole script, traded and charged at the highest price, fits 64 bits beside the initial cash. */
  predicate ScriptMoneyFits(cfg: EngineConfig, script: seq<ScriptedIntent>, top: int) {
    && 0 <= top && ScriptQuantity(script) <= INT64_MAX
    && Abs(cfg.initialCash) + 2 * (top * ScriptQuantity(script)) <= INT64_MAX
  }

  /** No event is later than `last`, and both delays after `last` fit the clock. */
  predicate StreamFits(cfg: EngineConfig, events: seq<MarketEvent>, last: int) {
    && (forall k :: 0 <= k < |events| ==> events[k].key.timestamp <= last)
    && last + cfg.latency + (if cfg.cancelAfter.Some? then cfg.cancelAfter.value else 0) <= UINT64_MAX
  }

  predicate ScriptedFits(cfg: EngineConfig, script: seq<ScriptedIntent>, events: seq<MarketEvent>, top: int,
      last: int) {
    && ScriptOk(script) && SortedEvents(events) && EventsOk(events)
    && EventsPriced(events, top) && ScriptPriced(script, top) && ScriptMoneyFits(cfg, script, top) && StreamFits(cfg, events, last)
  }

  // ---- The planned entries are part of the script ----

  lemma {:induction false} QuantityOfAll(a: seq<ScriptedIntent>, b: seq<ScriptedIntent>)
    ensures ScriptQuantity(a + b) == ScriptQuantity(a) + ScriptQuantity(b)
  {
    if b == [] {
      assert a + b == a;
    } else {
      QuantityOfAll(a, b[..|b| - 1]);
      assert (a + b)[..|a + b| - 1] == a + b[..|b| - 1];
    }
  }

  lemma {:induction false} QuantityOfOne(entry: ScriptedIntent)
    ensures ScriptQuantity([entry]) == entry.quantity
  {
    assert [entry][..0] == [];
  }

  lemma {:induction false} QuantityOfNone()
    ensures ScriptQuantity([]) == 0
  {
  }

  lemma {:induction false} SelectedMoreQuantity(script: seq<ScriptedIntent>, keys: set<EventKey>, key: EventKey)
    requires key !in keys
    ensures ScriptQuantity(Selected(script, keys + {key})) == ScriptQuantity(Selected(script, keys)) + ScriptQuantity(AllAt(script, key))
  {
    hide ScriptQuantity;
    QuantityOfNone();
    if script != [] {
      var more, before, added := Selected(script[1..], keys + {key}), Selected(script[1..], keys), AllAt(script[1..], key);
      SelectedMoreQuantity(script[1..], keys, key);
      QuantityOfOne(script[0]);
      QuantityOfAll([script[0]], more);
      QuantityOfAll([script[0]], before);
      QuantityOfAll([script[0]], added);
      assert [] + more == more && [] + before == before && [] + added == added;
    }
  }

  lemma {:induction false} SelectedWithin(script: seq<ScriptedIntent>, keys: set<EventKey>)
    requires ScriptOk(script)
    ensures 0 <= ScriptQuantity(Selected(script, keys)) <= ScriptQuantity(script)
  {
    hide ScriptQuantity;
    QuantityOfNone();
    if script != [] {
      SelectedWithin(script[1..], keys);
      QuantityOfOne(script[0]);
      QuantityOfAll([script[0]], Selected(script[1..], keys));
      QuantityOfAll([script[0]], script[1..]);
      assert [] + Selected(script[1..], keys) == Selected(script[1..], keys);
      assert script == [script[0]] + script[1..];
    }
  }

  /** As each entry is planned at most once, no more is planned than the script holds. */
  lemma {:induction false} PlannedQuantity(script: seq<ScriptedIntent>, events: seq<MarketEvent>)
    requires DistinctKeys(events)
    ensures ScriptQuantity(Planned(script, events)) == ScriptQuantity(Selected(script, Keys(events)))
  {
    hide DistinctKeys, ScriptQuantity;
    if events == [] {
      SelectedNone(script);
      assert Keys([]) == {};
    } else {
      var init, last := events[..|events| - 1], events[|events| - 1];
      assert events == init + [last];
      KeysAppend(init, last);
      PlannedQuantity(script, init);
      SelectedMoreQuantity(script, Keys(init), last.key);
      QuantityOfAll(Planned(script, init), AllAt(script, last.key));
    }
  }

  /** An entry within the bounds, triggered by time `last`. */
  predicate EntryFits(entry: ScriptedIntent, top: int, last: int) {
    entry.trigger.timestamp <= last && (entry.limit.Some? ==> entry.limit.value <= top)
  }

  predicate EntriesFit(entries: seq<ScriptedIntent>, top: int, last: int) {
    forall i :: 0 <= i < |entries| ==> EntryFits(entries[i], top, last)
  }

  lemma {:induction false} AllAtFit(script: seq<ScriptedIntent>, key: EventKey, top: int, last: int)
    requires ScriptPriced(script, top) && key.timestamp <= last
    ensures EntriesFit(AllAt(script, key), top, last)
  {
    if script != [] {
      AllAtFit(script[1..], key, top, last);
    }
  }

  lemma {:induction false} PlannedFit(cfg: EngineConfig, script: seq<ScriptedIntent>, events: seq<MarketEvent>,
      top: int, last: int)
    requires ScriptPriced(script, top) && StreamFits(cfg, events, last)
    ensures EntriesFit(Planned(script, events), top, last)
  {
    hide ScriptPriced;
    if events != [] {
      PlannedFit(cfg, script, events[..|events| - 1], top, last);
      AllAtFit(script, events[|events| - 1].key, top, last);
    }
  }

  // ---- Every state of a scripted run has room ----

  lemma {:induction false} OrderedIsPlanned(orders: seq<Order>, entries: seq<ScriptedIntent>, latency: int)
    requires OrdersFor(orders, entries, latency)
    ensures QuantityOrdered(orders) == ScriptQuantity(entries)
  {
    if orders != [] {
      OrderedIsPlanned(orders[..|orders| - 1], entries[..|entries| - 1], latency);
      assert OrderFor(orders[|orders| - 1], entries[|entries| - 1], latency);
    }
  }

  /** The registered orders of a scripted run. */
  predicate OrdersFit(cfg: EngineConfig, orders: seq<Order>, top: int, last: int) {
    && LimitsPriced(orders, top) && MoneyFits(cfg, orders, top)
    && forall i :: 0 <= i < |orders| ==> orders[i].arrival <= last + cfg.latency
  }

  lemma {:induction false} ScriptedOrdersFit(cfg: EngineConfig, script: seq<ScriptedIntent>, events: seq<MarketEvent>,
      orders: seq<Order>, next: nat, top: int, last: int)
    requires ScriptedFits(cfg, script, events, top, last) && next <= |events|
    requires OrdersFor(orders, Planned(script, events[..next]), cfg.latency)
    ensures OrdersFit(cfg, orders, top, last)
  {
    hide Planned, ScriptQuantity, QuantityOrdered, SortedEvents, EventsOk, EventsPriced;
    var entries := Planned(script, events[..next]);
    PrefixDistinct(events, next);
    PlannedQuantity(script, events[..next]);
    SelectedWithin(script, Keys(events[..next]));
    OrderedIsPlanned(orders, entries, cfg.latency);
    ProductBound(top, top, QuantityOrdered(orders), ScriptQuantity(script));
    PlannedFit(cfg, script, events[..next], top, last);
    forall i | 0 <= i < |orders|
      ensures orders[i].limit.Some? ==> orders[i].limit.value <= top
      ensures orders[i].arrival <= last + cfg.latency
    {
      assert OrderFor(orders[i], entries[i], cfg.latency) && EntryFits(entries[i], top, last);
    }
  }

  lemma {:induction false} TimesFit<S>(cfg: EngineConfig, events: seq<MarketEvent>, s: Loop<Engine<S>>, top: int,
      last: int)
    requires EngineInv(cfg, events, s) && OrdersFit(cfg, s.state.exec.orders, top, last)
    requires StreamFits(cfg, events, last)
    ensures HasRoom(cfg, events, s, top)
  {
    hide EngineInv, MoneyFits, LimitsPriced;
    if s.queue != [] {
      NextKind(cfg, events, s);
    }
  }

  // ---- Main results ----

  /** Within the bounds a scripted replay never overflows, whatever latency, queueing, fees and cancels do. */
  lemma {:induction false} ScriptedNeverOverflows(cfg: EngineConfig, script: seq<ScriptedIntent>,
      events: seq<MarketEvent>,
      top: int, last: int, n: nat)
    requires ScriptedFits(cfg, script, events, top, last)
    ensures EngineRun(cfg, Scripted(script), NoneEmitted(script), events, n) != Threw(OverflowError)
  {
    hide SortedEvents, EventsOk, StrategyTyped, StrategyOk, ScriptOk, Scripted, EventsPriced, ScriptPriced;
    hide ScriptMoneyFits;
    hide EngineInv, HasRoom, OrdersFit, OrdersFor, StreamFits, EngineRun;
    ScriptedStrategyOk(script);
    if n == 0 {
      NotThrownYet(cfg, script, events);
    } else {
      ScriptedNeverOverflows(cfg, script, events, top, last, n - 1);
      if EngineRun(cfg, Scripted(script), NoneEmitted(script), events, n - 1).Done? {
        var s := EngineRun(cfg, Scripted(script), NoneEmitted(script), events, n - 1).value;
        RunInvariant(cfg, Scripted(script), NoneEmitted(script), events, n - 1);
        ScriptedOrders(cfg, script, events, n - 1);
        ScriptedOrdersFit(cfg, script, events, s.state.exec.orders, s.next, top, last);
        TimesFit(cfg, events, s, top, last);
        NoOverflow(cfg, Scripted(script), NoneEmitted(script), events, n - 1, top);
      } else {
        StaysThrown(cfg, script, events, n - 1);
      }
    }
  }

  lemma {:induction false} NotThrownYet(cfg: EngineConfig, script: seq<ScriptedIntent>, events: seq<MarketEvent>)
    ensures EngineRun(cfg, Scripted(script), NoneEmitted(script), events, 0).Done?
  {
  }

  lemma {:induction false} StaysThrown(cfg: EngineConfig, script: seq<ScriptedIntent>, events: seq<MarketEvent>, n: nat)
    requires EngineRun(cfg, Scripted(script), NoneEmitted(script), events, n).Threw?
    ensures EngineRun(cfg, Scripted(script), NoneEmitted(script), events, n + 1)
         == EngineRun(cfg, Scripted(script), NoneEmitted(script), events, n)
  {
    hide Step;
  }

  /** Within the bounds every scripted replay ends, and it completes if and only if at no point an order has
      been filled completely by trades while its cancel is still scheduled. */
  lemma {:induction false} ScriptedReplayCompletes(cfg: EngineConfig, script: seq<ScriptedIntent>,
      events: seq<MarketEvent>,
      top: int, last: int)
    requires ScriptedFits(cfg, script, events, top, last)
    ensures exists n: nat :: Ended(events, EngineRun(cfg, Scripted(script), NoneEmitted(script), events, n))
    ensures forall n: nat :: Ended(events, EngineRun(cfg, Scripted(script), NoneEmitted(script), events, n)) ==>
      (EngineRun(cfg, Scripted(script), NoneEmitted(script), events, n).Done? <==> NeverDoomed(cfg, script, events, n))
  {
    hide SortedEvents, EventsOk, StrategyTyped, StrategyOk, ScriptOk, Scripted, EventsPriced, ScriptPriced;
    hide ScriptMoneyFits;
    hide StreamFits, EngineRun, Finished, Doomed;
    ScriptedStrategyOk(script);
    EngineTerminates(cfg, Scripted(script), NoneEmitted(script), events);
    forall n: nat | Ended(events, EngineRun(cfg, Scripted(script), NoneEmitted(script), events, n))
      ensures EngineRun(cfg, Scripted(script), NoneEmitted(script), events, n).Done? <==> NeverDoomed(cfg, script, events, n)
    {
      ScriptedNeverOverflows(cfg, script, events, top, last, n);
      AbortsIffDoomed(cfg, Scripted(script), NoneEmitted(script), events, n);
    }
  }

  predicate NeverDoomed(cfg: EngineConfig, script: seq<ScriptedIntent>, events: seq<MarketEvent>, n: nat) {
    forall k :: 0 <= k < n && EngineRun(cfg, Scripted(script), NoneEmitted(script), events, k).Done? ==>
      !Doomed(EngineRun(cfg, Scripted(script), NoneEmitted(script), events, k).value)
  }
}
