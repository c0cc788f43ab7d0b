/** The scripted strategy of replay_engine.cpp: intents triggered by event keys, each at most once. */
module ScriptedStrategies {
  import opened Types
  import opened OrderBooks
  import opened Orders
  import opened EventLoops
  import opened LoopTheorems
  import opened LatencyExecution
  import opened ReplayEngines
  import opened EngineInvariants
  import opened StrategyRuns
  import opened FeedMerge

  datatype ScriptedIntent = ScriptedIntent(trigger: EventKey, side: Side, kind: OrderType, quantity: int, limit: Option<int>)

  function IntentOf(entry: ScriptedIntent): Intent {
    Intent(entry.side, entry.quantity, entry.kind, entry.limit, entry.trigger.timestamp)
  }

  /** What `parse_scripted_intent` guarantees of an entry. */
  predicate EntryOk(entry: ScriptedIntent) {
    && IsTime(entry.trigger.timestamp) && 0 < entry.quantity <= INT64_MAX
    && (entry.kind.Limit? <==> entry.limit.Some?)
    && (entry.limit.Some? ==> IsAmount(entry.limit.value))
  }

  predicate ScriptOk(script: seq<ScriptedIntent>) {
    forall i :: 0 <= i < |script| ==> EntryOk(script[i])
  }

  // ---- The strategy as a function ----

  predicate HasFired(flags: seq<bool>, i: nat) {
    i < |flags| && flags[i]
  }

  /** The entries from `i` on that fire on `key`, given the flags of those that have fired. */
  function DueFrom(script: seq<ScriptedIntent>, flags: seq<bool>, key: EventKey, i: nat): seq<Intent>
    requires i <= |script|
    decreases |script| - i
  {
    if i == |script| then []
    else if !HasFired(flags, i) && script[i].trigger == key then [IntentOf(script[i])] + DueFrom(script, flags, key, i + 1)
    else DueFrom(script, flags, key, i + 1)
  }

  function FlagsAfter(script: seq<ScriptedIntent>, flags: seq<bool>, key: EventKey): seq<bool> {
    seq(|script|, i requires 0 <= i < |script| => HasFired(flags, i) || script[i].trigger == key)
  }

  function OnKey(script: seq<ScriptedIntent>, flags: seq<bool>, key: EventKey): Decision<seq<bool>> {
    Decision(FlagsAfter(script, flags, key), DueFrom(script, flags, key, 0))
  }

  function Scripted(script: seq<ScriptedIntent>): Strategy<seq<bool>> {
    Strategy((flags, event: MarketEvent, book) => OnKey(script, flags, event.key),
             (flags, event: MarketEvent, book) => OnKey(script, flags, event.key),
             (flags, event, book) => Decision(flags, []))
  }

  function NoneEmitted(script: seq<ScriptedIntent>): seq<bool> {
    seq(|script|, _ => false)
  }

  // ---- What the intents are, entry by entry ----

  /** An intent carries the fields of its script entry and the trigger's time. */
  predicate IntentFor(intent: Intent, entry: ScriptedIntent) {
    && intent.side == entry.side && intent.quantity == entry.quantity && intent.kind == entry.kind
    && intent.limit == entry.limit && intent.decision == entry.trigger.timestamp
  }

  predicate IntentsFor(intents: seq<Intent>, entries: seq<ScriptedIntent>) {
    |intents| == |entries| && forall k :: 0 <= k < |intents| ==> IntentFor(intents[k], entries[k])
  }

  /** The entries of `key` that have not fired yet, in script order. */
  function Waiting(script: seq<ScriptedIntent>, flags: seq<bool>, key: EventKey, i: nat): seq<ScriptedIntent>
    requires i <= |script|
    decreases |script| - i
  {
    if i == |script| then []
    else if !HasFired(flags, i) && script[i].trigger == key then [script[i]] + Waiting(script, flags, key, i + 1)
    else Waiting(script, flags, key, i + 1)
  }

  lemma {:induction false} DueForWaiting(script: seq<ScriptedIntent>, flags: seq<bool>, key: EventKey, i: nat)
    requires i <= |script|
    ensures IntentsFor(DueFrom(script, flags, key, i), Waiting(script, flags, key, i))
    decreases |script| - i
  {
    if i < |script| {
      DueForWaiting(script, flags, key, i + 1);
    }
  }

  // ---- The strategy as an object ----

  class ScriptedReplayStrategy {
    const script: seq<ScriptedIntent>
    const emitted: array<bool>

    constructor (script: seq<ScriptedIntent>)
      ensures this.script == script && emitted.Length == |script| && fresh(emitted)
      ensures emitted[..] == NoneEmitted(script)
    {
      this.script := script;
      emitted := new bool[|script|](_ => false);
      new;
      assert emitted[..] == NoneEmitted(script);
    }

    method EmitForKey(key: EventKey) returns (intents: seq<Intent>)
      requires emitted.Length == |script|
      modifies emitted
      ensures Decision(emitted[..], intents) == OnKey(script, old(emitted[..]), key)
      ensures IntentsFor(intents, Waiting(script, old(emitted[..]), key, 0))
      ensures forall i :: 0 <= i < |script| ==> emitted[i] == (old(emitted[i]) || script[i].trigger == key)
    {
      intents := [];
      ghost var was := emitted[..];
      ghost var goal := DueFrom(script, was, key, 0);
      var index := 0;
      while index < |script|
        invariant 0 <= index <= |script|
        invariant goal == intents + DueFrom(script, was, key, index)
        invariant forall i :: 0 <= i < index ==> emitted[i] == (was[i] || script[i].trigger == key)
        invariant forall i :: index <= i < |script| ==> emitted[i] == was[i]
      {
        if !emitted[index] && script[index].trigger == key {
          emitted[index] := true;
          intents := intents + [IntentOf(script[index])];
        }
        index := index + 1;
      }
      assert emitted[..] == FlagsAfter(script, was, key);
      DueForWaiting(script, was, key, 0);
    }
  }

  // ---- The assumptions of the engine theorems hold ----

  lemma {:induction false} DueOk(script: seq<ScriptedIntent>, flags: seq<bool>, key: EventKey, i: nat)
    requires ScriptOk(script) && i <= |script|
    ensures AllOk(DueFrom(script, flags, key, i), key.timestamp)
    decreases |script| - i
  {
    if i < |script| {
      DueOk(script, flags, key, i + 1);
    }
  }

  /** A parsed script is a strategy that emits well-formed intents stamped with the current time. */
  lemma {:induction false} ScriptedStrategyOk(script: seq<ScriptedIntent>)
    requires ScriptOk(script)
    ensures StrategyOk(Scripted(script)) && StrategyTyped(Scripted(script))
  {
    forall flags, key: EventKey
      ensures AllOk(OnKey(script, flags, key).intents, key.timestamp) && AllTyped(OnKey(script, flags, key).intents)
    {
      DueOk(script, flags, key, 0);
    }
  }

  // ---- Exactly once ----

  /** Every entry triggered by `key`, in script order. */
  function AllAt(script: seq<ScriptedIntent>, key: EventKey): seq<ScriptedIntent> {
    if script == [] then [] else (if script[0].trigger == key then [script[0]] else []) + AllAt(script[1..], key)
  }

  /** The entries a stream triggers: by event, then in script order. */
  function Planned(script: seq<ScriptedIntent>, events: seq<MarketEvent>): seq<ScriptedIntent> {
    if events == [] then [] else Planned(script, events[..|events| - 1]) + AllAt(script, events[|events| - 1].key)
  }

  /** The entries whose trigger is among `keys`, in script order. */
  function Selected(script: seq<ScriptedIntent>, keys: set<EventKey>): seq<ScriptedIntent> {
    if script == [] then [] else (if script[0].trigger in keys then [script[0]] else []) + Selected(script[1..], keys)
  }

  lemma {:induction false} SelectedMore(script: seq<ScriptedIntent>, keys: set<EventKey>, key: EventKey)
    requires key !in keys
    ensures multiset(Selected(script, keys + {key})) == multiset(Selected(script, keys)) + multiset(AllAt(script, key))
  {
    if script != [] {
      SelectedMore(script[1..], keys, key);
    }
  }

  lemma {:induction false} SelectedNone(script: seq<ScriptedIntent>)
    ensures Selected(script, {}) == []
  {
    if script != [] {
      SelectedNone(script[1..]);
    }
  }

  /** Each script entry is planned exactly once if its trigger occurs in the stream, else never. */
  lemma {:induction false} PlannedOnce(script: seq<ScriptedIntent>, events: seq<MarketEvent>)
    requires DistinctKeys(events)
    ensures multiset(Planned(script, events)) == multiset(Selected(script, Keys(events)))
  {
    hide DistinctKeys;
    if events == [] {
      SelectedNone(script);
      assert Keys([]) == {};
    } else {
      var init, last := events[..|events| - 1], events[|events| - 1];
      assert events == init + [last];
      KeysAppend(init, last);
      PlannedOnce(script, init);
      SelectedMore(script, Keys(init), last.key);
    }
  }

  // ---- The strategy on a whole stream ----

  /** The flags after a stream: which triggers have occurred. */
  predicate FlagsOf(script: seq<ScriptedIntent>, events: seq<MarketEvent>, flags: seq<bool>) {
    |flags| == |script| && forall i :: 0 <= i < |script| ==> (flags[i] <==> script[i].trigger in Keys(events))
  }

  lemma {:induction false} WaitingIsAllAt(script: seq<ScriptedIntent>, flags: seq<bool>, key: EventKey, i: nat)
    requires i <= |script| && forall k :: i <= k < |script| && script[k].trigger == key ==> !HasFired(flags, k)
    ensures Waiting(script, flags, key, i) == AllAt(script[i..], key)
    decreases |script| - i
  {
    if i < |script| {
      WaitingIsAllAt(script, flags, key, i + 1);
      assert script[i..][1..] == script[i + 1..];
    }
  }

  /** An event with a new key fires every entry waiting for it, and records that. */
  lemma {:induction false} NewKey(script: seq<ScriptedIntent>, events: seq<MarketEvent>, flags: seq<bool>,
      event: MarketEvent)
    requires FlagsOf(script, events, flags) && event.key !in Keys(events)
    ensures IntentsFor(OnKey(script, flags, event.key).intents, AllAt(script, event.key))
    ensures FlagsOf(script, events + [event], OnKey(script, flags, event.key).state)
  {
    KeysAppend(events, event);
    WaitingIsAllAt(script, flags, event.key, 0);
    DueForWaiting(script, flags, event.key, 0);
    assert script[0..] == script;
  }

  lemma {:induction false} IntentsForBoth(a: seq<Intent>, b: seq<Intent>, x: seq<ScriptedIntent>,
      y: seq<ScriptedIntent>)
    requires IntentsFor(a, x) && IntentsFor(b, y)
    ensures IntentsFor(a + b, x + y)
  {
  }

  /** On a stream with distinct keys the scripted strategy emits exactly the planned entries. */
  lemma {:induction false} EmitsPlanned(script: seq<ScriptedIntent>, events: seq<MarketEvent>)
    requires DistinctKeys(events)
    ensures FlagsOf(script, events, StrategyAfter(Scripted(script), NoneEmitted(script), events))
    ensures IntentsFor(IntentsOf(Scripted(script), NoneEmitted(script), events), Planned(script, events))
  {
    hide FlagsOf, DistinctKeys, OnKey, IntentsFor;
    if events == [] {
      NothingEmitted(script);
    } else {
      var init, last := events[..|events| - 1], events[|events| - 1];
      assert events == init + [last];
      KeysAppend(init, last);
      EmitsPlanned(script, init);
      var flags := StrategyAfter(Scripted(script), NoneEmitted(script), init);
      NewKey(script, init, flags, last);
      assert Reaction(Scripted(script), NoneEmitted(script), events) == OnKey(script, flags, last.key);
      IntentsForBoth(IntentsOf(Scripted(script), NoneEmitted(script), init), OnKey(script, flags, last.key).intents,
        Planned(script, init), AllAt(script, last.key));
    }
  }

  lemma {:induction false} NothingEmitted(script: seq<ScriptedIntent>)
    ensures FlagsOf(script, [], NoneEmitted(script)) && IntentsFor([], [])
  {
  }

  // ---- Runs ----

  /** The order of a script entry: the entry's own fields, submitted when the trigger occurs. */
  predicate OrderFor(o: Order, entry: ScriptedIntent, latency: int) {
    && o.side == entry.side && o.original == entry.quantity && o.kind == entry.kind && o.limit == entry.limit
    && o.submit == entry.trigger.timestamp && o.arrival == entry.trigger.timestamp + latency
  }

  predicate OrdersFor(orders: seq<Order>, entries: seq<ScriptedIntent>, latency: int) {
    |orders| == |entries| && forall i :: 0 <= i < |orders| ==> OrderFor(orders[i], entries[i], latency)
  }

  lemma {:induction false} PrefixDistinct(events: seq<MarketEvent>, n: nat)
    requires SortedEvents(events) && n <= |events|
    ensures DistinctKeys(events[..n])
  {
  }

  lemma {:induction false} EntriesOfIntents(orders: seq<Order>, intents: seq<Intent>, entries: seq<ScriptedIntent>,
      latency: int)
    requires OrdersFrom(orders, intents, latency) && IntentsFor(intents, entries)
    ensures OrdersFor(orders, entries, latency)
  {
    forall i | 0 <= i < |orders|
      ensures OrderFor(orders[i], entries[i], latency)
    {
      assert MadeFrom(orders[i], intents[i], latency) && IntentFor(intents[i], entries[i]);
    }
  }

  /** At every point of every run the registered orders are, in order, one for each script entry whose
      trigger has occurred, with the entry's side, quantity, type and limit, submitted at the trigger: none
      is missed, none is submitted twice, and neither latency, queueing, fees nor cancels has any say in it. */
  lemma {:induction false} ScriptedOrders(cfg: EngineConfig, script: seq<ScriptedIntent>, events: seq<MarketEvent>,
      n: nat)
    requires ScriptOk(script) && SortedEvents(events) && EventsOk(events)
    requires EngineRun(cfg, Scripted(script), NoneEmitted(script), events, n).Done?
    ensures var s := EngineRun(cfg, Scripted(script), NoneEmitted(script), events, n).value;
      s.next <= |events| && OrdersFor(s.state.exec.orders, Planned(script, events[..s.next]), cfg.latency)
  {
    hide SortedEvents, EventsOk, StrategyTyped, StrategyOk, ScriptOk, EngineRun, Scripted, OrdersFrom;
    hide OrdersFor, IntentsFor;
    hide StrategyAfter, IntentsOf;
    ScriptedStrategyOk(script);
    RunFollowsStrategy(cfg, Scripted(script), NoneEmitted(script), events, n);
    var s := EngineRun(cfg, Scripted(script), NoneEmitted(script), events, n).value;
    PrefixDistinct(events, s.next);
    EmitsPlanned(script, events[..s.next]);
    EntriesOfIntents(s.state.exec.orders, IntentsOf(Scripted(script), NoneEmitted(script), events[..s.next]),
      Planned(script, events[..s.next]), cfg.latency);
  }
}
