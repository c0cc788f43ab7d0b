/** Accepting two ordered feeds (market_feed.cpp) and merging them (replay_engine.cpp). */
module FeedMerge {
  import opened Types
  import opened OrderBooks
  import opened LoopTheorems

  predicate StrictlyIncreasing(events: seq<MarketEvent>) {
    forall i, j :: 0 <= i < j < |events| ==> KeyLess(events[i].key, events[j].key)
  }

  /** Row `i` is the first one out of order, and `error` says how. */
  predicate RejectedAt(rows: seq<MarketEvent>, i: nat, error: Error) {
    && 0 < i < |rows| && StrictlyIncreasing(rows[..i]) && !KeyLess(rows[i - 1].key, rows[i].key)
    && error == InvalidArgument(if rows[i - 1].key == rows[i].key then DuplicateKey else OutOfOrderKey)
  }

  lemma {:induction false} OneMore(events: seq<MarketEvent>, event: MarketEvent)
    requires StrictlyIncreasing(events) && (events != [] ==> KeyLess(events[|events| - 1].key, event.key))
    ensures StrictlyIncreasing(events + [event])
  {
    forall i | 0 <= i < |events|
      ensures KeyLess(events[i].key, event.key)
    {
      assert i < |events| - 1 ==> KeyLess(events[i].key, events[|events| - 1].key);
    }
  }

  /** `validate_source_order`: it looks at the last two accepted events only. */
  function ValidateSourceOrder(events: seq<MarketEvent>): Outcome<()> {
    if |events| < 2 then Done(())
    else
      var previous, current := events[|events| - 2].key, events[|events| - 1].key;
      if KeyLess(previous, current) then Done(())
      else Threw(InvalidArgument(if previous == current then DuplicateKey else OutOfOrderKey))
  }

  /** The accumulation loop of `parse_csv` over parsed rows: adjacent checks accept exactly the feeds
      that are strictly increasing throughout. */
  method AcceptFeed(rows: seq<MarketEvent>) returns (result: Outcome<seq<MarketEvent>>)
    ensures result.Done? <==> StrictlyIncreasing(rows)
    ensures result.Done? ==> result.value == rows
    ensures result.Threw? ==> exists i :: RejectedAt(rows, i, result.error)
  {
    var events := [];
    var i := 0;
    while i < |rows|
      invariant 0 <= i <= |rows| && events == rows[..i]
      invariant StrictlyIncreasing(events)
    {
      var before := events;
      events := events + [rows[i]];
      var ordered := ValidateSourceOrder(events);
      if ordered.Threw? {
        assert RejectedAt(rows, i, ordered.error);
        return Threw(ordered.error);
      }
      OneMore(before, rows[i]);
      i := i + 1;
    }
    assert rows[..i] == rows;
    return Done(events);
  }

  // ---- Merging ----

  /** The comparator handed to the sort. */
  predicate MergeLess(a: MarketEvent, b: MarketEvent) {
    if a.key == b.key then a.BookUpdate? && b.Trade? else KeyLess(a.key, b.key)
  }

  /** `event` goes behind everything that is not greater than it. */
  function Insert(sorted: seq<MarketEvent>, event: MarketEvent): seq<MarketEvent> {
    if sorted == [] then [event]
    else
      var last := sorted[|sorted| - 1];
      if MergeLess(event, last) then Insert(sorted[..|sorted| - 1], event) + [last] else sorted + [event]
  }

  /** What `std::stable_sort` returns. */
  function StableSort(events: seq<MarketEvent>): seq<MarketEvent> {
    if events == [] then [] else Insert(StableSort(events[..|events| - 1]), events[|events| - 1])
  }

  predicate NoAdjacentTie(events: seq<MarketEvent>) {
    forall i :: 0 < i < |events| ==> events[i - 1].key != events[i].key
  }

  /** `merge_events`. */
  function Merged(bookUpdates: seq<MarketEvent>, trades: seq<MarketEvent>): Outcome<seq<MarketEvent>> {
    var events := StableSort(bookUpdates + trades);
    if NoAdjacentTie(events) then Done(events) else Threw(InvalidArgument(DuplicateKey))
  }

  method MergeEvents(bookUpdates: seq<MarketEvent>,
      trades: seq<MarketEvent>) returns (result: Outcome<seq<MarketEvent>>)
    ensures result == Merged(bookUpdates, trades)
  {
    var events := bookUpdates;
    events := events + trades;
    events := StableSort(events);
    var index := 1;
    while index < |events|
      invariant 1 <= index
      invariant forall i :: 0 < i < index && i < |events| ==> events[i - 1].key != events[i].key
    {
      if events[index - 1].key == events[index].key {
        return Threw(InvalidArgument(DuplicateKey));
      }
      index := index + 1;
    }
    return Done(events);
  }

  predicate Ordered(events: seq<MarketEvent>) {
    forall i, j :: 0 <= i < j < |events| ==> !MergeLess(events[j], events[i])
  }

  lemma {:induction false} InsertKeeps(sorted: seq<MarketEvent>, event: MarketEvent)
    requires Ordered(sorted)
    ensures Ordered(Insert(sorted, event))
    ensures multiset(Insert(sorted, event)) == multiset(sorted) + multiset{event}
  {
    hide MergeLess;
    if sorted != [] {
      var init, last := sorted[..|sorted| - 1], sorted[|sorted| - 1];
      assert sorted == init + [last];
      OrderedParts(init, last);
      if MergeLess(event, last) {
        InsertKeeps(init, event);
        var inner := Insert(init, event);
        LessIsStrict(event, last);
        forall i | 0 <= i < |inner|
          ensures !MergeLess(last, inner[i])
        {
          assert inner[i] in multiset(inner);
        }
        OrderedMore(inner, last);
      } else {
        forall i | 0 <= i < |sorted|
          ensures !MergeLess(event, sorted[i])
        {
          NotLessThrough(event, last, sorted[i]);
        }
        OrderedMore(sorted, event);
      }
    }
  }

  lemma {:induction false} OrderedParts(init: seq<MarketEvent>, last: MarketEvent)
    requires Ordered(init + [last])
    ensures Ordered(init) && forall i :: 0 <= i < |init| ==> !MergeLess(last, init[i])
  {
    var all := init + [last];
    assert all[|init|] == last;
    assert forall i :: 0 <= i < |init| ==> all[i] == init[i];
  }

  lemma {:induction false} OrderedMore(init: seq<MarketEvent>, last: MarketEvent)
    requires Ordered(init) && forall i :: 0 <= i < |init| ==> !MergeLess(last, init[i])
    ensures Ordered(init + [last])
  {
  }

  lemma {:induction false} LessIsStrict(a: MarketEvent, b: MarketEvent)
    requires MergeLess(a, b)
    ensures !MergeLess(b, a)
  {
  }

  /** What is not less than `b`, which is not less than `c`, is not less than `c`. */
  lemma {:induction false} NotLessThrough(a: MarketEvent, b: MarketEvent, c: MarketEvent)
    requires !MergeLess(a, b) && (b == c || !MergeLess(b, c))
    ensures !MergeLess(a, c)
  {
  }

  lemma {:induction false} SortSorts(events: seq<MarketEvent>)
    ensures Ordered(StableSort(events)) && multiset(StableSort(events)) == multiset(events)
  {
    if events != [] {
      var init, last := events[..|events| - 1], events[|events| - 1];
      SortSorts(init);
      InsertKeeps(StableSort(init), last);
      assert events == init + [last];
    }
  }

  // ---- Keys ----

  function Keys(events: seq<MarketEvent>): set<EventKey> {
    set i | 0 <= i < |events| :: events[i].key
  }

  predicate DistinctKeys(events: seq<MarketEvent>) {
    forall i, j :: 0 <= i < j < |events| ==> events[i].key != events[j].key
  }

  lemma {:induction false} KeysAppend(events: seq<MarketEvent>, event: MarketEvent)
    ensures Keys(events + [event]) == Keys(events) + {event.key}
    ensures DistinctKeys(events + [event]) <==> DistinctKeys(events) && event.key !in Keys(events)
  {
    var longer := events + [event];
    assert longer[|events|] == event;
    forall i | 0 <= i < |events|
      ensures longer[i].key in Keys(longer) && longer[i] == events[i] && events[i].key in Keys(events)
    {
    }
    if DistinctKeys(longer) {
      assert forall i, j :: 0 <= i < j < |events| ==> longer[i].key != longer[j].key;
      assert forall i :: 0 <= i < |events| ==> longer[i].key != longer[|events|].key;
    }
  }

  lemma {:induction false} InsertKeys(sorted: seq<MarketEvent>, event: MarketEvent)
    ensures Keys(Insert(sorted, event)) == Keys(sorted) + {event.key}
    ensures DistinctKeys(Insert(sorted, event)) <==> DistinctKeys(sorted) && event.key !in Keys(sorted)
  {
    hide Keys, DistinctKeys;
    if sorted == [] {
      KeysAppend([], event);
      assert [] + [event] == [event];
    } else {
      var init, last := sorted[..|sorted| - 1], sorted[|sorted| - 1];
      assert sorted == init + [last];
      KeysAppend(init, last);
      KeysAppend(sorted, event);
      InsertKeys(init, event);
      KeysAppend(Insert(init, event), last);
    }
  }

  lemma {:induction false} SortKeys(events: seq<MarketEvent>)
    ensures Keys(StableSort(events)) == Keys(events)
    ensures DistinctKeys(StableSort(events)) <==> DistinctKeys(events)
  {
    hide Keys, DistinctKeys, Insert;
    if events != [] {
      var init, last := events[..|events| - 1], events[|events| - 1];
      assert events == init + [last];
      SortKeys(init);
      InsertKeys(StableSort(init), last);
      KeysAppend(init, last);
    }
  }

  /** In an ordered sequence ties are adjacent. */
  lemma {:induction false} TiesAreAdjacent(events: seq<MarketEvent>)
    requires Ordered(events)
    ensures NoAdjacentTie(events) <==> DistinctKeys(events)
    ensures DistinctKeys(events) ==> StrictlyIncreasing(events)
  {
    forall i, j | 0 <= i < j < |events| && NoAdjacentTie(events)
      ensures events[i].key != events[j].key
    {
      assert !MergeLess(events[j], events[i + 1]) || j == i + 1;
      assert !MergeLess(events[i + 1], events[i]) && events[i + 1 - 1].key != events[i + 1].key;
    }
  }

  lemma {:induction false} SharedKeys(a: seq<MarketEvent>, b: seq<MarketEvent>)
    requires StrictlyIncreasing(a) && StrictlyIncreasing(b)
    ensures DistinctKeys(a + b) <==> Keys(a) !! Keys(b)
  {
    var both := a + b;
    if Keys(a) !! Keys(b) {
      forall i, j | 0 <= i < j < |both|
        ensures both[i].key != both[j].key
      {
        if i < |a| <= j {
          assert both[i].key in Keys(a) && b[j - |a|].key in Keys(b);
        }
      }
    } else {
      var key :| key in Keys(a) && key in Keys(b);
      var i :| 0 <= i < |a| && a[i].key == key;
      var j :| 0 <= j < |b| && b[j].key == key;
      assert both[i].key == both[|a| + j].key;
    }
  }

  // ---- Main results ----

  /** Merging two accepted feeds gives a strictly increasing permutation of both, or rejects; it rejects
      exactly when the feeds share a key. */
  lemma {:induction false} MergeMeaning(bookUpdates: seq<MarketEvent>, trades: seq<MarketEvent>)
    requires StrictlyIncreasing(bookUpdates) && StrictlyIncreasing(trades)
    ensures Merged(bookUpdates, trades).Done? <==> Keys(bookUpdates) !! Keys(trades)
    ensures Merged(bookUpdates, trades).Threw? ==> Merged(bookUpdates, trades).error == InvalidArgument(DuplicateKey)
    ensures Merged(bookUpdates, trades).Done? ==>
      var events := Merged(bookUpdates, trades).value;
      StrictlyIncreasing(events) && multiset(events) == multiset(bookUpdates) + multiset(trades)
  {
    hide Keys, DistinctKeys, StableSort, StrictlyIncreasing, NoAdjacentTie, Ordered;
    SortSorts(bookUpdates + trades);
    SortKeys(bookUpdates + trades);
    TiesAreAdjacent(StableSort(bookUpdates + trades));
    SharedKeys(bookUpdates, trades);
  }

  lemma {:induction false} LastIsLargest(events: seq<MarketEvent>, event: MarketEvent)
    requires StrictlyIncreasing(events) && event in events
    ensures event == events[|events| - 1] || KeyLess(event.key, events[|events| - 1].key)
    ensures StrictlyIncreasing(events[..|events| - 1])
  {
  }

  lemma {:induction false} WithoutLast(events: seq<MarketEvent>)
    requires events != []
    ensures multiset(events[..|events| - 1]) == multiset(events) - multiset{events[|events| - 1]}
  {
    assert events == events[..|events| - 1] + [events[|events| - 1]];
  }

  /** There is only one such permutation, so the sorting algorithm does not matter. */
  lemma {:induction false} IncreasingUnique(a: seq<MarketEvent>, b: seq<MarketEvent>)
    requires StrictlyIncreasing(a) && StrictlyIncreasing(b) && multiset(a) == multiset(b)
    ensures a == b
  {
    hide StrictlyIncreasing;
    assert |multiset(a)| == |a| && |multiset(b)| == |b|;
    if a != [] {
      var x, y := a[|a| - 1], b[|b| - 1];
      assert x in multiset(b) && y in multiset(a);
      LastIsLargest(a, y);
      LastIsLargest(b, x);
      assert x == y;
      assert multiset(a[..|a| - 1]) == multiset(b[..|b| - 1]) by {
        WithoutLast(a);
        WithoutLast(b);
      }
      IncreasingUnique(a[..|a| - 1], b[..|b| - 1]);
      assert a == a[..|a| - 1] + [x] && b == b[..|b| - 1] + [y];
    }
  }

  /** What the merge delivers is what the event loop assumes of its stream. */
  lemma {:induction false} MergedFeedOk(bookUpdates: seq<MarketEvent>, trades: seq<MarketEvent>)
    requires StrictlyIncreasing(bookUpdates) && StrictlyIncreasing(trades) && EventsOk(bookUpdates) && EventsOk(trades)
    requires Merged(bookUpdates, trades).Done?
    ensures SortedEvents(Merged(bookUpdates, trades).value) && EventsOk(Merged(bookUpdates, trades).value)
  {
    hide Merged, Keys;
    MergeMeaning(bookUpdates, trades);
    var events := Merged(bookUpdates, trades).value;
    forall i | 0 <= i < |events|
      ensures EventOk(events[i])
    {
      assert events[i] in multiset(bookUpdates) + multiset(trades);
      assert events[i] in bookUpdates || events[i] in trades;
    }
  }
}
