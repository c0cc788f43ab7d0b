/** A larger queue fraction never fills more: the simulation between two execution states. */
module QueueMonotonicity {
  import opened Types
  import opened OrderBooks
  import opened Orders
  import opened Simulators
  import opened EventLoops
  import opened LatencyExecution
  import opened Registry
  import opened RegistrySteps
  import opened TradeAllocation

  /** Both are resting or filled, or both are canceled. */
  predicate SameStage(l: OrderStatus, h: OrderStatus) {
    (IsLive(l) && IsLive(h)) || (l.Canceled? && h.Canceled?)
  }

  /** The same order in two runs: `h` in the run with the larger queue fraction. */
  predicate OrderSim(l: Order, h: Order) {
    && SameTerms(l, h) && h.filled <= l.filled
    && (l.status.Pending? || h.status.Pending? || l.kind.Market? ==> l == h)
    && (l.kind.Limit? && !l.status.Pending? ==> SameStage(l.status, h.status))
  }

  predicate Matches(l: ActiveOrder, h: ActiveOrder) {
    l == h.(queue := l.queue) && l.queue <= h.queue
  }

  /** The entries of `low` are those of `high`, in order, with some missing and none farther back. */
  predicate Embeds(low: seq<ActiveOrder>, high: seq<ActiveOrder>) {
    if high == [] then low == []
    else
      var h := high[|high| - 1];
      if low != [] && low[|low| - 1].id == h.id
      then Matches(low[|low| - 1], h) && Embeds(low[..|low| - 1], high[..|high| - 1])
      else Embeds(low, high[..|high| - 1])
  }

  predicate OrdersSim(low: seq<Order>, high: seq<Order>) {
    |low| == |high| && forall i :: 0 <= i < |low| ==> OrderSim(low[i], high[i])
  }

  predicate Sim(low: Exec, high: Exec) {
    OrdersSim(low.orders, high.orders) && Embeds(low.active, high.active) && low.nextOrder == high.nextOrder
  }

  // ---- Trades ----

  lemma {:induction false} MatchPosition(low: seq<ActiveOrder>, high: seq<ActiveOrder>, j: nat) returns (k: nat)
    requires Embeds(low, high) && j < |low|
    ensures k < |high| && Matches(low[j], high[k]) && Embeds(low[..j], high[..k])
  {
    var h := high[|high| - 1];
    var init := high[..|high| - 1];
    if low[|low| - 1].id == h.id {
      if j == |low| - 1 {
        k := |high| - 1;
      } else {
        k := MatchPosition(low[..|low| - 1], init, j);
        assert low[..|low| - 1][..j] == low[..j] && init[..k] == high[..k];
      }
    } else {
      k := MatchPosition(low, init, j);
      assert init[..k] == high[..k];
    }
  }

  lemma {:induction false} CapacityEmbeds(low: seq<Order>, high: seq<Order>, l: seq<ActiveOrder>,
      h: seq<ActiveOrder>, trade: MarketEvent)
    requires OrdersSim(low, high) && trade.Trade? && Embeds(l, h)
    requires forall j :: 0 <= j < |h| ==> 0 <= Capacity(high, h[j], trade)
    ensures CapacityOf(low, l, trade) <= CapacityOf(high, h, trade)
  {
    if h != [] {
      var last := h[|h| - 1];
      assert 0 <= Capacity(high, last, trade);
      if l != [] && l[|l| - 1].id == last.id {
        CapacityEmbeds(low, high, l[..|l| - 1], h[..|h| - 1], trade);
        CapacityMatches(low, high, l[|l| - 1], last, trade);
      } else {
        CapacityEmbeds(low, high, l, h[..|h| - 1], trade);
      }
    }
  }

  lemma {:induction false} CapacityMatches(low: seq<Order>, high: seq<Order>, l: ActiveOrder, h: ActiveOrder,
      trade: MarketEvent)
    requires OrdersSim(low, high) && trade.Trade? && Matches(l, h)
    ensures Capacity(low, l, trade) <= Capacity(high, h, trade)
  {
    if 1 <= l.id <= |low| {
      assert OrderSim(low[l.id - 1], high[l.id - 1]);
    }
  }

  /** At least as much volume reaches the matching entry of `low`. */
  lemma {:induction false} ReachingEmbeds(low: Exec, high: Exec, j: nat, k: nat, trade: MarketEvent)
    requires MidInv(high) && OrdersSim(low.orders, high.orders) && trade.Trade?
    requires j <= |low.active| && k <= |high.active| && Embeds(low.active[..j], high.active[..k])
    ensures Reaching(high.orders, high.active[..k], trade) <= Reaching(low.orders, low.active[..j], trade)
  {
    hide MidInv, OrdersSim, Capacity, Embeds;
    forall i | 0 <= i < k
      ensures 0 <= Capacity(high.orders, high.active[..k][i], trade)
    {
      CapacityNonNegative(high, i, trade);
    }
    CapacityEmbeds(low.orders, high.orders, low.active[..j], high.active[..k], trade);
  }

  lemma {:induction false} FilledAfterMonotone(l: Order, h: Order, a: ActiveOrder, b: ActiveOrder,
      trade: MarketEvent, more: int, less: int)
    requires trade.Trade? && SameTerms(l, h) && h.filled <= l.filled && Matches(a, b) && less <= more
    ensures FilledAfter(h, b, trade, less) <= FilledAfter(l, a, trade, more)
  {
  }

  lemma {:induction false} QueueAfterMonotone(a: ActiveOrder, b: ActiveOrder, trade: MarketEvent, more: int,
      less: int)
    requires trade.Trade? && Matches(a, b) && 0 <= less <= more && 0 <= a.queue
    ensures Matches(a.(queue := QueueAfter(a, trade, more)), b.(queue := QueueAfter(b, trade, less)))
  {
  }

  /** After the same trade no order is filled further in `high`. */
  lemma {:induction false} TradeFilledSim(low: Exec, high: Exec, l: Exec, h: Exec, trade: MarketEvent, id: int)
    requires ExecInv(low) && ExecInv(high) && Sim(low, high) && trade.Trade?
    requires TradeEffect(low, l, trade) && TradeEffect(high, h, trade) && OrdersInv(h.orders)
    requires Evolves(high, h) && 1 <= id <= |low.orders|
    ensures h.orders[id - 1].filled <= l.orders[id - 1].filled
  {
    hide Embeds, OrderOk, FillsInv, AllAgree, AllLive, NoneFilled, Retained, FilledAfter, Reaching;
    assert OrderSim(low.orders[id - 1], high.orders[id - 1]);
    if IsActive(low.active, id) {
      var j :| 0 <= j < |low.active| && low.active[j].id == id;
      var k := MatchPosition(low.active, high.active, j);
      ReachingEmbeds(low, high, j, k, trade);
      EntryFilled(low, l, trade, j);
      EntryFilled(high, h, trade, k);
      FilledAfterMonotone(low.orders[id - 1], high.orders[id - 1], low.active[j], high.active[k], trade,
        Reaching(low.orders, low.active[..j], trade), Reaching(high.orders, high.active[..k], trade));
    } else {
      assert l.orders[id - 1] == low.orders[id - 1];
      if IsActive(high.active, id) {
        UnmatchedIsFilled(low, high, id);
        assert Evolved(high.orders[id - 1], h.orders[id - 1]);
        FilledBound(h.orders, id);
      }
    }
  }

  lemma {:induction false} FilledBound(orders: seq<Order>, id: int)
    requires OrdersInv(orders) && 1 <= id <= |orders|
    ensures orders[id - 1].filled <= orders[id - 1].original
  {
    assert OrderOk(orders[id - 1]);
  }

  /** An order resting in `high` only is completely filled in `low`. */
  lemma {:induction false} UnmatchedIsFilled(low: Exec, high: Exec, id: int)
    requires ExecInv(low) && ExecInv(high) && Sim(low, high) && 1 <= id <= |low.orders|
    requires IsActive(high.active, id) && !IsActive(low.active, id)
    ensures low.orders[id - 1].filled == low.orders[id - 1].original
  {
    hide Embeds, FillsInv, AllLive, DistinctIds;
    var l, h := low.orders[id - 1], high.orders[id - 1];
    assert OrderSim(l, h) && OrderOk(l);
    var k :| 0 <= k < |high.active| && high.active[k].id == id;
    assert ActiveOk(high.orders, high.active[k]);
  }

  lemma {:induction false} EmbedsRequeued(low: Exec, high: Exec, j: nat, k: nat, trade: MarketEvent)
    requires MidInv(low) && MidInv(high) && OrdersSim(low.orders, high.orders) && trade.Trade?
    requires j <= |low.active| && k <= |high.active| && Embeds(low.active[..j], high.active[..k])
    ensures Embeds(Requeued(low, trade)[..j], Requeued(high, trade)[..k])
    decreases k
  {
    hide MidInv, OrdersSim, Reaching, QueueAfter;
    if k > 0 {
      var l, h := low.active[..j], high.active[..k];
      var after, behind := Requeued(low, trade), Requeued(high, trade);
      assert h[..k - 1] == high.active[..k - 1] && behind[..k][..k - 1] == behind[..k - 1];
      if j > 0 && low.active[j - 1].id == high.active[k - 1].id {
        assert l[..j - 1] == low.active[..j - 1] && after[..j][..j - 1] == after[..j - 1];
        EmbedsRequeued(low, high, j - 1, k - 1, trade);
        ReachingEmbeds(low, high, j - 1, k - 1, trade);
        EntryKnown(low, j - 1);
        ReachingNonNegative(high, k - 1, trade);
        QueueAfterMonotone(low.active[j - 1], high.active[k - 1], trade,
          Reaching(low.orders, low.active[..j - 1], trade), Reaching(high.orders, high.active[..k - 1], trade));
      } else {
        EmbedsRequeued(low, high, j, k - 1, trade);
      }
    }
  }

  lemma {:induction false} ReachingNonNegative(e: Exec, k: nat, trade: MarketEvent)
    requires trade.Trade? && k <= |e.active|
    ensures 0 <= Reaching(e.orders, e.active[..k], trade)
  {
  }

  /** Wherever `low` keeps an entry, `high` keeps its match. */
  predicate KeepsMore(low: seq<Order>, high: seq<Order>) {
    && |low| == |high|
    && (forall i :: 0 <= i < |low| ==> low[i].id == i + 1 && high[i].id == i + 1)
    && (forall i :: 0 <= i < |low| && IsTerminal(high[i].status) ==> IsTerminal(low[i].status))
  }

  predicate Avoids(active: seq<ActiveOrder>, id: int) {
    forall j :: 0 <= j < |active| ==> active[j].id != id
  }

  lemma {:induction false} EmbedsAvoids(l: seq<ActiveOrder>, h: seq<ActiveOrder>, id: int)
    requires Embeds(l, h) && Avoids(h, id)
    ensures Avoids(l, id)
  {
    hide Embeds;
    forall j | 0 <= j < |l|
      ensures l[j].id != id
    {
      var k := MatchPosition(l, h, j);
    }
  }

  lemma {:induction false} RetainedAvoids(orders: seq<Order>, active: seq<ActiveOrder>, id: int)
    requires Retained(orders, active).Done? && Avoids(active, id)
    ensures Avoids(Retained(orders, active).value, id)
  {
    if active != [] {
      RetainedAvoids(orders, active[..|active| - 1], id);
    }
  }

  lemma {:induction false} EmbedsExtra(l: seq<ActiveOrder>, h: seq<ActiveOrder>, b: ActiveOrder)
    requires Embeds(l, h) && Avoids(l, b.id)
    ensures Embeds(l, h + [b])
  {
    assert (h + [b])[..|h|] == h;
  }

  lemma {:induction false} EmbedsBoth(l: seq<ActiveOrder>, h: seq<ActiveOrder>, a: ActiveOrder, b: ActiveOrder)
    requires Embeds(l, h) && Matches(a, b)
    ensures Embeds(l + [a], h + [b])
  {
    assert (h + [b])[..|h|] == h && (l + [a])[..|l|] == l;
  }

  /** The entry that `Retained` decides last. */
  lemma {:induction false} RetainedLast(orders: seq<Order>, init: seq<ActiveOrder>, last: ActiveOrder)
    requires forall i :: 0 <= i < |orders| ==> orders[i].id == i + 1
    requires Retained(orders, init + [last]).Done?
    ensures Retained(orders, init).Done? && 1 <= last.id <= |orders|
    ensures Retained(orders, init + [last]).value
         == if IsTerminal(orders[last.id - 1].status) then Retained(orders, init).value
            else Retained(orders, init).value + [last]
  {
    assert (init + [last])[..|init|] == init;
    FindById(orders, last.id, 0);
  }

  lemma {:induction false} EmbedsRetained(low: seq<Order>, high: seq<Order>, l: seq<ActiveOrder>, h: seq<ActiveOrder>)
    requires KeepsMore(low, high) && Embeds(l, h) && DistinctIds(h)
    requires Retained(low, l).Done? && Retained(high, h).Done?
    ensures Embeds(Retained(low, l).value, Retained(high, h).value)
  {
    hide Retained;
    if h == [] {
      RetainedNothing(low);
      RetainedNothing(high);
    } else {
      var last := h[|h| - 1];
      var init := h[..|h| - 1];
      assert h == init + [last];
      RetainedLast(high, init, last);
      var matched := l != [] && l[|l| - 1].id == last.id;
      var rest := if matched then l[..|l| - 1] else l;
      if matched {
        assert l == rest + [l[|l| - 1]];
        RetainedLast(low, rest, l[|l| - 1]);
      }
      EmbedsAvoids(rest, init, last.id);
      RetainedAvoids(low, rest, last.id);
      EmbedsRetained(low, high, rest, init);
      EmbedsExtra(Retained(low, rest).value, Retained(high, init).value, last);
      if matched {
        EmbedsBoth(Retained(low, rest).value, Retained(high, init).value, l[|l| - 1], last);
      }
    }
  }

  lemma {:induction false} RetainedNothing(orders: seq<Order>)
    ensures Retained(orders, []) == Done([])
  {
  }

  lemma {:induction false} RequeuedDistinct(e: Exec, trade: MarketEvent)
    requires DistinctIds(e.active) && trade.Trade?
    ensures DistinctIds(Requeued(e, trade))
  {
  }

  lemma {:induction false} TradeOrdersSim(low: Exec, high: Exec, l: Exec, h: Exec, trade: MarketEvent)
    requires ExecInv(low) && ExecInv(high) && Sim(low, high) && trade.Trade?
    requires TradeEffect(low, l, trade) && TradeEffect(high, h, trade)
    requires OrdersInv(l.orders) && OrdersInv(h.orders) && Evolves(low, l) && Evolves(high, h)
    requires TradedOnly(low.orders, l.orders) && TradedOnly(high.orders, h.orders)
    ensures OrdersSim(l.orders, h.orders) && KeepsMore(l.orders, h.orders)
  {
    hide OrdersInv, MidInv, NoneFilled, Embeds, TradeEffect, Evolves, TradedOnly;
    TradeSizes(low, high, l, h, trade);
    forall i | 0 <= i < |l.orders|
      ensures OrderSim(l.orders[i], h.orders[i])
      ensures IsTerminal(h.orders[i].status) ==> IsTerminal(l.orders[i].status)
    {
      TradeFilledSim(low, high, l, h, trade, i + 1);
      TradeOrderSim(low, high, l, h, trade, i + 1);
    }
  }

  lemma {:induction false} TradeSizes(low: Exec, high: Exec, l: Exec, h: Exec, trade: MarketEvent)
    requires Sim(low, high) && trade.Trade? && TradeEffect(low, l, trade) && TradeEffect(high, h, trade)
    requires OrdersInv(l.orders) && OrdersInv(h.orders)
    ensures |low.orders| == |l.orders| == |h.orders|
    ensures forall i :: 0 <= i < |l.orders| ==> l.orders[i].id == i + 1 && h.orders[i].id == i + 1
  {
    hide Embeds, OrderOk, Retained;
  }

  lemma {:induction false} TradeOrderSim(low: Exec, high: Exec, l: Exec, h: Exec, trade: MarketEvent, id: int)
    requires ExecInv(low) && ExecInv(high) && Sim(low, high) && trade.Trade?
    requires TradeEffect(low, l, trade) && TradeEffect(high, h, trade)
    requires OrdersInv(l.orders) && OrdersInv(h.orders) && Evolves(low, l) && Evolves(high, h)
    requires TradedOnly(low.orders, l.orders) && TradedOnly(high.orders, h.orders)
    requires 1 <= id <= |l.orders| && h.orders[id - 1].filled <= l.orders[id - 1].filled
    ensures OrderSim(l.orders[id - 1], h.orders[id - 1])
    ensures IsTerminal(h.orders[id - 1].status) ==> IsTerminal(l.orders[id - 1].status)
  {
    hide Embeds, FillsInv, Retained, FilledAfter, Reaching, RestingListed, DistinctIds, IsPath;
    assert OrderSim(low.orders[id - 1], high.orders[id - 1]);
    assert Evolved(low.orders[id - 1], l.orders[id - 1]) && Evolved(high.orders[id - 1], h.orders[id - 1]);
    assert OrderOk(l.orders[id - 1]) && OrderOk(h.orders[id - 1]);
    NotActiveUnlessLimit(low, id);
    NotActiveUnlessLimit(high, id);
  }

  lemma {:induction false} NotActiveUnlessLimit(e: Exec, id: int)
    requires ExecInv(e) && 1 <= id <= |e.orders|
    ensures e.orders[id - 1].kind.Market? || e.orders[id - 1].status.Pending? ==> !IsActive(e.active, id)
  {
    hide FillsInv, OrderOk, RestingListed, DistinctIds;
    if IsActive(e.active, id) {
      var j :| 0 <= j < |e.active| && e.active[j].id == id;
      assert ActiveOk(e.orders, e.active[j]);
    }
  }

  /** One trade keeps the simulation. */
  lemma {:induction false} TradeSim(lowCfg: ExecConfig, highCfg: ExecConfig, low: Exec, high: Exec,
      trade: MarketEvent)
    requires ConfigOk(lowCfg) && ConfigOk(highCfg) && ExecInv(low) && ExecInv(high) && Sim(low, high)
    requires trade.Trade? && EventOk(trade)
    requires TradeResult(lowCfg, low, trade).Done? && TradeResult(highCfg, high, trade).Done?
    ensures Sim(TradeResult(lowCfg, low, trade).value, TradeResult(highCfg, high, trade).value)
  {
    hide MidInv, NoneFilled, OrdersSim, Embeds, TradeResult, Evolves, TradedOnly, PassiveFills, OrdersInv;
    hide DistinctIds;
    TradeClosedForm(lowCfg, low, trade);
    TradeClosedForm(highCfg, high, trade);
    TradeKeeps(lowCfg, low, trade);
    TradeKeeps(highCfg, high, trade);
    var l, h := TradeResult(lowCfg, low, trade).value, TradeResult(highCfg, high, trade).value;
    if trade.quantity != 0 && trade.aggressor.Some? {
      InvParts(l);
      InvParts(h);
      InvParts(high);
      TradeOrdersSim(low, high, l, h, trade);
      assert low.active[..|low.active|] == low.active && high.active[..|high.active|] == high.active;
      EmbedsRequeued(low, high, |low.active|, |high.active|, trade);
      assert Requeued(low, trade)[..|low.active|] == Requeued(low, trade);
      assert Requeued(high, trade)[..|high.active|] == Requeued(high, trade);
      RequeuedDistinct(high, trade);
      EmbedsRetained(l.orders, h.orders, Requeued(low, trade), Requeued(high, trade));
    }
  }

  lemma {:induction false} InvParts(e: Exec)
    requires ExecInv(e)
    ensures OrdersInv(e.orders) && DistinctIds(e.active)
  {
  }

  // ---- Submissions and arrivals ----

  /** A new intent enters both runs as the same order. */
  lemma {:induction false} SubmitSim(low: Exec, high: Exec, intent: Intent, latency: int, now: int)
    requires Sim(low, high)
    ensures var l := Submit(low, intent, latency, now);
      var h := Submit(high, intent, latency, now);
      if l.Threw? then h == Threw(l.error)
      else h.Done? && Sim(l.value.exec, h.value.exec) && l.value.request == h.value.request
  {
    hide Embeds;
  }

  predicate SweepSame(a: Sweep, b: Sweep) {
    a.order == b.order && |a.fills| == |b.fills| && a.atLimit == b.atLimit
  }

  /** Fill ids do not influence a sweep. */
  lemma {:induction false} SweepsAgree(ppm: int, levels: seq<PriceLevel>, bound: Option<int>, a: Sweep, b: Sweep,
      i: nat)
    requires 0 <= ppm && i <= |levels| && SweepSame(a, b)
    ensures var l := SweepFrom(ppm, levels, bound, a, i);
      var h := SweepFrom(ppm, levels, bound, b, i);
      if l.Threw? then h == Threw(l.error) else h.Done? && SweepSame(l.value, h.value)
    decreases |levels| - i
  {
    if i < |levels| && 0 <= levels[i].quantity {
      if levels[i].quantity == 0 || a.order.Remaining() == 0 {
        SweepsAgree(ppm, levels, bound, a, b, i + 1);
      } else if !(bound.Some? && !Allows(a.order.side, bound.value, levels[i].price)) {
        hide FeeFor, RecordFill;
        var l, h := SweepLevel(ppm, levels[i], bound, a), SweepLevel(ppm, levels[i], bound, b);
        if l.Done? && !(bound.None? && l.value.order.Remaining() == 0) {
          SweepsAgree(ppm, levels, bound, l.value, h.value, i + 1);
        }
      }
    }
  }

  lemma {:induction false} QueueMonotone(less: int, more: int, visible: int)
    requires 0 <= less <= more <= PPM && IsAmount(visible)
    ensures InitialQueue(less, visible).Done? && InitialQueue(more, visible).Done?
    ensures InitialQueue(less, visible).value <= InitialQueue(more, visible).value
  {
    InitialQueueBound(less, visible);
    InitialQueueBound(more, visible);
    ProductGrows(less, more, visible);
    QuotientGrows(visible * less + PPM / 2, visible * more + PPM / 2);
  }

  lemma {:induction false} ProductGrows(less: int, more: int, factor: int)
    requires less <= more && 0 <= factor
    ensures factor * less <= factor * more
  {
  }

  lemma {:induction false} QuotientGrows(less: int, more: int)
    requires less <= more
    ensures less / PPM <= more / PPM
  {
  }

  /** The two configurations differ in the queue fraction only. */
  predicate LargerFraction(low: ExecConfig, high: ExecConfig) {
    ConfigOk(low) && ConfigOk(high) && high == low.(queuePpm := high.queuePpm) && low.queuePpm <= high.queuePpm
  }

  /** The same order arrives in both runs: same outcome, but possibly farther back in the queue. */
  predicate ArrivedSame(low: Exec, high: Exec, l: Outcome<Arrived>, h: Outcome<Arrived>) {
    if l.Threw? then h == Threw(l.error)
    else
      && h.Done? && l.value.order == h.value.order
      && l.value.exec.nextOrder == low.nextOrder && h.value.exec.nextOrder == high.nextOrder
      && if l.value.exec.active == low.active then h.value.exec.active == high.active
         else
           && |l.value.exec.active| == |low.active| + 1 && |h.value.exec.active| == |high.active| + 1
           && var a, b := l.value.exec.active[|low.active|], h.value.exec.active[|high.active|];
             && Matches(a, b)
             && l.value.exec.active == low.active + [a] && h.value.exec.active == high.active + [b]
  }

  lemma {:induction false} QueueAheadMonotone(low: ExecConfig, high: ExecConfig, order: Order, book: Book)
    requires LargerFraction(low, high) && BookOk(book) && order.limit.Some? && 0 <= order.limit.value
    ensures QueueAhead(low, order, book).Done? && QueueAhead(high, order, book).Done?
    ensures 0 <= QueueAhead(low, order, book).value <= QueueAhead(high, order, book).value
  {
    hide InitialQueue;
    VisibleBound(order, book);
    var visible := VisibleAtLimit(order, book).value;
    QueueMonotone(low.queuePpm, high.queuePpm, visible);
    InitialQueueBound(low.queuePpm, visible);
  }

  lemma {:induction false} LimitArriveSame(low: ExecConfig, high: ExecConfig, d: Exec, e: Exec, o: Order, book: Book)
    requires LargerFraction(low, high) && BookOk(book) && OrderOk(o) && o.status.Pending? && o.kind.Limit?
    ensures ArrivedSame(d, e, LimitArrival(low, d, o, book), LimitArrival(high, e, o, book))
  {
    hide SweepFrom, QueueAhead, IsPath;
    var acknowledged := Transition(o, Acknowledged).value;
    var depth := OppositeDepth(o.side, book);
    var a := Sweep(acknowledged, [], d.nextFill, false);
    var b := Sweep(acknowledged, [], e.nextFill, false);
    SweepsAgree(low.feePpm, depth, o.limit, a, b, 0);
    var swept := SweepFrom(low.feePpm, depth, o.limit, a, 0);
    if swept.Done? {
      SweepKeepsTerms(low.feePpm, depth, o.limit, a, 0);
      QueueAheadMonotone(low, high, swept.value.order, book);
    }
  }

  lemma {:induction false} SweepKeepsTerms(ppm: int, levels: seq<PriceLevel>, bound: Option<int>, acc: Sweep, i: nat)
    requires 0 <= ppm && i <= |levels| && SweepFrom(ppm, levels, bound, acc, i).Done?
    ensures SameTerms(acc.order, SweepFrom(ppm, levels, bound, acc, i).value.order)
    ensures SweepFrom(ppm, levels, bound, acc, i).value.order.status == acc.order.status
    decreases |levels| - i
  {
    if i < |levels| {
      if levels[i].quantity == 0 || acc.order.Remaining() == 0 {
        SweepKeepsTerms(ppm, levels, bound, acc, i + 1);
      } else if !(bound.Some? && !Allows(acc.order.side, bound.value, levels[i].price)) {
        var next := SweepLevel(ppm, levels[i], bound, acc).value;
        if !(bound.None? && next.order.Remaining() == 0) {
          SweepKeepsTerms(ppm, levels, bound, next, i + 1);
        }
      }
    }
  }

  lemma {:induction false} MarketArriveSame(ppm: int, o: Order, book: Book, m: int, n: int)
    requires 0 <= ppm && o.status.Pending?
    ensures var l := OrderExecution(ppm, o, book, m);
      var h := OrderExecution(ppm, o, book, n);
      if l.Threw? then h == Threw(l.error) else h.Done? && l.value.order == h.value.order
  {
    hide SweepFrom;
    if o.kind.Market? {
      var acknowledged := Transition(o, Acknowledged).value;
      SweepsAgree(ppm, OppositeDepth(o.side, book), None,
        Sweep(acknowledged, [], m, false), Sweep(acknowledged, [], n, false), 0);
    }
  }

  lemma {:induction false} ArriveSame(low: ExecConfig, high: ExecConfig, d: Exec, e: Exec, o: Order, book: Book)
    requires LargerFraction(low, high) && BookOk(book) && OrderOk(o) && o.status.Pending?
    ensures ArrivedSame(d, e, Arrive(low, d, o, book), Arrive(high, e, o, book))
  {
    hide LimitArrival, OrderExecution;
    if o.kind.Limit? {
      LimitArriveSame(low, high, d, e, o, book);
    } else {
      MarketArriveSame(low.feePpm, o, book, d.nextFill, e.nextFill);
    }
  }

  /** One arrival keeps the simulation. */
  lemma {:induction false} ArrivalSim(low: ExecConfig, high: ExecConfig, d: Exec, e: Exec, event: Scheduled,
      book: Book)
    requires LargerFraction(low, high) && ExecInv(d) && ExecInv(e) && Sim(d, e) && BookOk(book)
    ensures var l := ArrivalResult(low, d, event, book);
      var h := ArrivalResult(high, e, event, book);
      if l.Threw? then h == Threw(l.error) else h.Done? && Sim(l.value.exec, h.value.exec) && l.value.order == h.value.order
  {
    hide MidInv, NoneFilled, Arrive, Embeds, OrderSim;
    if event.event.orderId.Some? {
      var id := event.event.orderId.value;
      FindInExec(d, id);
      FindInExec(e, id);
      if 1 <= id <= |d.orders| {
        PendingSame(d, e, id);
        if d.orders[id - 1].status.Pending? {
          ArriveSame(low, high, d, e, d.orders[id - 1], book);
          if ArrivalResult(low, d, event, book).Done? {
            ArrivedSim(low, high, d, e, id - 1, book);
          }
        }
      }
    }
  }

  lemma {:induction false} PendingSame(d: Exec, e: Exec, id: int)
    requires MidInv(d) && Sim(d, e) && 1 <= id <= |d.orders|
    ensures d.orders[id - 1].status.Pending? <==> e.orders[id - 1].status.Pending?
    ensures d.orders[id - 1].arrival == e.orders[id - 1].arrival
    ensures d.orders[id - 1].status.Pending? ==> d.orders[id - 1] == e.orders[id - 1] && OrderOk(d.orders[id - 1])
  {
    hide Embeds, ActiveInv, FillsInv, OrderOk;
    assert OrderSim(d.orders[id - 1], e.orders[id - 1]);
  }

  lemma {:induction false} ArrivedSim(low: ExecConfig, high: ExecConfig, d: Exec, e: Exec, index: nat, book: Book)
    requires LargerFraction(low, high) && ExecInv(d) && ExecInv(e) && Sim(d, e) && BookOk(book)
    requires index < |d.orders| && d.orders[index].status.Pending? && e.orders[index] == d.orders[index]
    requires Arrive(low, d, d.orders[index], book).Done?
    requires ArrivedSame(d, e, Arrive(low, d, d.orders[index], book), Arrive(high, e, d.orders[index], book))
    ensures var a := Arrive(low, d, d.orders[index], book).value;
      var b := Arrive(high, e, d.orders[index], book).value;
      Sim(a.exec.(orders := d.orders[index := a.order], fills := d.fills + a.fills),
          b.exec.(orders := e.orders[index := b.order], fills := e.fills + b.fills))
  {
    hide MidInv, NoneFilled, Arrive, Embeds, Matches;
    ArrivalInstalls(low, d, index, book);
    var a := Arrive(low, d, d.orders[index], book).value;
    var b := Arrive(high, e, d.orders[index], book).value;
    if a.exec.active != d.active {
      EmbedsBoth(d.active, e.active, a.exec.active[|d.active|], b.exec.active[|e.active|]);
    }
  }

  // ---- Cancels ----

  lemma {:induction false} RemoveInit<T>(s: seq<T>, i: nat)
    requires i < |s| - 1
    ensures RemoveAt(s, i) == RemoveAt(s[..|s| - 1], i) + [s[|s| - 1]]
  {
  }

  lemma {:induction false} RemoveLast<T>(s: seq<T>)
    requires s != []
    ensures RemoveAt(s, |s| - 1) == s[..|s| - 1]
  {
  }

  lemma {:induction false} LastAvoids(h: seq<ActiveOrder>)
    requires DistinctIds(h) && h != []
    ensures Avoids(h[..|h| - 1], h[|h| - 1].id) && DistinctIds(h[..|h| - 1])
  {
  }

  lemma {:induction false} RemovedAvoids(active: seq<ActiveOrder>, i: nat, id: int)
    requires Avoids(active, id) && i < |active|
    ensures Avoids(RemoveAt(active, i), id)
  {
  }

  /** Removing the same order from both lists keeps them matched. */
  lemma {:induction false} EmbedsRemoved(l: seq<ActiveOrder>, h: seq<ActiveOrder>, i: nat, k: nat)
    requires Embeds(l, h) && DistinctIds(l) && DistinctIds(h)
    requires i < |l| && k < |h| && l[i].id == h[k].id
    ensures Embeds(RemoveAt(l, i), RemoveAt(h, k))
    decreases |h|
  {
    hide RemoveAt, DistinctIds, Avoids;
    var last, init := h[|h| - 1], h[..|h| - 1];
    LastAvoids(h);
    LastAvoids(l);
    if k == |h| - 1 {
      RemoveLast(h);
      EntryIsLast(l, h, i);
      RemoveLast(l);
    } else {
      RemoveInit(h, k);
      IdsDiffer(h, k);
      if l[|l| - 1].id == last.id {
        RemoveInit(l, i);
        EmbedsRemoved(l[..|l| - 1], init, i, k);
        EmbedsBoth(RemoveAt(l[..|l| - 1], i), RemoveAt(init, k), l[|l| - 1], last);
      } else {
        EmbedsAvoids(l, init, last.id);
        RemovedAvoids(l, i, last.id);
        EmbedsRemoved(l, init, i, k);
        EmbedsExtra(RemoveAt(l, i), RemoveAt(init, k), last);
      }
    }
  }

  lemma {:induction false} IdsDiffer(h: seq<ActiveOrder>, k: nat)
    requires DistinctIds(h) && k < |h| - 1
    ensures h[k].id != h[|h| - 1].id
  {
  }

  /** The match of the last entry of `h` is the last entry of `l`. */
  lemma {:induction false} EntryIsLast(l: seq<ActiveOrder>, h: seq<ActiveOrder>, i: nat)
    requires Embeds(l, h) && DistinctIds(l) && DistinctIds(h) && h != [] && i < |l| && l[i].id == h[|h| - 1].id
    ensures i == |l| - 1 && Embeds(l[..|l| - 1], h[..|h| - 1])
  {
    if l[|l| - 1].id != h[|h| - 1].id {
      LastAvoids(h);
      EmbedsAvoids(l, h[..|h| - 1], h[|h| - 1].id);
    }
  }

  /** A cancel that succeeds in both runs keeps the simulation: the filled quantities stay as they are. */
  lemma {:induction false} CancelSim(d: Exec, e: Exec, event: Scheduled)
    requires ExecInv(d) && ExecInv(e) && Sim(d, e) && CancelResult(d, event).Done? && CancelResult(e, event).Done?
    ensures Sim(CancelResult(d, event).value, CancelResult(e, event).value)
  {
    hide MidInv, NoneFilled, Embeds, CancelResult, Evolves, OrderSim, RemoveAt;
    CancelKeeps(d, event);
    CancelKeeps(e, event);
    var id := event.event.orderId.value;
    var f, g := CancelResult(d, event).value, CancelResult(e, event).value;
    var i :| 0 <= i < |d.active| && d.active[i].id == id && f.active == RemoveAt(d.active, i);
    var k :| 0 <= k < |e.active| && e.active[k].id == id && g.active == RemoveAt(e.active, k);
    InvParts(d);
    InvParts(e);
    EmbedsRemoved(d.active, e.active, i, k);
    CanceledSame(d.orders[id - 1], e.orders[id - 1]);
  }

  lemma {:induction false} CanceledSame(l: Order, h: Order)
    requires OrderSim(l, h) && Transition(l, Canceled).Done? && Transition(h, Canceled).Done?
    requires l.kind.Market? ==> l == h
    ensures OrderSim(Transition(l, Canceled).value, Transition(h, Canceled).value)
  {
  }
}
