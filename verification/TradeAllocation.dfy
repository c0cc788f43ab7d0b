/** What one trade does to every resting order, in closed form. */
module TradeAllocation {
  import opened Types
  import opened OrderBooks
  import opened Orders
  import opened Simulators
  import opened EventLoops
  import opened LatencyExecution
  import opened Registry
  import opened RegistrySteps

  /** The volume entry `a` could absorb: what is queued ahead of it, then its own remainder. */
  function Capacity(orders: seq<Order>, a: ActiveOrder, trade: MarketEvent): int
    requires trade.Trade?
  {
    if 1 <= a.id <= |orders| && Qualifies(a, trade) then EffectiveQueue(a, trade) + orders[a.id - 1].Remaining() else 0
  }

  /** The capacity of the first `k` entries together. */
  function CapacityOf(orders: seq<Order>, active: seq<ActiveOrder>, trade: MarketEvent): int
    requires trade.Trade?
  {
    if active == [] then 0
    else CapacityOf(orders, active[..|active| - 1], trade) + Capacity(orders, active[|active| - 1], trade)
  }

  /** The volume that reaches the entry behind `ahead`. */
  function Reaching(orders: seq<Order>, ahead: seq<ActiveOrder>, trade: MarketEvent): int
    requires trade.Trade?
  {
    Max(0, trade.quantity - CapacityOf(orders, ahead, trade))
  }

  /** What an entry reached by `volume` becomes. */
  function QueueAfter(a: ActiveOrder, trade: MarketEvent, volume: int): int
    requires trade.Trade?
  {
    if Qualifies(a, trade) && 0 < volume then Max(0, EffectiveQueue(a, trade) - volume) else a.queue
  }

  function FilledAfter(o: Order, a: ActiveOrder, trade: MarketEvent, volume: int): int
    requires trade.Trade?
  {
    if Qualifies(a, trade) then o.filled + Min(o.Remaining(), Max(0, volume - EffectiveQueue(a, trade))) else o.filled
  }

  /** `after` is the order of entry `a` once `volume` has reached it. */
  predicate AfterTrade(o: Order, a: ActiveOrder, trade: MarketEvent, volume: int, after: Order)
    requires trade.Trade?
  {
    && after.filled == FilledAfter(o, a, trade, volume)
    && after == Traded(o, after.filled - o.filled)
  }

  /** Entry `j` of `e` after the trade, in the state `g` that still lists every entry. */
  predicate EntryDone(e: Exec, g: Exec, j: nat, trade: MarketEvent)
    requires trade.Trade? && j < |e.active| == |g.active| && |e.orders| == |g.orders|
  {
    var a := e.active[j];
    var volume := Reaching(e.orders, e.active[..j], trade);
    && g.active[j] == a.(queue := QueueAfter(a, trade, volume))
    && (1 <= a.id <= |e.orders| ==> AfterTrade(e.orders[a.id - 1], a, trade, volume, g.orders[a.id - 1]))
  }

  predicate EntryUntouched(e: Exec, g: Exec, j: nat)
    requires j < |e.active| == |g.active| && |e.orders| == |g.orders|
  {
    g.active[j] == e.active[j] && (1 <= e.active[j].id <= |e.orders| ==> g.orders[e.active[j].id - 1] == e.orders[e.active[j].id - 1])
  }

  /** The state of the loop after `i` entries. */
  predicate Progress(e: Exec, run: Allocation, i: nat, trade: MarketEvent)
    requires trade.Trade?
  {
    && i <= |e.active| == |run.exec.active| && |e.orders| == |run.exec.orders|
    && run.volume == Reaching(e.orders, e.active[..i], trade)
    && (forall j :: 0 <= j < i ==> EntryDone(e, run.exec, j, trade))
    && (forall j :: i <= j < |e.active| ==> EntryUntouched(e, run.exec, j))
    && (forall id {:trigger IsActive(e.active, id)} ::
      1 <= id <= |e.orders| && !IsActive(e.active, id) ==> run.exec.orders[id - 1] == e.orders[id - 1])
  }

  /** One iteration changes entry `i` and its order, by the closed form, and nothing else. */
  predicate OneDone(run: Allocation, next: Allocation, i: nat, trade: MarketEvent)
    requires trade.Trade? && i < |run.exec.active| && 1 <= run.exec.active[i].id <= |run.exec.orders|
  {
    var a := run.exec.active[i];
    && |next.exec.orders| == |run.exec.orders|
    && next.exec.active == run.exec.active[i := a.(queue := QueueAfter(a, trade, run.volume))]
    && next.exec.orders == run.exec.orders[a.id - 1 := next.exec.orders[a.id - 1]]
    && AfterTrade(run.exec.orders[a.id - 1], a, trade, run.volume, next.exec.orders[a.id - 1])
    && next.volume == Max(0, run.volume - Capacity(run.exec.orders, a, trade))
  }

  lemma {:induction false} AllocateOneDone(cfg: ExecConfig, run: Allocation, i: nat, trade: MarketEvent)
    requires ConfigOk(cfg) && MidInv(run.exec) && trade.Trade? && i < |run.exec.active| && 0 < run.volume
    requires 1 <= run.exec.active[i].id <= |run.exec.orders|
    requires IsResting(run.exec.orders[run.exec.active[i].id - 1].status)
    requires AllocateOne(cfg, run, i, trade).Done?
    ensures OneDone(run, AllocateOne(cfg, run, i, trade).value, i, trade)
  {
    hide MidInv, Qualifies, TradeThrough, FillPassive;
    var a := run.exec.active[i];
    EntryKnown(run.exec, i);
    assert run.exec.active[i := a] == run.exec.active;
    assert run.exec.orders[a.id - 1 := run.exec.orders[a.id - 1]] == run.exec.orders;
    RemainingPositive(run.exec, a.id);
    var queued := ConsumeQueue(run, i, trade);
    if Qualifies(a, trade) && queued.volume > 0 && queued.exec.active[i].queue == 0 {
      ConsumeQueueKeeps(run, i, trade);
      AllocatedMid(run, queued, trade.key.timestamp);
      FillPassiveKeeps(cfg, queued.exec, i, trade, queued.volume);
    }
  }

  lemma {:induction false} RemainingPositive(e: Exec, id: int)
    requires MidInv(e) && 1 <= id <= |e.orders| && IsResting(e.orders[id - 1].status)
    ensures 0 < e.orders[id - 1].Remaining()
  {
    assert OrderOk(e.orders[id - 1]);
  }

  lemma {:induction false} CapacityNonNegative(e: Exec, i: nat, trade: MarketEvent)
    requires MidInv(e) && trade.Trade? && i < |e.active|
    ensures 0 <= Capacity(e.orders, e.active[i], trade) && 0 <= EffectiveQueue(e.active[i], trade)
    ensures 1 <= e.active[i].id <= |e.orders| && 0 <= e.orders[e.active[i].id - 1].Remaining()
  {
    assert ActiveOk(e.orders, e.active[i]);
    assert OrderOk(e.orders[e.active[i].id - 1]);
  }

  lemma {:induction false} ReachingNext(e: Exec, i: nat, trade: MarketEvent)
    requires MidInv(e) && trade.Trade? && i < |e.active|
    ensures Reaching(e.orders, e.active[..i + 1], trade)
         == Max(0, Reaching(e.orders, e.active[..i], trade) - Capacity(e.orders, e.active[i], trade))
  {
    hide MidInv, Capacity;
    CapacityNonNegative(e, i, trade);
    assert e.active[..i + 1][..i] == e.active[..i];
  }

  lemma {:induction false} ProgressStep(e: Exec, run: Allocation, next: Allocation, i: nat, trade: MarketEvent)
    requires MidInv(e) && trade.Trade? && i < |e.active| && Progress(e, run, i, trade)
    requires 1 <= run.exec.active[i].id <= |run.exec.orders| && OneDone(run, next, i, trade)
    ensures Progress(e, next, i + 1, trade)
  {
    hide OrdersInv, AllAgree, AllLive, RestingListed, FillsInv, QueueAfter, AfterTrade, Reaching;
    ReachingNext(e, i, trade);
    assert EntryUntouched(e, run.exec, i);
    assert IsActive(e.active, e.active[i].id);
    forall j | 0 <= j < i
      ensures EntryDone(e, next.exec, j, trade)
    {
      assert EntryDone(e, run.exec, j, trade) && e.active[j].id != e.active[i].id;
    }
    forall j | i + 1 <= j < |e.active|
      ensures EntryUntouched(e, next.exec, j)
    {
      assert EntryUntouched(e, run.exec, j) && e.active[j].id != e.active[i].id;
    }
  }

  /** Once the volume is used up every remaining entry is already in its final state. */
  lemma {:induction false} ProgressRest(e: Exec, run: Allocation, i: nat, trade: MarketEvent)
    requires MidInv(e) && trade.Trade? && Progress(e, run, i, trade) && run.volume == 0
    ensures Progress(e, run, |e.active|, trade)
    decreases |e.active| - i
  {
    hide MidInv, Capacity, Reaching;
    if i < |e.active| {
      ReachingNext(e, i, trade);
      CapacityNonNegative(e, i, trade);
      assert EntryUntouched(e, run.exec, i);
      assert EntryDone(e, run.exec, i, trade);
      ProgressRest(e, run, i + 1, trade);
    }
  }

  lemma {:induction false} AllocateProgress(cfg: ExecConfig, e: Exec, run: Allocation, i: nat, trade: MarketEvent)
    requires ConfigOk(cfg) && trade.Trade? && ExecInv(e) && MidInv(run.exec) && 0 <= run.volume
    requires Progress(e, run, i, trade) && AllocateFrom(cfg, run, i, trade).Done?
    ensures Progress(e, AllocateFrom(cfg, run, i, trade).value, |e.active|, trade)
    decreases |e.active| - i
  {
    hide MidInv, NoneFilled, AllocateOne, Progress, OneDone;
    ProgressSize(e, run, i, trade);
    if run.volume == 0 {
      ProgressRest(e, run, i, trade);
    } else if i < |e.active| {
      UntouchedResting(e, run, i, trade);
      AllocateOneDone(cfg, run, i, trade);
      AllocateOneKeeps(cfg, run, i, trade);
      var next := AllocateOne(cfg, run, i, trade).value;
      AllocatedMid(run, next, trade.key.timestamp);
      ProgressStep(e, run, next, i, trade);
      AllocateProgress(cfg, e, next, i + 1, trade);
    }
  }

  lemma {:induction false} ProgressSize(e: Exec, run: Allocation, i: nat, trade: MarketEvent)
    requires trade.Trade? && Progress(e, run, i, trade)
    ensures i <= |e.active| == |run.exec.active| && |e.orders| == |run.exec.orders|
  {
  }

  lemma {:induction false} UntouchedResting(e: Exec, run: Allocation, i: nat, trade: MarketEvent)
    requires trade.Trade? && ExecInv(e) && i < |e.active| && Progress(e, run, i, trade)
    ensures run.exec.active[i] == e.active[i] && 1 <= e.active[i].id <= |e.orders|
    ensures IsResting(run.exec.orders[e.active[i].id - 1].status)
  {
    hide OrdersInv, AllAgree, AllLive, RestingListed, FillsInv, DistinctIds;
    assert EntryUntouched(e, run.exec, i);
  }

  // ---- Main results ----

  /** Every entry with the queue the trade leaves it. */
  function Requeued(e: Exec, trade: MarketEvent): (active: seq<ActiveOrder>)
    requires trade.Trade?
    ensures |active| == |e.active|
  {
    seq(|e.active|, j requires 0 <= j < |e.active| =>
      e.active[j].(queue := QueueAfter(e.active[j], trade, Reaching(e.orders, e.active[..j], trade))))
  }

  /** `f` is `e` after the trade: each order's filled quantity and each queue follow from the volume
      the entries ahead leave over, and exactly the entries still resting stay, in order. */
  predicate TradeEffect(e: Exec, f: Exec, trade: MarketEvent)
    requires trade.Trade?
  {
    && |f.orders| == |e.orders|
    && (forall j :: 0 <= j < |e.active| && 1 <= e.active[j].id <= |e.orders| ==>
      AfterTrade(e.orders[e.active[j].id - 1], e.active[j], trade, Reaching(e.orders, e.active[..j], trade),
                 f.orders[e.active[j].id - 1]))
    && (forall id {:trigger IsActive(e.active, id)} ::
      1 <= id <= |e.orders| && !IsActive(e.active, id) ==> f.orders[id - 1] == e.orders[id - 1])
    && Retained(f.orders, Requeued(e, trade)) == Done(f.active)
  }

  lemma {:induction false} StartProgress(e: Exec, trade: MarketEvent)
    requires MidInv(e) && trade.Trade? && 0 <= trade.quantity
    ensures Progress(e, Allocation(e, trade.quantity), 0, trade)
  {
  }

  lemma {:induction false} EndProgress(e: Exec, run: Allocation, f: Exec, trade: MarketEvent)
    requires trade.Trade? && Progress(e, run, |e.active|, trade)
    requires f.orders == run.exec.orders && Retained(f.orders, run.exec.active) == Done(f.active)
    ensures TradeEffect(e, f, trade)
  {
    hide QueueAfter, AfterTrade, Reaching;
    forall j | 0 <= j < |e.active|
      ensures run.exec.active[j] == Requeued(e, trade)[j]
    {
      assert EntryDone(e, run.exec, j, trade);
    }
    assert run.exec.active == Requeued(e, trade);
    forall j | 0 <= j < |e.active| && 1 <= e.active[j].id <= |e.orders|
      ensures AfterTrade(e.orders[e.active[j].id - 1], e.active[j], trade, Reaching(e.orders, e.active[..j], trade),
                         f.orders[e.active[j].id - 1])
    {
      assert EntryDone(e, run.exec, j, trade);
    }
  }

  /** The loop of `process_trade`, with its early exit and its in-place updates, computes the closed
      form. */
  lemma {:induction false} TradeClosedForm(cfg: ExecConfig, e: Exec, trade: MarketEvent)
    requires ConfigOk(cfg) && ExecInv(e) && trade.Trade? && EventOk(trade)
    requires TradeResult(cfg, e, trade).Done?
    ensures if trade.quantity == 0 || trade.aggressor.None? then TradeResult(cfg, e, trade).value == e
            else TradeEffect(e, TradeResult(cfg, e, trade).value, trade)
  {
    hide MidInv, NoneFilled, Progress, AllocateFrom, Retained, TradeEffect;
    if trade.quantity != 0 && trade.aggressor.Some? {
      StartProgress(e, trade);
      AllocateProgress(cfg, e, Allocation(e, trade.quantity), 0, trade);
      var run := AllocateFrom(cfg, Allocation(e, trade.quantity), 0, trade).value;
      EndProgress(e, run, TradeResult(cfg, e, trade).value, trade);
    }
  }

  /** What a trade whose volume reaches a resting order does to it, by price alone: traded through, the
      queue ahead is gone and the order fills from all of the volume; traded at its limit, the queue takes
      its share first; otherwise, or if the trade was not against its side, nothing changes. A complete
      order becomes Filled, an acknowledged one that fills in part PartiallyFilled. */
  predicate FilledByPrice(o: Order, queue: int, trade: MarketEvent, volume: int, after: Order, queueAfter: int)
    requires trade.Trade?
  {
    var hits := trade.aggressor == Some(if o.side.Buy? then Sell else Buy) && 0 < volume;
    && o.limit.Some?
    && var beyond := if o.side.Buy? then trade.price < o.limit.value else o.limit.value < trade.price;
    && after.filled - o.filled
       == (if hits && beyond then Min(o.Remaining(), volume)
           else if hits && trade.price == o.limit.value then Min(o.Remaining(), Max(0, volume - queue))
           else 0)
    && queueAfter
       == (if hits && beyond then 0
           else if hits && trade.price == o.limit.value then Max(0, queue - volume)
           else queue)
    && after.history
       == o.history + (if after.filled == o.filled then []
                       else if after.filled == o.original then [Filled]
                       else if o.status.Acknowledged? then [PartiallyFilled]
                       else [])
  }

  lemma {:induction false} OrderAfterTrade(e: Exec, f: Exec, trade: MarketEvent, j: nat)
    requires ExecInv(e) && trade.Trade? && TradeEffect(e, f, trade)
    requires j < |e.active| && 1 <= e.active[j].id <= |e.orders| && |f.orders| == |e.orders|
    ensures FilledByPrice(e.orders[e.active[j].id - 1], e.active[j].queue, trade, Reaching(e.orders, e.active[..j], trade),
                          f.orders[e.active[j].id - 1], Requeued(e, trade)[j].queue)
  {
    hide Reaching, Retained, FillsInv, RestingListed, DistinctIds, AllLive, NoneFilled, IsPath;
    EntryAgrees(e, j);
    ReachingSign(e.orders, e.active[..j], trade);
    var o := e.orders[e.active[j].id - 1];
    assert o.history + [] == o.history;
  }

  lemma {:induction false} ReachingSign(orders: seq<Order>, ahead: seq<ActiveOrder>, trade: MarketEvent)
    requires trade.Trade?
    ensures 0 <= Reaching(orders, ahead, trade)
  {
  }

  /** The volume the first `k` entries absorbed, read off the two states: queue consumed plus filled. */
  function Absorbed(e: Exec, f: Exec, trade: MarketEvent, k: nat): int
    requires trade.Trade? && k <= |e.active| && |e.orders| == |f.orders|
    requires forall j :: 0 <= j < |e.active| ==> 1 <= e.active[j].id <= |e.orders|
  {
    if k == 0 then 0
    else
      var a := e.active[k - 1];
      var reached := Qualifies(a, trade) && 0 < Reaching(e.orders, e.active[..k - 1], trade);
      Absorbed(e, f, trade, k - 1)
      + (if reached then EffectiveQueue(a, trade) - Requeued(e, trade)[k - 1].queue else 0)
      + f.orders[a.id - 1].filled - e.orders[a.id - 1].filled
  }

  lemma {:induction false} CapacityMonotone(e: Exec, j: nat, k: nat, trade: MarketEvent)
    requires MidInv(e) && trade.Trade? && j <= k <= |e.active|
    ensures 0 <= CapacityOf(e.orders, e.active[..j], trade) <= CapacityOf(e.orders, e.active[..k], trade)
    decreases k
  {
    hide MidInv, Capacity;
    if k > 0 {
      assert e.active[..k][..k - 1] == e.active[..k - 1];
      CapacityNonNegative(e, k - 1, trade);
      CapacityMonotone(e, if j < k then j else k - 1, k - 1, trade);
    }
  }

  /** An entry reached by `volume` absorbs as much of it as it has capacity for. */
  lemma {:induction false} EntryAbsorbs(o: Order, a: ActiveOrder, trade: MarketEvent, volume: int)
    requires trade.Trade? && 0 <= volume && 0 <= EffectiveQueue(a, trade) && 0 <= o.Remaining()
    ensures (if Qualifies(a, trade) && 0 < volume then EffectiveQueue(a, trade) - QueueAfter(a, trade, volume) else 0)
            + FilledAfter(o, a, trade, volume) - o.filled
         == Min(volume, if Qualifies(a, trade) then EffectiveQueue(a, trade) + o.Remaining() else 0)
  {
    hide Qualifies, TradeThrough;
  }

  lemma {:induction false} AbsorbedNext(e: Exec, f: Exec, trade: MarketEvent, k: nat)
    requires ExecInv(e) && trade.Trade? && TradeEffect(e, f, trade) && 0 < k <= |e.active|
    requires forall j :: 0 <= j < |e.active| ==> 1 <= e.active[j].id <= |e.orders|
    ensures Absorbed(e, f, trade, k)
         == Absorbed(e, f, trade, k - 1)
            + Min(Reaching(e.orders, e.active[..k - 1], trade), Capacity(e.orders, e.active[k - 1], trade))
  {
    hide MidInv, NoneFilled, Qualifies, TradeThrough, Retained, EffectiveQueue, QueueAfter, FilledAfter, CapacityOf;
    var a := e.active[k - 1];
    CapacityNonNegative(e, k - 1, trade);
    EntryAbsorbs(e.orders[a.id - 1], a, trade, Reaching(e.orders, e.active[..k - 1], trade));
    EntryFilled(e, f, trade, k - 1);
  }

  lemma {:induction false} EntryFilled(e: Exec, f: Exec, trade: MarketEvent, j: nat)
    requires trade.Trade? && TradeEffect(e, f, trade) && j < |e.active| && 1 <= e.active[j].id <= |e.orders|
    ensures |f.orders| == |e.orders|
    ensures f.orders[e.active[j].id - 1].filled
         == FilledAfter(e.orders[e.active[j].id - 1], e.active[j], trade, Reaching(e.orders, e.active[..j], trade))
  {
    hide FilledAfter, Reaching, Retained;
  }

  /** Greedy allocation: the first `k` entries together absorb the smaller of the trade's volume and
      their total capacity. */
  lemma {:induction false} GreedyAllocation(e: Exec, f: Exec, trade: MarketEvent, k: nat)
    requires ExecInv(e) && trade.Trade? && EventOk(trade) && TradeEffect(e, f, trade) && k <= |e.active|
    requires forall j :: 0 <= j < |e.active| ==> 1 <= e.active[j].id <= |e.orders|
    ensures Absorbed(e, f, trade, k) == Min(trade.quantity, CapacityOf(e.orders, e.active[..k], trade))
  {
    hide MidInv, NoneFilled, Capacity, TradeEffect, Requeued;
    if k > 0 {
      GreedyAllocation(e, f, trade, k - 1);
      AbsorbedNext(e, f, trade, k);
      CapacityNonNegative(e, k - 1, trade);
      CapacityMonotone(e, k - 1, k, trade);
      assert e.active[..k][..k - 1] == e.active[..k - 1];
    }
  }

  /** Strict priority by registry order: volume reaches an entry, or fills its order, only if every
      qualifying order registered before it ends up completely filled. */
  lemma {:induction false} StrictPriority(e: Exec, f: Exec, trade: MarketEvent, i: nat, j: nat)
    requires ExecInv(e) && trade.Trade? && EventOk(trade) && TradeEffect(e, f, trade) && i < j < |e.active|
    requires forall k :: 0 <= k < |e.active| ==> 1 <= e.active[k].id <= |e.orders|
    requires Qualifies(e.active[i], trade)
    requires 0 < Reaching(e.orders, e.active[..j], trade)
          || f.orders[e.active[j].id - 1].filled != e.orders[e.active[j].id - 1].filled
    ensures f.orders[e.active[i].id - 1].filled == e.orders[e.active[i].id - 1].original
  {
    hide MidInv, NoneFilled, Qualifies, TradeThrough, TradeEffect;
    EntryFilled(e, f, trade, i);
    EntryFilled(e, f, trade, j);
    CapacityNonNegative(e, i, trade);
    CapacityNonNegative(e, j, trade);
    CapacityMonotone(e, i + 1, j, trade);
    ReachingNext(e, i, trade);
  }

  // ---- When a trade is refused ----

  /** The rounded fee of what entry `j` fills fits 64 bits. */
  predicate EntryFeeFits(ppm: int, e: Exec, j: nat, trade: MarketEvent)
    requires trade.Trade? && j < |e.active| && 1 <= e.active[j].id <= |e.orders|
  {
    var a, o := e.active[j], e.orders[e.active[j].id - 1];
    var filled := FilledAfter(o, a, trade, Reaching(e.orders, e.active[..j], trade)) - o.filled;
    RoundedRate(ppm, a.limit * filled) <= INT64_MAX
  }

  lemma {:induction false} PassiveAccepted(cfg: ExecConfig, e: Exec, i: nat, trade: MarketEvent, left: int)
    requires ConfigOk(cfg) && MidInv(e) && trade.Trade? && i < |e.active| && 0 < left
    requires e.active[i].queue == 0 && IsResting(e.orders[e.active[i].id - 1].status)
    ensures var o := e.orders[e.active[i].id - 1];
      FillPassive(cfg, e, i, e.active[i].id - 1, trade, left).Done? <==>
        RoundedRate(cfg.feePpm, e.active[i].limit * Min(o.Remaining(), left)) <= INT64_MAX
  {
    hide IsPath, ActiveInv, FillsInv, FillFor, RoundedRate;
    EntryAgrees(e, i);
    var a := e.active[i];
    var o := e.orders[a.id - 1];
    FillMeaning(cfg.feePpm, o, a.limit, Min(o.Remaining(), left), trade.key.timestamp, e.nextFill);
    SettlePassiveOk(o, Min(o.Remaining(), left));
  }

  lemma {:induction false} NoFee(ppm: int)
    ensures RoundedRate(ppm, 0) == 0
  {
  }

  lemma {:induction false} AllocateOneAccepted(cfg: ExecConfig, run: Allocation, i: nat, trade: MarketEvent)
    requires ConfigOk(cfg) && MidInv(run.exec) && trade.Trade? && i < |run.exec.active| && 0 < run.volume
    requires 1 <= run.exec.active[i].id <= |run.exec.orders|
    requires IsResting(run.exec.orders[run.exec.active[i].id - 1].status)
    ensures var a, o := run.exec.active[i], run.exec.orders[run.exec.active[i].id - 1];
      AllocateOne(cfg, run, i, trade).Done? <==>
        RoundedRate(cfg.feePpm, a.limit * (FilledAfter(o, a, trade, run.volume) - o.filled)) <= INT64_MAX
  {
    hide MidInv, Qualifies, TradeThrough, FillPassive, RoundedRate;
    var a := run.exec.active[i];
    EntryKnown(run.exec, i);
    RemainingPositive(run.exec, a.id);
    NoFee(cfg.feePpm);
    var queued := ConsumeQueue(run, i, trade);
    if Qualifies(a, trade) && queued.volume > 0 && queued.exec.active[i].queue == 0 {
      ConsumeQueueKeeps(run, i, trade);
      AllocatedMid(run, queued, trade.key.timestamp);
      PassiveAccepted(cfg, queued.exec, i, trade, queued.volume);
    } else {
      assert a.limit * 0 == 0;
    }
  }

  /** Behind an exhausted trade nothing fills. */
  lemma {:induction false} NothingReaches(ppm: int, e: Exec, i: nat, trade: MarketEvent)
    requires MidInv(e) && trade.Trade? && i <= |e.active| && Reaching(e.orders, e.active[..i], trade) == 0
    requires forall j :: 0 <= j < |e.active| ==> 1 <= e.active[j].id <= |e.orders|
    ensures forall j :: i <= j < |e.active| ==> EntryFeeFits(ppm, e, j, trade)
  {
    hide MidInv, RoundedRate, CapacityOf;
    NoFee(ppm);
    forall j | i <= j < |e.active|
      ensures EntryFeeFits(ppm, e, j, trade)
    {
      CapacityMonotone(e, i, j, trade);
      CapacityNonNegative(e, j, trade);
      var a, o := e.active[j], e.orders[e.active[j].id - 1];
      assert FilledAfter(o, a, trade, 0) == o.filled;
      assert a.limit * 0 == 0;
    }
  }

  lemma {:induction false} AllocationAccepted(cfg: ExecConfig, e: Exec, run: Allocation, i: nat, trade: MarketEvent)
    requires ConfigOk(cfg) && trade.Trade? && ExecInv(e) && MidInv(run.exec) && 0 <= run.volume
    requires Progress(e, run, i, trade)
    requires forall j :: 0 <= j < |e.active| ==> 1 <= e.active[j].id <= |e.orders|
    ensures AllocateFrom(cfg, run, i, trade).Done? <==> forall j :: i <= j < |e.active| ==> EntryFeeFits(cfg.feePpm, e, j, trade)
    decreases |e.active| - i
  {
    hide MidInv, NoneFilled, AllocateOne, Progress, OneDone, EntryFeeFits, Reaching;
    ProgressSize(e, run, i, trade);
    ProgressVolume(e, run, i, trade);
    if run.volume == 0 {
      NothingReaches(cfg.feePpm, e, i, trade);
    } else if i < |e.active| {
      UntouchedResting(e, run, i, trade);
      UntouchedOrder(e, run, i, trade);
      AllocateOneAccepted(cfg, run, i, trade);
      EntryFee(cfg.feePpm, e, run, i, trade);
      if AllocateOne(cfg, run, i, trade).Done? {
        AllocateOneDone(cfg, run, i, trade);
        AllocateOneKeeps(cfg, run, i, trade);
        var next := AllocateOne(cfg, run, i, trade).value;
        AllocatedMid(run, next, trade.key.timestamp);
        ProgressStep(e, run, next, i, trade);
        AllocationAccepted(cfg, e, next, i + 1, trade);
      }
    }
  }

  lemma {:induction false} ProgressVolume(e: Exec, run: Allocation, i: nat, trade: MarketEvent)
    requires trade.Trade? && Progress(e, run, i, trade)
    ensures run.volume == Reaching(e.orders, e.active[..i], trade)
  {
  }

  lemma {:induction false} UntouchedOrder(e: Exec, run: Allocation, i: nat, trade: MarketEvent)
    requires trade.Trade? && i < |e.active| && Progress(e, run, i, trade) && 1 <= e.active[i].id <= |e.orders|
    ensures run.exec.active[i] == e.active[i] && run.exec.orders[e.active[i].id - 1] == e.orders[e.active[i].id - 1]
  {
    assert EntryUntouched(e, run.exec, i);
  }

  lemma {:induction false} EntryFee(ppm: int, e: Exec, run: Allocation, i: nat, trade: MarketEvent)
    requires trade.Trade? && i < |e.active| && 1 <= e.active[i].id <= |e.orders|
    requires run.volume == Reaching(e.orders, e.active[..i], trade)
    ensures var a, o := e.active[i], e.orders[e.active[i].id - 1];
      EntryFeeFits(ppm, e, i, trade) <==>
        RoundedRate(ppm, a.limit * (FilledAfter(o, a, trade, run.volume) - o.filled)) <= INT64_MAX
  {
  }

  /** A trade throws exactly when the fee of one of the fills it makes does not fit 64 bits. */
  lemma {:induction false} TradeAccepted(cfg: ExecConfig, e: Exec, trade: MarketEvent)
    requires ConfigOk(cfg) && ExecInv(e) && trade.Trade? && EventOk(trade) && trade.quantity != 0
    requires trade.aggressor.Some?
    requires forall j :: 0 <= j < |e.active| ==> 1 <= e.active[j].id <= |e.orders|
    ensures TradeResult(cfg, e, trade).Done? <==> forall j :: 0 <= j < |e.active| ==> EntryFeeFits(cfg.feePpm, e, j, trade)
  {
    hide MidInv, NoneFilled, Progress, AllocateFrom, Retained, EntryFeeFits;
    StartProgress(e, trade);
    AllocationAccepted(cfg, e, Allocation(e, trade.quantity), 0, trade);
    AllocateKeeps(cfg, Allocation(e, trade.quantity), 0, trade);
    var run := AllocateFrom(cfg, Allocation(e, trade.quantity), 0, trade);
    if run.Done? {
      RemovalInstalls(e, run.value.exec);
    }
  }
}
