/** The registry invariant: what every handler of the execution component keeps, and the only
    exceptions it can raise. */
module Registry {
  import opened Types
  import opened OrderBooks
  import opened Orders
  import opened Simulators
  import opened EventLoops
  import opened LatencyExecution

  // ---- Invariant ----

  /** The quantity filled for an order over a fill list. */
  function SumFor(fills: seq<Fill>, id: int): int {
    if fills == [] then 0
    else
      var last := fills[|fills| - 1];
      SumFor(fills[..|fills| - 1], id) + if last.orderId == id then last.quantity else 0
  }

  predicate IsActive(active: seq<ActiveOrder>, id: int) {
    exists j :: 0 <= j < |active| && active[j].id == id
  }

  /** A fill agrees with its order and never violates its limit. */
  predicate FillOk(o: Order, f: Fill) {
    && f.orderId == o.id && f.side == o.side
    && 0 <= f.price && 0 < f.quantity && 0 <= f.fee
    && (o.kind.Limit? && o.limit.Some? ==> Allows(o.side, o.limit.value, f.price))
  }

  predicate OrdersInv(orders: seq<Order>) {
    forall i :: 0 <= i < |orders| ==>
      orders[i].id == i + 1 && OrderOk(orders[i]) && (IsResting(orders[i].status) ==> orders[i].kind.Limit?)
  }

  predicate ActiveOk(orders: seq<Order>, a: ActiveOrder) {
    && 1 <= a.id <= |orders| && 0 <= a.queue
    && var o := orders[a.id - 1];
    o.kind.Limit? && o.side == a.side && o.limit == Some(a.limit) && o.arrival == a.arrival
  }

  predicate AllAgree(orders: seq<Order>, active: seq<ActiveOrder>) {
    forall j :: 0 <= j < |active| ==> ActiveOk(orders, active[j])
  }

  predicate IsLive(status: OrderStatus) {
    IsResting(status) || status.Filled?
  }

  predicate AllLive(orders: seq<Order>, active: seq<ActiveOrder>) {
    forall j :: 0 <= j < |active| ==> 1 <= active[j].id <= |orders| && IsLive(orders[active[j].id - 1].status)
  }

  predicate DistinctIds(active: seq<ActiveOrder>) {
    forall i, j :: 0 <= i < j < |active| ==> active[i].id != active[j].id
  }

  predicate RestingListed(orders: seq<Order>, active: seq<ActiveOrder>) {
    forall id {:trigger IsActive(active, id)} ::
      1 <= id <= |orders| && IsResting(orders[id - 1].status) ==> IsActive(active, id)
  }

  /** Active entries are distinct and agree with their orders; every resting order has one. Until
      `process_trade` removes them, entries of completely filled orders may linger. */
  predicate ActiveInv(orders: seq<Order>, active: seq<ActiveOrder>) {
    AllAgree(orders, active) && AllLive(orders, active) && DistinctIds(active) && RestingListed(orders, active)
  }

  predicate NoneFilled(orders: seq<Order>, active: seq<ActiveOrder>) {
    forall j :: 0 <= j < |active| ==> 1 <= active[j].id <= |orders| && IsResting(orders[active[j].id - 1].status)
  }

  /** Fill ids are 1..n and every fill agrees with its order. */
  predicate FillsAgree(orders: seq<Order>, fills: seq<Fill>) {
    forall k :: 0 <= k < |fills| ==>
      fills[k].sequence == k + 1 && 1 <= fills[k].orderId <= |orders| && FillOk(orders[fills[k].orderId - 1], fills[k])
  }

  /** What is filled of each order is the sum of its fills. */
  predicate SumsAgree(orders: seq<Order>, fills: seq<Fill>) {
    forall i :: 0 <= i < |orders| ==> SumFor(fills, i + 1) == orders[i].filled
  }

  predicate FillsInv(orders: seq<Order>, fills: seq<Fill>) {
    FillsAgree(orders, fills) && SumsAgree(orders, fills)
  }

  /** Holds inside `process_trade`. */
  predicate MidInv(e: Exec) {
    && OrdersInv(e.orders) && ActiveInv(e.orders, e.active) && FillsInv(e.orders, e.fills)
    && e.nextOrder == |e.orders| + 1 && e.nextFill == |e.fills| + 1
  }

  /** Holds between handlers. */
  predicate ExecInv(e: Exec) {
    MidInv(e) && NoneFilled(e.orders, e.active)
  }

  /** Orders only move forward and fills are only appended. */
  predicate Evolves(e: Exec, f: Exec) {
    && |e.orders| <= |f.orders|
    && (forall i :: 0 <= i < |e.orders| ==> Evolved(e.orders[i], f.orders[i]))
    && e.fills <= f.fills
  }

  lemma {:induction false} EvolvesTransitive(d: Exec, e: Exec, f: Exec)
    requires Evolves(d, e) && Evolves(e, f)
    ensures Evolves(d, f)
  {
    forall i | 0 <= i < |d.orders|
      ensures Evolved(d.orders[i], f.orders[i])
    {
      assert Evolved(d.orders[i], e.orders[i]) && Evolved(e.orders[i], f.orders[i]);
    }
  }

  lemma {:induction false} FindById(orders: seq<Order>, id: int, from: nat)
    requires forall i :: 0 <= i < |orders| ==> orders[i].id == i + 1
    requires from <= |orders|
    ensures FindOrder(orders, id, from) == if from < id <= |orders| then Done(id - 1) else Threw(InvalidArgument(UnknownOrder))
    decreases |orders| - from
  {
    if from < |orders| && orders[from].id != id {
      FindById(orders, id, from + 1);
    }
  }

  lemma {:induction false} SumForAppend(a: seq<Fill>, b: seq<Fill>, id: int)
    ensures SumFor(a + b, id) == SumFor(a, id) + SumFor(b, id)
  {
    if b == [] {
      assert a + b == a;
    } else {
      var init := b[..|b| - 1];
      SumForAppend(a, init, id);
      assert (a + b)[..|a + b| - 1] == a + init;
    }
  }

  // ---- Sweeps ----

  /** A fill made by the sweep of `o` on its arrival. */
  predicate SweptFill(o: Order, bound: Option<int>, f: Fill, sequence: int) {
    && f.orderId == o.id && f.side == o.side && f.timestamp == o.arrival && f.sequence == sequence
    && 0 <= f.price && 0 < f.quantity && 0 <= f.fee
    && (bound.Some? ==> Allows(o.side, bound.value, f.price))
  }

  /** `acc` is a sweep of `o` that began with fill id `n`. */
  predicate SweepOf(o: Order, n: int, bound: Option<int>, acc: Sweep) {
    && acc.order == o.(filled := o.filled + SumFor(acc.fills, o.id))
    && 0 <= o.filled && 0 <= acc.order.filled <= o.original
    && acc.nextFill == n + |acc.fills|
    && (forall k :: 0 <= k < |acc.fills| ==> SweptFill(o, bound, acc.fills[k], n + k))
    && (acc.fills == [] <==> acc.order.filled == o.filled)
    && o.filled <= acc.order.filled
  }

  lemma {:induction false} FillForCases(ppm: int, o: Order, price: int, quantity: int, time: int, sequence: int)
    requires 0 <= ppm && 0 <= price && 0 < quantity
    ensures var r := FillFor(ppm, o, price, quantity, time, sequence);
      if r.Threw? then r.error == OverflowError
      else exists fee :: 0 <= fee && r.value == Fill(o.id, o.side, price, quantity, time, sequence, fee)
  {
    assert 0 <= price * quantity;
    if ppm != 0 && price * quantity <= (INT128_MAX - PPM / 2) / ppm {
      assert 0 <= price * quantity * ppm;
    }
    var r := FillFor(ppm, o, price, quantity, time, sequence);
    if r.Done? {
      assert r.value == Fill(o.id, o.side, price, quantity, time, sequence, r.value.fee);
    }
  }

  lemma {:induction false} SweepLevelKeeps(ppm: int, level: PriceLevel, bound: Option<int>, o: Order, n: int,
      acc: Sweep)
    requires 0 <= ppm && 0 <= level.price && 0 < level.quantity
    requires SweepOf(o, n, bound, acc) && 0 < acc.order.Remaining()
    requires bound.Some? ==> Allows(o.side, bound.value, level.price)
    ensures var r := SweepLevel(ppm, level, bound, acc);
      if r.Threw? then r.error == OverflowError else SweepOf(o, n, bound, r.value)
  {
    var quantity := Min(acc.order.Remaining(), level.quantity);
    FillForCases(ppm, acc.order, level.price, quantity, acc.order.arrival, acc.nextFill);
    var r := SweepLevel(ppm, level, bound, acc);
    if r.Done? {
      var fill := r.value.fills[|acc.fills|];
      assert r.value.fills == acc.fills + [fill];
      assert r.value.fills[..|r.value.fills| - 1] == acc.fills;
    }
  }

  lemma {:induction false} SweepKeeps(ppm: int, levels: seq<PriceLevel>, bound: Option<int>, o: Order, n: int,
      acc: Sweep, i: nat)
    requires 0 <= ppm && LevelsOk(levels) && i <= |levels|
    requires SweepOf(o, n, bound, acc)
    ensures var r := SweepFrom(ppm, levels, bound, acc, i);
      if r.Threw? then r.error == OverflowError else SweepOf(o, n, bound, r.value)
    decreases |levels| - i
  {
    if i == |levels| {
    } else if acc.order.Remaining() == 0 {
      SweepKeeps(ppm, levels, bound, o, n, acc, i + 1);
    } else if bound.Some? && !Allows(acc.order.side, bound.value, levels[i].price) {
    } else {
      SweepLevelKeeps(ppm, levels[i], bound, o, n, acc);
      var next := SweepLevel(ppm, levels[i], bound, acc);
      if next.Done? {
        SweepKeeps(ppm, levels, bound, o, n, next.value, i + 1);
      }
    }
  }

  // ---- Arrivals ----

  /** What an arrival leaves of a pending order: a good order, its fills, and whether it rests. */
  predicate ArrivedFrom(o: Order, n: int, arrived: Arrived) {
    && OrderOk(arrived.order) && Evolved(o, arrived.order) && !arrived.order.status.Pending?
    && arrived.order.filled == SumFor(arrived.fills, o.id)
    && (forall k :: 0 <= k < |arrived.fills| ==>
      SweptFill(o, if o.kind.Limit? then o.limit else None, arrived.fills[k], n + k))
    && arrived.exec.nextFill == n + |arrived.fills|
  }

  lemma {:induction false} PathStep(history: seq<OrderStatus>, next: OrderStatus)
    requires IsPath(history) && ValidTransition(history[|history| - 1], next)
    ensures IsPath(history + [next])
  {
  }

  lemma {:induction false} InitialQueueBound(ppm: int, visible: int)
    requires 0 <= ppm <= PPM && IsAmount(visible)
    ensures InitialQueue(ppm, visible).Done? && 0 <= InitialQueue(ppm, visible).value <= visible
  {
    assert 0 <= visible * ppm <= visible * PPM;
  }

  lemma {:induction false} VisibleBound(order: Order, book: Book)
    requires BookOk(book) && order.limit.Some? && 0 <= order.limit.value
    ensures VisibleAtLimit(order, book).Done? && IsAmount(VisibleAtLimit(order, book).value)
  {
    var levels := LevelsOf(book, order.side);
    if QuantityAt(levels, order.limit.value).Some? {
      FoundIsMember(levels, order.limit.value);
    }
  }

  /** A limit arrival rests its remainder as the last active entry, and rests nothing else. */
  lemma {:induction false} LimitArrivalKeeps(cfg: ExecConfig, e: Exec, o: Order, book: Book)
    requires ConfigOk(cfg) && BookOk(book) && OrderOk(o) && o.status.Pending? && o.kind.Limit?
    ensures var r := LimitArrival(cfg, e, o, book);
      if r.Threw? then r.error == OverflowError
      else
        && ArrivedFrom(o, e.nextFill, r.value)
        && if IsResting(r.value.order.status) then
             && |r.value.exec.active| == |e.active| + 1 && r.value.exec.active[..|e.active|] == e.active
             && var a := r.value.exec.active[|e.active|];
               a.id == o.id && a.side == o.side && o.limit == Some(a.limit) && a.arrival == o.arrival && 0 <= a.queue
           else r.value.exec.active == e.active && r.value.order.status.Filled?
  {
    hide SweepFrom, IsPath, LevelsOk, Sorted;
    var acknowledged := Transition(o, Acknowledged).value;
    PathStep(o.history, Acknowledged);
    var start := Sweep(acknowledged, [], e.nextFill, false);
    var depth := OppositeDepth(o.side, book);
    SweepKeeps(cfg.feePpm, depth, o.limit, acknowledged, e.nextFill, start, 0);
    var swept := SweepFrom(cfg.feePpm, depth, o.limit, start, 0);
    if swept.Done? {
      VisibleBound(swept.value.order, book);
      InitialQueueBound(cfg.queuePpm, VisibleAtLimit(swept.value.order, book).value);
      PathStep(acknowledged.history, Filled);
      PathStep(acknowledged.history, PartiallyFilled);
    }
  }

  /** The final status of a swept market order: Filled, or PartiallyFilled then Canceled. */
  lemma {:induction false} SettleMarketOk(o: Order, n: int, swept: Sweep)
    requires OrderOk(o) && o.status.Acknowledged? && SweepOf(o, n, None, swept) && swept.fills != []
    ensures var r := SettleMarket(swept);
      r.Done? && OrderOk(r.value) && IsTerminal(r.value.status)
      && SameTerms(o, r.value) && r.value.filled == swept.order.filled && o.history <= r.value.history
  {
    PathStep(o.history, Filled);
    PathStep(o.history, PartiallyFilled);
    PathStep(o.history + [PartiallyFilled], Canceled);
  }

  lemma {:induction false} MarketArrivalKeeps(ppm: int, o: Order, book: Book, n: int)
    requires 0 <= ppm && BookOk(book) && OrderOk(o) && o.status.Pending? && o.kind.Market?
    ensures var r := OrderExecution(ppm, o, book, n);
      if r.Threw? then r.error == OverflowError
      else
        && ArrivedFrom(o, n, Arrived(EMPTY_EXEC.(nextFill := r.value.nextFill), r.value.order, r.value.fills))
        && IsTerminal(r.value.order.status)
  {
    hide SweepFrom, IsPath, LevelsOk, Sorted, SettleMarket;
    var acknowledged := Transition(o, Acknowledged).value;
    var depth := OppositeDepth(o.side, book);
    assert PendingOrder(o) == Done(o);
    PathStep(o.history, Acknowledged);
    PathStep(o.history, Rejected);
    assert OrderOk(acknowledged);
    var start := Sweep(acknowledged, [], n, false);
    if depth != [] {
      SweepKeeps(ppm, depth, None, acknowledged, n, start, 0);
      var swept := SweepFrom(ppm, depth, None, start, 0);
      if swept.Done? {
        MarketTakesSomething(ppm, depth, start);
        SettleMarketOk(acknowledged, n, swept.value);
        assert OrderExecution(ppm, o, book, n)
            == Done(Execution(SettleMarket(swept.value).value, swept.value.fills, swept.value.nextFill));
      }
    }
  }

  /** With positive depth a market sweep of a nonempty order makes at least one fill. */
  lemma {:induction false} MarketTakesSomething(ppm: int, levels: seq<PriceLevel>, start: Sweep)
    requires 0 <= ppm && LevelsOk(levels) && levels != [] && 0 < start.order.Remaining() && start.fills == []
    requires SweepFrom(ppm, levels, None, start, 0).Done?
    ensures SweepFrom(ppm, levels, None, start, 0).value.fills != []
  {
    var next := SweepLevel(ppm, levels[0], None, start);
    assert next.Done? && next.value.fills != [];
    if next.value.order.Remaining() != 0 {
      FillsGrow(ppm, levels, None, next.value, 1);
    }
  }

  lemma {:induction false} FillsGrow(ppm: int, levels: seq<PriceLevel>, bound: Option<int>, acc: Sweep, i: nat)
    requires 0 <= ppm && i <= |levels| && SweepFrom(ppm, levels, bound, acc, i).Done?
    ensures acc.fills <= SweepFrom(ppm, levels, bound, acc, i).value.fills
    decreases |levels| - i
  {
    if i < |levels| {
      if levels[i].quantity == 0 || acc.order.Remaining() == 0 {
        FillsGrow(ppm, levels, bound, acc, i + 1);
      } else if !(bound.Some? && !Allows(acc.order.side, bound.value, levels[i].price)) {
        var next := SweepLevel(ppm, levels[i], bound, acc).value;
        if !(bound.None? && next.order.Remaining() == 0) {
          FillsGrow(ppm, levels, bound, next, i + 1);
        }
      }
    }
  }
}
