/** Each handler of the execution component keeps the registry invariant. */
module RegistrySteps {
  import opened Types
  import opened OrderBooks
  import opened Orders
  import opened Simulators
  import opened EventLoops
  import opened LatencyExecution
  import opened Registry

  // ---- Submission ----

  /** What the C++ types of an intent already guarantee. */
  predicate IntentTyped(intent: Intent) {
    IsInt64(intent.quantity) && IsTime(intent.decision) && (intent.limit.Some? ==> IsInt64(intent.limit.value))
  }

  /** An intent no argument check of submission rejects. */
  predicate IntentOk(intent: Intent, now: int) {
    && IntentTyped(intent) && 0 < intent.quantity
    && (intent.limit.Some? ==> 0 <= intent.limit.value)
    && (intent.kind.Limit? ==> intent.limit.Some?)
    && intent.decision == now
  }

  lemma {:induction false} SumForNone(fills: seq<Fill>, id: int)
    requires forall k :: 0 <= k < |fills| ==> fills[k].orderId != id
    ensures SumFor(fills, id) == 0
  {
    if fills != [] {
      SumForNone(fills[..|fills| - 1], id);
    }
  }

  lemma {:induction false} SubmitKeeps(e: Exec, intent: Intent, latency: int, now: int)
    requires ExecInv(e) && IntentTyped(intent) && 0 <= latency
    ensures var r := Submit(e, intent, latency, now);
      match r
      case Threw(error) => IntentOk(intent, now) ==> error == OverflowError
      case Done(s) =>
        && ExecInv(s.exec) && Evolves(e, s.exec)
        && s.exec.fills == e.fills && s.exec.active == e.active
        && |s.exec.orders| == |e.orders| + 1 && s.exec.orders[..|e.orders|] == e.orders
        && var o := s.exec.orders[|e.orders|];
          o.status.Pending? && s.request == Request(o.arrival, ArrivalEvent(o.id)) && now <= o.arrival
          && o.arrival == intent.decision + latency && o.submit == intent.decision
  {
    hide OrderOk, MidInv, NoneFilled, Evolves;
    var r := Submit(e, intent, latency, now);
    Counters(e);
    if r.Done? {
      assert IsPath([New]);
      PathStep([New], Pending);
      var o := r.value.exec.orders[|e.orders|];
      SubmittedOk(o);
      SubmitInstalls(e, o, r.value.exec);
    }
  }

  lemma {:induction false} Counters(e: Exec)
    requires MidInv(e)
    ensures e.nextOrder == |e.orders| + 1
  {
  }

  lemma {:induction false} SubmittedOk(o: Order)
    requires o.status.Pending? && o.filled == 0 && 0 < o.original <= INT64_MAX && o.history == [New, Pending]
    requires (o.kind.Limit? ==> o.limit.Some?) && (o.limit.Some? ==> 0 <= o.limit.value)
    ensures OrderOk(o)
  {
  }

  lemma {:induction false} SubmitInstalls(e: Exec, o: Order, f: Exec)
    requires ExecInv(e) && OrderOk(o) && o.status.Pending? && o.filled == 0 && o.id == |e.orders| + 1
    requires f == e.(orders := e.orders + [o], nextOrder := e.nextOrder + 1)
    ensures ExecInv(f) && Evolves(e, f)
  {
    hide OrderOk;
    SumForNone(e.fills, |e.orders| + 1);
    assert forall i :: 0 <= i < |e.orders| ==> f.orders[i] == e.orders[i];
    assert OrdersInv(f.orders);
  }

  lemma {:induction false} FindInExec(e: Exec, id: int)
    requires MidInv(e)
    ensures FindOrder(e.orders, id, 0) == if 1 <= id <= |e.orders| then Done(id - 1) else Threw(InvalidArgument(UnknownOrder))
  {
    FindById(e.orders, id, 0);
  }

  // ---- Arrivals ----

  /** The three checks an arrival event has to pass. */
  predicate ArrivalDue(e: Exec, event: Scheduled) {
    && event.event.kind.OrderArrival? && event.event.orderId.Some?
    && 1 <= event.event.orderId.value <= |e.orders|
    && e.orders[event.event.orderId.value - 1].status.Pending?
    && event.timestamp == e.orders[event.event.orderId.value - 1].arrival
  }

  /** `more` are further fills of order `index`, numbered on from `fills`. */
  predicate MoreFills(fills: seq<Fill>, o: Order, more: seq<Fill>) {
    forall k :: 0 <= k < |more| ==> more[k].sequence == |fills| + k + 1 && FillOk(o, more[k])
  }

  lemma {:induction false} FillsAgreeMore(orders: seq<Order>, fills: seq<Fill>, index: nat, order: Order,
      more: seq<Fill>)
    requires FillsAgree(orders, fills) && index < |orders| && SameTerms(orders[index], order) && order.id == index + 1
    requires MoreFills(fills, orders[index], more)
    ensures FillsAgree(orders[index := order], fills + more)
  {
    forall k | 0 <= k < |fills| + |more|
      ensures (fills + more)[k] == if k < |fills| then fills[k] else more[k - |fills|]
    {
    }
  }

  lemma {:induction false} SumsAgreeMore(orders: seq<Order>, fills: seq<Fill>, index: nat, order: Order,
      more: seq<Fill>)
    requires SumsAgree(orders, fills) && index < |orders| && orders[index].id == index + 1
    requires MoreFills(fills, orders[index], more) && order.filled == orders[index].filled + SumFor(more, index + 1)
    ensures SumsAgree(orders[index := order], fills + more)
  {
    var updated := orders[index := order];
    forall i | 0 <= i < |updated|
      ensures SumFor(fills + more, i + 1) == updated[i].filled
    {
      SumForAppend(fills, more, i + 1);
      if i != index {
        SumForNone(more, i + 1);
      }
    }
  }

  /** Replacing one order and appending its fills keeps the fill ledger consistent. */
  lemma {:induction false} FillsInvMore(orders: seq<Order>, fills: seq<Fill>, index: nat, order: Order,
      more: seq<Fill>)
    requires FillsInv(orders, fills) && index < |orders| && SameTerms(orders[index], order) && order.id == index + 1
    requires MoreFills(fills, orders[index], more) && order.filled == orders[index].filled + SumFor(more, index + 1)
    ensures FillsInv(orders[index := order], fills + more)
  {
    hide FillsAgree, SumsAgree, MoreFills;
    FillsAgreeMore(orders, fills, index, order, more);
    SumsAgreeMore(orders, fills, index, order, more);
  }

  lemma {:induction false} FillsInvUpdate(e: Exec, index: nat, arrived: Arrived)
    requires MidInv(e) && index < |e.orders| && e.orders[index].status.Pending?
    requires ArrivedFrom(e.orders[index], e.nextFill, arrived)
    ensures FillsInv(e.orders[index := arrived.order], e.fills + arrived.fills)
  {
    hide IsPath, FillsAgree, SumsAgree, ActiveInv;
    var o := e.orders[index];
    forall k | 0 <= k < |arrived.fills|
      ensures arrived.fills[k].sequence == |e.fills| + k + 1 && FillOk(o, arrived.fills[k])
    {
      assert SweptFill(o, if o.kind.Limit? then o.limit else None, arrived.fills[k], e.nextFill + k);
    }
    FillsInvMore(e.orders, e.fills, index, arrived.order, arrived.fills);
  }

  /** An order that arrives leaves Pending; its fills carry its arrival time; it rests exactly when
      its new status is a resting one, and then behind every order already resting. */
  lemma {:induction false} ArrivalKeeps(cfg: ExecConfig, e: Exec, event: Scheduled, book: Book)
    requires ConfigOk(cfg) && ExecInv(e) && BookOk(book)
    ensures var r := ArrivalResult(cfg, e, event, book);
      match r
      case Threw(error) => ArrivalDue(e, event) ==> error == OverflowError
      case Done(a) =>
        && ArrivalDue(e, event)
        && ExecInv(a.exec) && Evolves(e, a.exec) && a.exec.nextOrder == e.nextOrder
        && var index := event.event.orderId.value - 1;
        && a.exec.orders == e.orders[index := a.order] && !a.order.status.Pending?
        && a.exec.fills == e.fills + a.fills && SweptAt(a.fills, index + 1, event.timestamp)
        && RestsAfter(e.active, a.order, a.exec.active)
        && (if a.order.kind.Limit? then IsLive(a.order.status) else IsTerminal(a.order.status))
  {
    hide Arrive, Evolves, MidInv, NoneFilled;
    if event.event.orderId.Some? {
      var id := event.event.orderId.value;
      FindInExec(e, id);
      if ArrivalDue(e, event) {
        ArrivalInstalls(cfg, e, id - 1, book);
      }
    }
  }

  lemma {:induction false} OrdersInvUpdate(orders: seq<Order>, index: nat, order: Order)
    requires OrdersInv(orders) && index < |orders|
    requires OrderOk(order) && order.id == index + 1 && (IsResting(order.status) ==> order.kind.Limit?)
    ensures OrdersInv(orders[index := order])
  {
    hide OrderOk;
  }

  lemma {:induction false} EvolvedSelf(orders: seq<Order>, index: nat, order: Order)
    requires index < |orders| && Evolved(orders[index], order)
    ensures forall i :: 0 <= i < |orders| ==> Evolved(orders[i], orders[index := order][i])
  {
  }

  /** How an arrival changes the active list. */
  predicate RestsAfter(active: seq<ActiveOrder>, o: Order, after: seq<ActiveOrder>) {
    if IsResting(o.status) then
      && |after| == |active| + 1 && after[..|active|] == active
      && var a := after[|active|];
        a.id == o.id && a.side == o.side && o.limit == Some(a.limit) && a.arrival == o.arrival && 0 <= a.queue
    else after == active
  }

  lemma {:induction false} ListedAfterArrival(orders: seq<Order>, active: seq<ActiveOrder>, index: nat, order: Order,
      after: seq<ActiveOrder>)
    requires RestingListed(orders, active) && index < |orders| && order.id == index + 1
    requires RestsAfter(active, order, after)
    ensures RestingListed(orders[index := order], after)
  {
    var updated := orders[index := order];
    forall id | 1 <= id <= |updated| && IsResting(updated[id - 1].status)
      ensures IsActive(after, id)
    {
      if id == index + 1 {
        assert after[|active|].id == id;
      } else {
        assert IsActive(active, id);
        var j :| 0 <= j < |active| && active[j].id == id;
        assert after[j] == active[j];
      }
    }
  }

  lemma {:induction false} ActiveAfterArrival(orders: seq<Order>, active: seq<ActiveOrder>, index: nat, order: Order,
      after: seq<ActiveOrder>)
    requires ActiveInv(orders, active) && NoneFilled(orders, active)
    requires index < |orders| && orders[index].status.Pending? && order.id == index + 1
    requires SameTerms(orders[index], order) && RestsAfter(active, order, after)
    requires IsResting(order.status) ==> order.kind.Limit?
    ensures ActiveInv(orders[index := order], after) && NoneFilled(orders[index := order], after)
  {
    hide RestingListed;
    ListedAfterArrival(orders, active, index, order, after);
    assert forall j :: 0 <= j < |active| ==> after[j] == active[j] && after[j].id != index + 1;
  }

  lemma {:induction false} ArrivalInstalls(cfg: ExecConfig, e: Exec, index: nat, book: Book)
    requires ConfigOk(cfg) && ExecInv(e) && BookOk(book) && index < |e.orders| && e.orders[index].status.Pending?
    ensures var r := Arrive(cfg, e, e.orders[index], book);
      match r
      case Threw(error) => error == OverflowError
      case Done(a) =>
        var f := a.exec.(orders := e.orders[index := a.order], fills := e.fills + a.fills);
        && ExecInv(f) && Evolves(e, f) && f.nextOrder == e.nextOrder && !a.order.status.Pending?
        && SweptAt(a.fills, index + 1, e.orders[index].arrival) && RestsAfter(e.active, a.order, f.active)
        && (if a.order.kind.Limit? then IsLive(a.order.status) else IsTerminal(a.order.status))
  {
    hide SweepFrom, OrderExecution, QueueAhead;
    var o := e.orders[index];
    assert OrderOk(o) && o.id == index + 1;
    var r := Arrive(cfg, e, o, book);
    if o.kind.Limit? {
      LimitArrivalKeeps(cfg, e, o, book);
    } else {
      MarketArrivalKeeps(cfg.feePpm, o, book, e.nextFill);
    }
    if r.Done? {
      var a := r.value;
      assert ArrivedFrom(o, e.nextFill, a) && a.exec.nextOrder == e.nextOrder;
      FillsInvUpdate(e, index, a);
      OrdersInvUpdate(e.orders, index, a.order);
      EvolvedSelf(e.orders, index, a.order);
      ActiveAfterArrival(e.orders, e.active, index, a.order, a.exec.active);
    }
  }

  /** The fills of one arrival: all of one order, at one time. */
  predicate SweptAt(fills: seq<Fill>, id: int, time: int) {
    forall k :: 0 <= k < |fills| ==> fills[k].orderId == id && fills[k].timestamp == time
  }

  // ---- Cancels ----

  predicate CancelDue(e: Exec, event: Scheduled) {
    event.event.kind.CancelArrival? && event.event.orderId.Some? && 1 <= event.event.orderId.value <= |e.orders|
  }

  predicate RemovedEntry(active: seq<ActiveOrder>, id: int, after: seq<ActiveOrder>) {
    exists slot :: 0 <= slot < |active| && active[slot].id == id && after == RemoveAt(active, slot)
  }

  /** The order is Canceled with its fills kept, and only its active entry is gone. */
  predicate CanceledInto(e: Exec, id: int, f: Exec) {
    && 1 <= id <= |e.orders| && IsResting(e.orders[id - 1].status)
    && Transition(e.orders[id - 1], Canceled).Done?
    && f.orders == e.orders[id - 1 := Transition(e.orders[id - 1], Canceled).value]
    && f.fills == e.fills && f.nextOrder == e.nextOrder && f.nextFill == e.nextFill
    && RemovedEntry(e.active, id, f.active)
  }

  /** A cancel succeeds exactly when its order is resting. */
  lemma {:induction false} CancelKeeps(e: Exec, event: Scheduled)
    requires ExecInv(e)
    ensures var r := CancelResult(e, event);
      && (CancelDue(e, event) ==> (r.Done? <==> IsResting(e.orders[event.event.orderId.value - 1].status)))
      && (CancelDue(e, event) && r.Threw? ==> r.error == InvalidArgument(NotResting))
      && (r.Done? ==> CancelDue(e, event) && CanceledInto(e, event.event.orderId.value, r.value))
      && (r.Done? ==> ExecInv(r.value) && Evolves(e, r.value))
  {
    hide MidInv, NoneFilled, Evolves;
    if event.event.orderId.Some? {
      var id := event.event.orderId.value;
      FindInExec(e, id);
      if CancelDue(e, event) && IsResting(e.orders[id - 1].status) {
        RestingIsActive(e, id);
        CancelInstalls(e, id - 1, FindActive(e.active, id, 0).value);
      }
    }
  }

  lemma {:induction false} ListedAfterCancel(orders: seq<Order>, active: seq<ActiveOrder>, index: nat, order: Order,
      slot: nat)
    requires RestingListed(orders, active) && index < |orders| && slot < |active| && active[slot].id == index + 1
    requires order.status.Canceled?
    ensures RestingListed(orders[index := order], RemoveAt(active, slot))
  {
    var updated, after := orders[index := order], RemoveAt(active, slot);
    forall id | 1 <= id <= |updated| && IsResting(updated[id - 1].status)
      ensures IsActive(after, id)
    {
      assert IsActive(active, id);
      var j :| 0 <= j < |active| && active[j].id == id;
      assert after[if j < slot then j else j - 1].id == id;
    }
  }

  lemma {:induction false} DistinctAfterCancel(active: seq<ActiveOrder>, slot: nat)
    requires DistinctIds(active) && slot < |active|
    ensures DistinctIds(RemoveAt(active, slot))
    ensures forall a {:trigger a in RemoveAt(active, slot)} :: a in RemoveAt(active, slot) ==> a in active && a.id != active[slot].id
  {
  }

  lemma {:induction false} ActiveAfterCancel(orders: seq<Order>, active: seq<ActiveOrder>, index: nat, order: Order,
      slot: nat)
    requires ActiveInv(orders, active) && NoneFilled(orders, active)
    requires index < |orders| && slot < |active| && active[slot].id == index + 1
    requires SameTerms(orders[index], order) && order.status.Canceled?
    ensures ActiveInv(orders[index := order], RemoveAt(active, slot))
    ensures NoneFilled(orders[index := order], RemoveAt(active, slot))
  {
    hide RestingListed, DistinctIds, RemoveAt;
    ListedAfterCancel(orders, active, index, order, slot);
    DistinctAfterCancel(active, slot);
    var updated, after := orders[index := order], RemoveAt(active, slot);
    forall j | 0 <= j < |after|
      ensures ActiveOk(updated, after[j]) && IsResting(updated[after[j].id - 1].status)
    {
      assert after[j] in after;
      var k :| 0 <= k < |active| && active[k] == after[j];
    }
  }

  lemma {:induction false} RestingIsActive(e: Exec, id: int)
    requires MidInv(e) && 1 <= id <= |e.orders| && IsResting(e.orders[id - 1].status)
    ensures FindActive(e.active, id, 0).Done?
  {
    assert IsActive(e.active, id);
  }

  lemma {:induction false} CancelInstalls(e: Exec, index: nat, slot: nat)
    requires ExecInv(e) && index < |e.orders| && IsResting(e.orders[index].status)
    requires slot < |e.active| && e.active[slot].id == index + 1
    ensures var o := Transition(e.orders[index], Canceled);
      && o.Done?
      && var f := e.(orders := e.orders[index := o.value], active := RemoveAt(e.active, slot));
        ExecInv(f) && Evolves(e, f)
  {
    var o := Transition(e.orders[index], Canceled).value;
    PathStep(e.orders[index].history, Canceled);
    assert OrderOk(o);
    OrdersInvUpdate(e.orders, index, o);
    EvolvedSelf(e.orders, index, o);
    ActiveAfterCancel(e.orders, e.active, index, o, slot);
    SameSums(e.orders, e.orders[index := o], e.fills);
  }

  /** The fill ledger depends on the terms and filled quantities only. */
  lemma {:induction false} SameSums(orders: seq<Order>, updated: seq<Order>, fills: seq<Fill>)
    requires FillsInv(orders, fills) && |orders| == |updated|
    requires forall i :: 0 <= i < |orders| ==> SameTerms(orders[i], updated[i]) && orders[i].filled == updated[i].filled
    ensures FillsInv(updated, fills)
  {
  }

  // ---- Trades ----

  /** Only queue positions differ. */
  predicate SameEntries(a: seq<ActiveOrder>, b: seq<ActiveOrder>) {
    |a| == |b| && forall j :: 0 <= j < |a| ==> b[j] == a[j].(queue := b[j].queue)
  }

  lemma {:induction false} ListedAfterRequeue(orders: seq<Order>, active: seq<ActiveOrder>, i: nat, queue: int)
    requires RestingListed(orders, active) && i < |active|
    ensures RestingListed(orders, active[i := active[i].(queue := queue)])
  {
    var after := active[i := active[i].(queue := queue)];
    forall id | 1 <= id <= |orders| && IsResting(orders[id - 1].status)
      ensures IsActive(after, id)
    {
      assert IsActive(active, id);
      var j :| 0 <= j < |active| && active[j].id == id;
      assert after[j].id == id;
    }
  }

  lemma {:induction false} RequeueKeeps(orders: seq<Order>, active: seq<ActiveOrder>, i: nat, queue: int)
    requires ActiveInv(orders, active) && i < |active| && 0 <= queue
    ensures ActiveInv(orders, active[i := active[i].(queue := queue)])
  {
    hide RestingListed;
    ListedAfterRequeue(orders, active, i, queue);
  }

  lemma {:induction false} SettlePassiveOk(o: Order, quantity: int)
    requires OrderOk(o) && IsResting(o.status) && 0 < quantity <= o.Remaining()
    ensures var r := SettlePassive(RecordFill(o, quantity).value);
      && r.Done? && OrderOk(r.value) && Evolved(o, r.value) && r.value.filled == o.filled + quantity
      && (r.value.status.PartiallyFilled? || r.value.status.Filled?)
  {
    PathStep(o.history, Filled);
    if o.status.Acknowledged? {
      PathStep(o.history, PartiallyFilled);
    }
  }

  lemma {:induction false} ActiveAfterFill(orders: seq<Order>, active: seq<ActiveOrder>, index: nat, order: Order)
    requires ActiveInv(orders, active) && index < |orders| && SameTerms(orders[index], order)
    requires IsResting(orders[index].status) && (IsResting(order.status) || order.status.Filled?)
    ensures ActiveInv(orders[index := order], active)
  {
  }

  lemma {:induction false} FillsInvAppend(orders: seq<Order>, fills: seq<Fill>, index: nat, order: Order, fill: Fill)
    requires FillsInv(orders, fills) && index < |orders| && SameTerms(orders[index], order)
    requires order.id == index + 1 && FillOk(orders[index], fill) && fill.sequence == |fills| + 1
    requires order.filled == orders[index].filled + fill.quantity
    ensures FillsInv(orders[index := order], fills + [fill])
  {
    hide FillsInv;
    assert [fill][..0] == [];
    FillsInvMore(orders, fills, index, order, [fill]);
  }

  /** A resting order after trading `quantity` more: complete orders are Filled, others PartiallyFilled, and
      the status is recorded when it changes. */
  function Traded(o: Order, quantity: int): Order {
    if quantity == 0 then o
    else if o.filled + quantity == o.original then
      o.(filled := o.original, status := Filled, history := o.history + [Filled])
    else if o.status.Acknowledged? then
      o.(filled := o.filled + quantity, status := PartiallyFilled, history := o.history + [PartiallyFilled])
    else o.(filled := o.filled + quantity)
  }

  /** `run` is `e` after order `index` has settled as `settled` by one more fill. */
  predicate FilledInto(e: Exec, index: nat, run: Allocation, settled: Order, fill: Fill)
    requires index < |e.orders|
  {
    && run.exec == Exec(e.orders[index := settled], e.active, e.fills + [fill], e.nextOrder, e.nextFill + 1)
    && OrderOk(settled) && Evolved(e.orders[index], settled) && settled.filled == e.orders[index].filled + fill.quantity
    && settled == Traded(e.orders[index], fill.quantity)
    && (settled.status.PartiallyFilled? || settled.status.Filled?)
    && FillOk(e.orders[index], fill) && fill.sequence == e.nextFill && e.orders[index].limit == Some(fill.price)
  }

  /** One passive fill of an active entry whose queue is used up: at its limit, at the trade's time, of
      as much as remains of order and trade. */
  lemma {:induction false} PassiveFill(cfg: ExecConfig, e: Exec, i: nat, trade: MarketEvent,
      left: int) returns (settled: Order, fill: Fill)
    requires ConfigOk(cfg) && MidInv(e) && trade.Trade? && i < |e.active| && 0 < left
    requires e.active[i].queue == 0 && IsResting(e.orders[e.active[i].id - 1].status)
    requires FillPassive(cfg, e, i, e.active[i].id - 1, trade, left).Done?
    ensures var index := e.active[i].id - 1;
      var run := FillPassive(cfg, e, i, index, trade, left).value;
      && FilledInto(e, index, run, settled, fill)
      && fill.quantity == Min(e.orders[index].Remaining(), left) && fill.timestamp == trade.key.timestamp
      && run.volume == left - fill.quantity
  {
    hide IsPath, ActiveInv, FillsInv, FillFor;
    EntryAgrees(e, i);
    var a := e.active[i];
    var o := e.orders[a.id - 1];
    var quantity := Min(o.Remaining(), left);
    FillForCases(cfg.feePpm, o, a.limit, quantity, trade.key.timestamp, e.nextFill);
    SettlePassiveOk(o, quantity);
    fill := FillFor(cfg.feePpm, o, a.limit, quantity, trade.key.timestamp, e.nextFill).value;
    settled := SettlePassive(RecordFill(o, quantity).value).value;
    assert e.active[i := a] == e.active;
  }

  lemma {:induction false} EntryAgrees(e: Exec, i: nat)
    requires MidInv(e) && i < |e.active|
    ensures 1 <= e.active[i].id <= |e.orders| && ActiveOk(e.orders, e.active[i])
    ensures var o := e.orders[e.active[i].id - 1]; OrderOk(o) && o.id == e.active[i].id
  {
  }

  lemma {:induction false} PassiveErrors(cfg: ExecConfig, e: Exec, i: nat, trade: MarketEvent, left: int)
    requires ConfigOk(cfg) && MidInv(e) && trade.Trade? && i < |e.active| && 0 < left
    requires e.active[i].queue == 0 && IsResting(e.orders[e.active[i].id - 1].status)
    ensures var r := FillPassive(cfg, e, i, e.active[i].id - 1, trade, left); r.Threw? ==> r.error == OverflowError
  {
    hide IsPath, ActiveInv, FillsInv, FillFor;
    EntryAgrees(e, i);
    var a := e.active[i];
    var o := e.orders[a.id - 1];
    FillForCases(cfg.feePpm, o, a.limit, Min(o.Remaining(), left), trade.key.timestamp, e.nextFill);
    SettlePassiveOk(o, Min(o.Remaining(), left));
  }

  lemma {:induction false} FilledKeeps(e: Exec, index: nat, run: Allocation, settled: Order, fill: Fill)
    requires MidInv(e) && index < |e.orders| && IsResting(e.orders[index].status)
    requires FilledInto(e, index, run, settled, fill)
    ensures MidInv(run.exec) && Evolves(e, run.exec) && TradedOnly(e.orders, run.exec.orders)
    ensures PassiveFills(e.orders, run.exec.fills, |e.fills|, fill.timestamp)
  {
    hide OrderOk, ActiveInv, FillsInv, FillOk, Evolved, Traded;
    KnownOrder(e, index);
    TermsOf(e.orders[index], settled);
    FillsInvAppend(e.orders, e.fills, index, settled, fill);
    OrdersInvUpdate(e.orders, index, settled);
    ActiveAfterFill(e.orders, e.active, index, settled);
    EvolvedSelf(e.orders, index, settled);
    FillNames(e.orders[index], fill);
  }

  lemma {:induction false} FillNames(o: Order, fill: Fill)
    requires FillOk(o, fill)
    ensures fill.orderId == o.id
  {
  }

  lemma {:induction false} TermsOf(a: Order, b: Order)
    requires Evolved(a, b)
    ensures SameTerms(a, b)
  {
  }

  lemma {:induction false} KnownOrder(e: Exec, i: nat)
    requires MidInv(e) && i < |e.orders|
    ensures OrderOk(e.orders[i]) && e.orders[i].id == i + 1 && (IsResting(e.orders[i].status) ==> e.orders[i].kind.Limit?)
  {
  }

  lemma {:induction false} FillPassiveKeeps(cfg: ExecConfig, e: Exec, i: nat, trade: MarketEvent, left: int)
    requires ConfigOk(cfg) && MidInv(e) && trade.Trade? && i < |e.active| && 0 < left
    requires e.active[i].queue == 0 && IsResting(e.orders[e.active[i].id - 1].status)
    ensures var index := e.active[i].id - 1;
      var r := FillPassive(cfg, e, i, index, trade, left);
      match r
      case Threw(error) => error == OverflowError
      case Done(run) =>
        var quantity := Min(e.orders[index].Remaining(), left);
        && MidInv(run.exec) && Evolves(e, run.exec) && run.exec.nextOrder == e.nextOrder
        && run.volume == left - quantity && run.exec.active == e.active
        && run.exec.orders == e.orders[index := run.exec.orders[index]]
        && run.exec.orders[index].filled == e.orders[index].filled + quantity
        && run.exec.orders[index] == Traded(e.orders[index], quantity)
        && TradedOnly(e.orders, run.exec.orders)
        && PassiveFills(e.orders, run.exec.fills, |e.fills|, trade.key.timestamp)
  {
    hide MidInv, FillPassive, Evolves, TradedOnly, PassiveFills, OrderOk, Evolved, FillOk, Traded;
    EntryAgrees(e, i);
    PassiveErrors(cfg, e, i, trade, left);
    if FillPassive(cfg, e, i, e.active[i].id - 1, trade, left).Done? {
      var settled, fill := PassiveFill(cfg, e, i, trade, left);
      FilledKeeps(e, e.active[i].id - 1, FillPassive(cfg, e, i, e.active[i].id - 1, trade, left).value, settled, fill);
    }
  }

  /** The orders that differ were resting and have been filled, partly or completely. */
  predicate TradedOnly(before: seq<Order>, after: seq<Order>) {
    && |before| == |after|
    && forall i :: 0 <= i < |before| ==>
      after[i] == before[i] || (IsResting(before[i].status) && (after[i].status.PartiallyFilled? || after[i].status.Filled?))
  }

  /** Passive fills: made at `time`, of orders that were resting, at their limit price. */
  predicate PassiveFills(before: seq<Order>, fills: seq<Fill>, from: nat, time: int) {
    forall k :: from <= k < |fills| ==>
      && fills[k].timestamp == time && 1 <= fills[k].orderId <= |before|
      && IsResting(before[fills[k].orderId - 1].status)
      && before[fills[k].orderId - 1].limit == Some(fills[k].price)
  }

  /** What any number of iterations of the trade loop preserve. */
  predicate AllocatedFrom(run: Allocation, next: Allocation, time: int) {
    && MidInv(next.exec) && Evolves(run.exec, next.exec) && next.exec.nextOrder == run.exec.nextOrder
    && SameEntries(run.exec.active, next.exec.active) && TradedOnly(run.exec.orders, next.exec.orders)
    && 0 <= next.volume <= run.volume
    && PassiveFills(run.exec.orders, next.exec.fills, |run.exec.fills|, time)
  }

  lemma {:induction false} AllocatedTransitive(a: Allocation, b: Allocation, c: Allocation, time: int)
    requires AllocatedFrom(a, b, time) && AllocatedFrom(b, c, time)
    ensures AllocatedFrom(a, c, time)
  {
    hide MidInv, TradedOnly, PassiveFills, SameEntries;
    EvolvesTransitive(a.exec, b.exec, c.exec);
    PassiveTransitive(a.exec, b.exec, c.exec, time);
    EntriesTransitive(a.exec.active, b.exec.active, c.exec.active);
  }

  lemma {:induction false} EntriesTransitive(a: seq<ActiveOrder>, b: seq<ActiveOrder>, c: seq<ActiveOrder>)
    requires SameEntries(a, b) && SameEntries(b, c)
    ensures SameEntries(a, c)
  {
  }

  lemma {:induction false} PassiveTransitive(d: Exec, e: Exec, f: Exec, time: int)
    requires Evolves(d, e) && Evolves(e, f) && TradedOnly(d.orders, e.orders) && TradedOnly(e.orders, f.orders)
    requires PassiveFills(d.orders, e.fills, |d.fills|, time) && PassiveFills(e.orders, f.fills, |e.fills|, time)
    ensures TradedOnly(d.orders, f.orders) && PassiveFills(d.orders, f.fills, |d.fills|, time)
  {
    forall k | |d.fills| <= k < |f.fills|
      ensures f.fills[k].timestamp == time && 1 <= f.fills[k].orderId <= |d.orders|
      ensures IsResting(d.orders[f.fills[k].orderId - 1].status)
      ensures d.orders[f.fills[k].orderId - 1].limit == Some(f.fills[k].price)
    {
      if k < |e.fills| {
        assert f.fills[k] == e.fills[k];
      } else {
        assert Evolved(d.orders[f.fills[k].orderId - 1], e.orders[f.fills[k].orderId - 1]);
      }
    }
  }

  lemma {:induction false} AllocatedSelf(run: Allocation, time: int)
    requires MidInv(run.exec) && 0 <= run.volume
    ensures AllocatedFrom(run, run, time)
  {
    hide MidInv;
  }

  lemma {:induction false} ConsumeQueueKeeps(run: Allocation, i: nat, trade: MarketEvent)
    requires MidInv(run.exec) && trade.Trade? && i < |run.exec.active| && 0 <= run.volume
    ensures AllocatedFrom(run, ConsumeQueue(run, i, trade), trade.key.timestamp)
    ensures ConsumeQueue(run, i, trade).exec.orders == run.exec.orders
    ensures ConsumeQueue(run, i, trade).exec.active[i].id == run.exec.active[i].id
    ensures 0 <= ConsumeQueue(run, i, trade).exec.active[i].queue
  {
    var a := run.exec.active[i];
    assert ActiveOk(run.exec.orders, a);
    var queue := EffectiveQueue(a, trade);
    RequeueKeeps(run.exec.orders, run.exec.active, i, queue - Min(queue, run.volume));
    hide OrdersInv, ActiveInv, FillsInv, TradeThrough;
  }

  lemma {:induction false} AllocatedFill(cfg: ExecConfig, e: Exec, i: nat, trade: MarketEvent, left: int)
    requires ConfigOk(cfg) && MidInv(e) && trade.Trade? && i < |e.active| && 0 < left
    requires e.active[i].queue == 0 && 1 <= e.active[i].id <= |e.orders|
    requires IsResting(e.orders[e.active[i].id - 1].status)
    ensures var r := FillPassive(cfg, e, i, e.active[i].id - 1, trade, left);
      match r
      case Threw(error) => error == OverflowError
      case Done(run) => AllocatedFrom(Allocation(e, left), run, trade.key.timestamp)
  {
    var o := e.orders[e.active[i].id - 1];
    assert OrderOk(o);
    FillPassiveKeeps(cfg, e, i, trade, left);
    hide MidInv, FillPassive, OrderOk;
  }

  /** The loop body of `process_trade` keeps the invariant, only moves orders forward, and stamps its
      fill with the trade's time. */
  lemma {:induction false} AllocateOneKeeps(cfg: ExecConfig, run: Allocation, i: nat, trade: MarketEvent)
    requires ConfigOk(cfg) && MidInv(run.exec) && trade.Trade? && i < |run.exec.active| && 0 <= run.volume
    ensures var r := AllocateOne(cfg, run, i, trade);
      match r
      case Threw(error) => error == OverflowError
      case Done(next) => AllocatedFrom(run, next, trade.key.timestamp)
  {
    hide MidInv, AllocatedFrom, FillPassive, ConsumeQueue, Qualifies;
    var a := run.exec.active[i];
    EntryKnown(run.exec, i);
    AllocatedSelf(run, trade.key.timestamp);
    ConsumeQueueKeeps(run, i, trade);
    var queued := ConsumeQueue(run, i, trade);
    AllocatedMid(run, queued, trade.key.timestamp);
    if IsResting(run.exec.orders[a.id - 1].status) && queued.volume > 0 && queued.exec.active[i].queue == 0 {
      AllocatedFill(cfg, queued.exec, i, trade, queued.volume);
      var r := FillPassive(cfg, queued.exec, i, a.id - 1, trade, queued.volume);
      if r.Done? {
        AllocatedTransitive(run, queued, r.value, trade.key.timestamp);
      }
    }
  }

  lemma {:induction false} EntryKnown(e: Exec, i: nat)
    requires MidInv(e) && i < |e.active|
    ensures 1 <= e.active[i].id <= |e.orders| && 0 <= e.active[i].queue
    ensures FindOrder(e.orders, e.active[i].id, 0) == Done(e.active[i].id - 1)
  {
    assert ActiveOk(e.orders, e.active[i]);
    FindById(e.orders, e.active[i].id, 0);
  }

  lemma {:induction false} AllocatedMid(run: Allocation, next: Allocation, time: int)
    requires AllocatedFrom(run, next, time)
    ensures MidInv(next.exec) && |next.exec.active| == |run.exec.active| && 0 <= next.volume
  {
    hide MidInv;
  }

  lemma {:induction false} AllocateKeeps(cfg: ExecConfig, run: Allocation, i: nat, trade: MarketEvent)
    requires ConfigOk(cfg) && MidInv(run.exec) && trade.Trade? && i <= |run.exec.active| && 0 <= run.volume
    ensures var r := AllocateFrom(cfg, run, i, trade);
      match r
      case Threw(error) => error == OverflowError
      case Done(next) => AllocatedFrom(run, next, trade.key.timestamp)
    decreases |run.exec.active| - i
  {
    hide MidInv, AllocatedFrom, AllocateOne;
    if i < |run.exec.active| && run.volume != 0 {
      AllocateOneKeeps(cfg, run, i, trade);
      var next := AllocateOne(cfg, run, i, trade);
      if next.Done? {
        AllocatedMid(run, next.value, trade.key.timestamp);
        AllocateKeeps(cfg, next.value, i + 1, trade);
        var last := AllocateFrom(cfg, next.value, i + 1, trade);
        if last.Done? {
          AllocatedTransitive(run, next.value, last.value, trade.key.timestamp);
        }
      }
    } else {
      AllocatedSelf(run, trade.key.timestamp);
    }
  }

  /** `sub` is `s` with some elements dropped, in order. */
  predicate SubsequenceOf(sub: seq<ActiveOrder>, s: seq<ActiveOrder>) {
    if sub == [] then true
    else if s == [] then false
    else if sub[|sub| - 1] == s[|s| - 1] then SubsequenceOf(sub[..|sub| - 1], s[..|s| - 1])
    else SubsequenceOf(sub, s[..|s| - 1])
  }

  predicate KnownEntries(orders: seq<Order>, active: seq<ActiveOrder>) {
    && (forall i :: 0 <= i < |orders| ==> orders[i].id == i + 1)
    && AllLive(orders, active) && DistinctIds(active)
  }

  lemma {:induction false} RetainedInOrder(orders: seq<Order>, active: seq<ActiveOrder>)
    requires KnownEntries(orders, active)
    ensures Retained(orders, active).Done?
    ensures SubsequenceOf(Retained(orders, active).value, active)
  {
    if active != [] {
      var init := active[..|active| - 1];
      var last := active[|active| - 1];
      assert KnownEntries(orders, init);
      RetainedInOrder(orders, init);
      FindById(orders, last.id, 0);
      var kept := Retained(orders, init).value;
      assert (kept + [last])[..|kept|] == kept;
      SubsequenceLonger(kept, init, last);
    }
  }

  lemma {:induction false} SubsequenceLonger(sub: seq<ActiveOrder>, s: seq<ActiveOrder>, last: ActiveOrder)
    requires SubsequenceOf(sub, s)
    ensures SubsequenceOf(sub, s + [last])
    decreases |s|, 1
  {
    if sub != [] {
      assert (s + [last])[..|s|] == s;
      if sub[|sub| - 1] == last {
        SubsequenceShorter(sub, s);
      }
    }
  }

  lemma {:induction false} SubsequenceShorter(sub: seq<ActiveOrder>, s: seq<ActiveOrder>)
    requires SubsequenceOf(sub, s) && sub != []
    ensures SubsequenceOf(sub[..|sub| - 1], s)
    decreases |s|, 0
  {
    var init := s[..|s| - 1];
    if sub[|sub| - 1] == s[|s| - 1] {
      SubsequenceLonger(sub[..|sub| - 1], init, s[|s| - 1]);
    } else {
      SubsequenceShorter(sub, init);
      SubsequenceLonger(sub[..|sub| - 1], init, s[|s| - 1]);
    }
    assert init + [s[|s| - 1]] == s;
  }

  /** `sub` holds exactly the resting entries of `active`. */
  ghost predicate RestingOf(orders: seq<Order>, active: seq<ActiveOrder>, sub: seq<ActiveOrder>)
    requires AllLive(orders, active)
  {
    forall a {:trigger a in sub} :: a in sub <==> a in active && IsResting(orders[a.id - 1].status)
  }

  /** Removal keeps exactly the resting entries. */
  lemma {:induction false} RetainedKeeps(orders: seq<Order>, active: seq<ActiveOrder>)
    requires KnownEntries(orders, active)
    ensures Retained(orders, active).Done?
    ensures RestingOf(orders, active, Retained(orders, active).value)
    ensures DistinctIds(Retained(orders, active).value)
  {
    hide RestingOf, DistinctIds, AllLive;
    if active == [] {
      NothingRetained(orders);
    } else {
      var init := active[..|active| - 1];
      var last := active[|active| - 1];
      assert active == init + [last];
      KnownPrefix(orders, init, last);
      RetainedKeeps(orders, init);
      RetainOne(orders, init, last, Retained(orders, init).value);
    }
  }

  lemma {:induction false} NothingRetained(orders: seq<Order>)
    ensures AllLive(orders, []) && RestingOf(orders, [], []) && DistinctIds([])
  {
  }

  lemma {:induction false} KnownPrefix(orders: seq<Order>, init: seq<ActiveOrder>, last: ActiveOrder)
    requires KnownEntries(orders, init + [last])
    ensures KnownEntries(orders, init) && 1 <= last.id <= |orders| && IsLive(orders[last.id - 1].status)
    ensures FindOrder(orders, last.id, 0) == Done(last.id - 1)
  {
    var active := init + [last];
    assert active[|init|] == last;
    assert forall j :: 0 <= j < |init| ==> active[j] == init[j];
    FindById(orders, last.id, 0);
  }

  lemma {:induction false} RetainOne(orders: seq<Order>, init: seq<ActiveOrder>, last: ActiveOrder,
      kept: seq<ActiveOrder>)
    requires AllLive(orders, init) && AllLive(orders, init + [last]) && DistinctIds(init + [last])
    requires RestingOf(orders, init, kept) && DistinctIds(kept) && 1 <= last.id <= |orders|
    ensures var after := if IsTerminal(orders[last.id - 1].status) then kept else kept + [last];
      RestingOf(orders, init + [last], after) && DistinctIds(after)
  {
    assert (init + [last])[|init|] == last;
    forall j | 0 <= j < |kept|
      ensures kept[j].id != last.id
    {
      assert kept[j] in kept;
      var k :| 0 <= k < |init| && init[k] == kept[j];
      assert (init + [last])[k] == init[k];
    }
  }

  lemma {:induction false} RestingAgree(orders: seq<Order>, active: seq<ActiveOrder>, sub: seq<ActiveOrder>)
    requires AllAgree(orders, active) && AllLive(orders, active) && RestingOf(orders, active, sub)
    ensures AllAgree(orders, sub) && AllLive(orders, sub) && NoneFilled(orders, sub)
  {
    forall j | 0 <= j < |sub|
      ensures ActiveOk(orders, sub[j]) && IsResting(orders[sub[j].id - 1].status)
    {
      assert sub[j] in sub;
    }
  }

  lemma {:induction false} RestingStillListed(orders: seq<Order>, active: seq<ActiveOrder>, sub: seq<ActiveOrder>)
    requires RestingListed(orders, active) && AllLive(orders, active) && RestingOf(orders, active, sub)
    ensures RestingListed(orders, sub)
  {
    forall id | 1 <= id <= |orders| && IsResting(orders[id - 1].status)
      ensures IsActive(sub, id)
    {
      assert IsActive(active, id);
      var j :| 0 <= j < |active| && active[j].id == id;
      assert active[j] in sub;
    }
  }

  lemma {:induction false} ActiveAfterRemoval(orders: seq<Order>, active: seq<ActiveOrder>)
    requires KnownEntries(orders, active) && ActiveInv(orders, active)
    ensures var kept := Retained(orders, active);
      && kept.Done? && ActiveInv(orders, kept.value) && NoneFilled(orders, kept.value)
      && SubsequenceOf(kept.value, active) && RestingOf(orders, active, kept.value)
  {
    hide KnownEntries, SubsequenceOf, Retained, AllAgree, AllLive, RestingListed, DistinctIds, RestingOf, NoneFilled;
    RetainedInOrder(orders, active);
    RetainedKeeps(orders, active);
    var kept := Retained(orders, active).value;
    RestingAgree(orders, active, kept);
    RestingStillListed(orders, active, kept);
  }

  lemma {:induction false} EntriesKnown(e: Exec)
    requires MidInv(e)
    ensures KnownEntries(e.orders, e.active)
  {
  }

  /** Ending a trade: terminal entries are removed from the active list. */
  lemma {:induction false} RemovalInstalls(e: Exec, g: Exec)
    requires MidInv(g) && SameEntries(e.active, g.active)
    ensures var kept := Retained(g.orders, g.active);
      && kept.Done? && ExecInv(g.(active := kept.value))
      && forall j :: 0 <= j < |kept.value| ==> IsActive(e.active, kept.value[j].id)
  {
    hide OrdersInv, ActiveInv, FillsInv, NoneFilled, Retained, SubsequenceOf, KnownEntries;
    EntriesKnown(g);
    ActiveAfterRemoval(g.orders, g.active);
    var kept := Retained(g.orders, g.active).value;
    forall j | 0 <= j < |kept|
      ensures IsActive(e.active, kept[j].id)
    {
      assert kept[j] in kept;
      var k :| 0 <= k < |g.active| && g.active[k] == kept[j];
      assert e.active[k].id == kept[j].id;
    }
  }

  /** A trade keeps the registry invariant, never raises anything but overflow, activates nothing, and
      all the fills it creates carry its timestamp. */
  lemma {:induction false} TradeKeeps(cfg: ExecConfig, e: Exec, trade: MarketEvent)
    requires ConfigOk(cfg) && ExecInv(e) && trade.Trade? && EventOk(trade)
    ensures var r := TradeResult(cfg, e, trade);
      match r
      case Threw(error) => error == OverflowError
      case Done(f) =>
        && ExecInv(f) && Evolves(e, f) && f.nextOrder == e.nextOrder && TradedOnly(e.orders, f.orders)
        && PassiveFills(e.orders, f.fills, |e.fills|, trade.key.timestamp)
        && (forall j :: 0 <= j < |f.active| ==> IsActive(e.active, f.active[j].id))
  {
    hide MidInv, AllocateFrom, Retained;
    if trade.quantity != 0 && trade.aggressor.Some? {
      AllocateKeeps(cfg, Allocation(e, trade.quantity), 0, trade);
      var r := AllocateFrom(cfg, Allocation(e, trade.quantity), 0, trade);
      if r.Done? {
        RemovalInstalls(e, r.value.exec);
      }
    }
  }

  // ---- Cancel requests ----

  lemma {:induction false} CancelRequestOk(e: Exec, id: int, latency: int, now: int)
    requires ExecInv(e) && 1 <= id <= |e.orders| && IsResting(e.orders[id - 1].status) && 0 <= latency
    ensures CancelRequest(e, id, latency, now)
         == if latency > UINT64_MAX - now then Threw(OverflowError) else Done(Request(now + latency, CancelEvent(id)))
  {
    FindById(e.orders, id, 0);
    RestingIsActive(e, id);
  }
}
