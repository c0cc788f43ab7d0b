/** When the calls of the execution component are refused, and that none succeeds twice. */
module Refusals {
  import opened Types
  import opened OrderBooks
  import opened Orders
  import opened Simulators
  import opened EventLoops
  import opened LatencyExecution
  import opened Registry
  import opened RegistrySteps
  import opened SweepTheorems
  import opened RunOutcomes

  /** A submission is accepted exactly when the quantity is positive, a given limit is not negative, a limit
      order has one, and the arrival time fits 64 bits and is not past. */
  lemma {:induction false} SubmitMeaning(e: Exec, intent: Intent, latency: int, now: int)
    ensures var arrival := intent.decision + latency;
      Submit(e, intent, latency, now).Done? <==>
        && arrival <= UINT64_MAX && now <= arrival && 0 < intent.quantity
        && (if intent.limit.Some? then 0 <= intent.limit.value else intent.kind.Market?)
    ensures intent.decision + latency > UINT64_MAX ==> Submit(e, intent, latency, now) == Threw(OverflowError)
  {
  }

  /** An arrival is accepted exactly when it is that of a Pending order, at its arrival time, and the fees of
      what it takes fit 64 bits. */
  lemma {:induction false} ArrivalMeaning(cfg: ExecConfig, e: Exec, event: Scheduled, book: Book)
    requires ConfigOk(cfg) && ExecInv(e) && BookOk(book)
    ensures ArrivalResult(cfg, e, event, book).Done? <==>
      && ArrivalDue(e, event)
      && var o := e.orders[event.event.orderId.value - 1];
        FeesFit(cfg.feePpm, Greedy(o.side, BoundOf(o), OppositeDepth(o.side, book), o.original))
  {
    hide MidInv, NoneFilled, LimitArrival, OrderExecution, Greedy, FeesFit, BookOk;
    if event.event.kind.OrderArrival? && event.event.orderId.Some? {
      FindInExec(e, event.event.orderId.value);
      if ArrivalDue(e, event) {
        var o := e.orders[event.event.orderId.value - 1];
        OrderOfExec(e, event.event.orderId.value - 1);
        if o.kind.Limit? {
          LimitAccepted(cfg, e, o, book);
        } else {
          MarketAccepted(cfg.feePpm, o, book, e.nextFill);
        }
      }
    }
  }

  /** Which exception a refused arrival throws before anything is executed. */
  lemma {:induction false} ArrivalErrors(cfg: ExecConfig, e: Exec, event: Scheduled, book: Book)
    requires ConfigOk(cfg) && ExecInv(e) && event.event.kind.OrderArrival? && event.event.orderId.Some?
    ensures var id := event.event.orderId.value;
      var r := ArrivalResult(cfg, e, event, book);
      && (!(1 <= id <= |e.orders|) ==> r == Threw(InvalidArgument(UnknownOrder)))
      && (1 <= id <= |e.orders| && !e.orders[id - 1].status.Pending? ==> r == Threw(InvalidArgument(NotPending)))
      && (1 <= id <= |e.orders| && e.orders[id - 1].status.Pending? && event.timestamp != e.orders[id - 1].arrival ==>
        r == Threw(InvalidArgument(ArrivalMismatch)))
  {
    hide MidInv, NoneFilled, Arrive;
    FindInExec(e, event.event.orderId.value);
  }

  /** No order arrives twice: once an arrival has been handled, any other for the same order is refused. */
  lemma {:induction false} ArrivesOnce(cfg: ExecConfig, e: Exec, event: Scheduled, book: Book, later: Scheduled,
      other: Book)
    requires ConfigOk(cfg) && ExecInv(e) && BookOk(book) && ArrivalResult(cfg, e, event, book).Done?
    requires later.event == event.event
    ensures ArrivalResult(cfg, ArrivalResult(cfg, e, event, book).value.exec, later, other) == Threw(InvalidArgument(NotPending))
  {
    hide ExecInv, BookOk, ArrivalResult, FeesFit, Evolves, SweptAt, RestsAfter;
    ArrivalMeaning(cfg, e, event, book);
    ArrivalKeeps(cfg, e, event, book);
    ArrivalErrors(cfg, ArrivalResult(cfg, e, event, book).value.exec, later, other);
  }

  /** A cancel can be requested exactly for a resting order and a delay that fits 64 bits. */
  lemma {:induction false} CancelRequestMeaning(e: Exec, id: int, latency: int, now: int)
    requires ExecInv(e) && 0 <= latency
    ensures CancelRequest(e, id, latency, now)
      == if !(1 <= id <= |e.orders|) then Threw(InvalidArgument(UnknownOrder))
         else if !IsResting(e.orders[id - 1].status) then Threw(InvalidArgument(NotResting))
         else if now + latency > UINT64_MAX then Threw(OverflowError)
         else Done(Request(now + latency, CancelEvent(id)))
  {
    hide ExecInv;
    FindRegistered(e, id);
    if 1 <= id <= |e.orders| && IsResting(e.orders[id - 1].status) {
      CancelRequestOk(e, id, latency, now);
    }
  }

  lemma {:induction false} FindRegistered(e: Exec, id: int)
    requires ExecInv(e)
    ensures FindOrder(e.orders, id, 0) == if 1 <= id <= |e.orders| then Done(id - 1) else Threw(InvalidArgument(UnknownOrder))
  {
    FindInExec(e, id);
  }

  /** A canceled order can neither be canceled again nor have another cancel requested. */
  lemma {:induction false} CancelsOnce(e: Exec, event: Scheduled, later: Scheduled, latency: int, now: int)
    requires ExecInv(e) && CancelResult(e, event).Done? && later.event == event.event && 0 <= latency
    ensures var f := CancelResult(e, event).value;
      && CancelResult(f, later) == Threw(InvalidArgument(NotResting))
      && CancelRequest(f, event.event.orderId.value, latency, now) == Threw(InvalidArgument(NotResting))
  {
    hide ExecInv, CancelResult, CancelRequest, Evolves;
    CancelKeeps(e, event);
    var f := CancelResult(e, event).value;
    CancelKeeps(f, later);
    CancelRequestMeaning(f, event.event.orderId.value, latency, now);
  }
}
