/** Arriving orders take the visible depth in the best possible way. */
module SweepTheorems {
  import opened Types
  import opened OrderBooks
  import opened Orders
  import opened Simulators
  import opened LatencyExecution
  import opened Registry

  predicate Eligible(side: Side, bound: Option<int>, price: int) {
    bound.Some? ==> Allows(side, bound.value, price)
  }

  /** The depth an order may take at all. */
  function EligibleDepth(side: Side, bound: Option<int>, levels: seq<PriceLevel>): int {
    if levels == [] then 0
    else EligibleDepth(side, bound, levels[1..]) + if Eligible(side, bound, levels[0].price) then levels[0].quantity else 0
  }

  /** What was taken, level by level. */
  function Taken(fills: seq<Fill>): seq<PriceLevel> {
    seq(|fills|, k requires 0 <= k < |fills| => PriceLevel(fills[k].price, fills[k].quantity))
  }

  function TotalTaken(taken: seq<PriceLevel>): int {
    if taken == [] then 0 else taken[0].quantity + TotalTaken(taken[1..])
  }

  function CostTaken(taken: seq<PriceLevel>): int {
    if taken == [] then 0 else taken[0].price * taken[0].quantity + CostTaken(taken[1..])
  }

  // ---- Any other way to trade against the same depth ----

  /** Some quantity from each level, within what it shows and only where the limit allows. */
  predicate IsAllocation(side: Side, bound: Option<int>, levels: seq<PriceLevel>, take: seq<int>) {
    && |take| == |levels|
    && forall i :: 0 <= i < |take| ==>
      0 <= take[i] <= levels[i].quantity && (take[i] > 0 ==> Eligible(side, bound, levels[i].price))
  }

  function Total(take: seq<int>): int {
    if take == [] then 0 else take[0] + Total(take[1..])
  }

  function Cost(levels: seq<PriceLevel>, take: seq<int>): int
    requires |levels| == |take|
  {
    if take == [] then 0 else levels[0].price * take[0] + Cost(levels[1..], take[1..])
  }

  /** Best level first, as much as possible from each, until `need` is met or the limit is reached. */
  function Greedy(side: Side, bound: Option<int>, levels: seq<PriceLevel>, need: int): seq<PriceLevel> {
    if levels == [] || need <= 0 || !Eligible(side, bound, levels[0].price) then []
    else
      var quantity := Min(need, levels[0].quantity);
      [PriceLevel(levels[0].price, quantity)] + Greedy(side, bound, levels[1..], need - quantity)
  }

  // ---- The sweep is greedy ----

  lemma {:induction false} TakenAppend(a: seq<Fill>, b: seq<Fill>)
    ensures Taken(a + b) == Taken(a) + Taken(b)
  {
  }

  /** `next` is `acc` after taking `taken` as well. */
  predicate Took(acc: Sweep, next: Sweep, taken: seq<PriceLevel>) {
    && next.order == acc.order.(filled := acc.order.filled + TotalTaken(taken))
    && Taken(next.fills) == Taken(acc.fills) + taken
  }

  lemma {:induction false} TookFirst(a: Sweep, b: Sweep, c: Sweep, first: PriceLevel, rest: seq<PriceLevel>)
    requires Took(a, b, [first]) && Took(b, c, rest)
    ensures Took(a, c, [first] + rest)
  {
    hide Taken;
    assert ([first] + rest)[1..] == rest;
    assert TotalTaken([first]) == first.quantity + TotalTaken([first][1..]);
    assert Taken(a.fills) + [first] + rest == Taken(a.fills) + ([first] + rest);
  }

  lemma {:induction false} TookNothing(a: Sweep)
    ensures Took(a, a, [])
  {
  }

  /** The loop of either sweep, from level `i` on, takes the greedy choice from the remaining levels. */
  lemma {:induction false} SweepIsGreedy(ppm: int, levels: seq<PriceLevel>, bound: Option<int>, acc: Sweep, i: nat)
    requires 0 <= ppm && LevelsOk(levels) && i <= |levels| && 0 <= acc.order.Remaining()
    requires SweepFrom(ppm, levels, bound, acc, i).Done?
    ensures Took(acc, SweepFrom(ppm, levels, bound, acc, i).value,
                 Greedy(acc.order.side, bound, levels[i..], acc.order.Remaining()))
    decreases |levels| - i
  {
    hide LevelsOk, Took, SweepLevel;
    var side, need := acc.order.side, acc.order.Remaining();
    TookNothing(acc);
    if i < |levels| {
      var rest := levels[i..];
      assert rest[0] == levels[i] && rest[1..] == levels[i + 1..];
      LevelPositive(levels, i);
      if need == 0 {
        SweepIsGreedy(ppm, levels, bound, acc, i + 1);
      } else if Eligible(side, bound, levels[i].price) {
        var next := SweepLevel(ppm, levels[i], bound, acc).value;
        LevelTaken(ppm, levels[i], bound, acc);
        TookNothing(next);
        if bound.Some? || next.order.Remaining() > 0 {
          SweepIsGreedy(ppm, levels, bound, next, i + 1);
        }
        GreedyFront(side, bound, rest, need);
        TookFirst(acc, next, SweepFrom(ppm, levels, bound, acc, i).value, PriceLevel(levels[i].price, Min(need, levels[i].quantity)),
          Greedy(side, bound, levels[i + 1..], next.order.Remaining()));
      }
    }
  }

  lemma {:induction false} LevelPositive(levels: seq<PriceLevel>, i: nat)
    requires LevelsOk(levels) && i < |levels|
    ensures 0 < levels[i].quantity && 0 <= levels[i].price
  {
  }

  lemma {:induction false} LevelTaken(ppm: int, level: PriceLevel, bound: Option<int>, acc: Sweep)
    requires 0 <= ppm && SweepLevel(ppm, level, bound, acc).Done?
    ensures var next := SweepLevel(ppm, level, bound, acc).value;
      var quantity := Min(acc.order.Remaining(), level.quantity);
      && next.order == acc.order.(filled := acc.order.filled + quantity)
      && 0 <= next.order.Remaining()
      && Took(acc, next, [PriceLevel(level.price, quantity)])
  {
    var next := SweepLevel(ppm, level, bound, acc).value;
    TakenAppend(acc.fills, next.fills[|acc.fills|..]);
    assert next.fills == acc.fills + next.fills[|acc.fills|..];
    assert [PriceLevel(level.price, Min(acc.order.Remaining(), level.quantity))][1..] == [];
  }

  lemma {:induction false} GreedyFront(side: Side, bound: Option<int>, levels: seq<PriceLevel>, need: int)
    requires levels != [] && 0 < need && Eligible(side, bound, levels[0].price)
    ensures var quantity := Min(need, levels[0].quantity);
      var rest := Greedy(side, bound, levels[1..], need - quantity);
      && Greedy(side, bound, levels, need) == [PriceLevel(levels[0].price, quantity)] + rest
      && TotalTaken(Greedy(side, bound, levels, need)) == quantity + TotalTaken(rest)
      && CostTaken(Greedy(side, bound, levels, need)) == levels[0].price * quantity + CostTaken(rest)
      && (need == quantity ==> rest == [])
  {
    var quantity := Min(need, levels[0].quantity);
    var rest := Greedy(side, bound, levels[1..], need - quantity);
    assert ([PriceLevel(levels[0].price, quantity)] + rest)[1..] == rest;
  }

  // ---- When a sweep is refused ----

  /** The rounded fee of everything taken at one level fits 64 bits. */
  predicate FeeFits(ppm: int, level: PriceLevel) {
    RoundedRate(ppm, level.price * level.quantity) <= INT64_MAX
  }

  predicate FeesFit(ppm: int, taken: seq<PriceLevel>) {
    forall k :: 0 <= k < |taken| ==> FeeFits(ppm, taken[k])
  }

  lemma {:induction false} FeesFitFront(ppm: int, first: PriceLevel, rest: seq<PriceLevel>)
    ensures FeesFit(ppm, [first] + rest) <==> FeeFits(ppm, first) && FeesFit(ppm, rest)
  {
    var all := [first] + rest;
    assert all[0] == first;
    forall k | 0 <= k < |rest|
      ensures all[k + 1] == rest[k]
    {
    }
    if FeesFit(ppm, all) {
      forall k | 0 <= k < |rest|
        ensures FeeFits(ppm, rest[k])
      {
        assert FeeFits(ppm, all[k + 1]);
      }
    }
  }

  lemma {:induction false} LevelAccepted(ppm: int, level: PriceLevel, bound: Option<int>, acc: Sweep)
    requires 0 <= ppm <= PPM && 0 <= level.price && 0 < level.quantity && 0 < acc.order.Remaining()
    ensures SweepLevel(ppm, level, bound, acc).Done? <==>
      FeeFits(ppm, PriceLevel(level.price, Min(acc.order.Remaining(), level.quantity)))
  {
    hide FillFor;
    FillMeaning(ppm, acc.order, level.price, Min(acc.order.Remaining(), level.quantity), acc.order.arrival, acc.nextFill);
  }

  /** A sweep throws exactly when the fee of one of its fills does not fit 64 bits. */
  lemma {:induction false} SweepAccepted(ppm: int, levels: seq<PriceLevel>, bound: Option<int>, acc: Sweep, i: nat)
    requires 0 <= ppm <= PPM && LevelsOk(levels) && i <= |levels| && 0 <= acc.order.Remaining()
    ensures SweepFrom(ppm, levels, bound, acc, i).Done? <==>
      FeesFit(ppm, Greedy(acc.order.side, bound, levels[i..], acc.order.Remaining()))
    decreases |levels| - i
  {
    hide LevelsOk, SweepLevel, FeesFit, FeeFits;
    var side, need := acc.order.side, acc.order.Remaining();
    NoFees(ppm);
    if i < |levels| {
      var rest := levels[i..];
      assert rest[0] == levels[i] && rest[1..] == levels[i + 1..];
      LevelPositive(levels, i);
      if need == 0 {
        SweepAccepted(ppm, levels, bound, acc, i + 1);
      } else if Eligible(side, bound, levels[i].price) {
        var first := PriceLevel(levels[i].price, Min(need, levels[i].quantity));
        var later := Greedy(side, bound, levels[i + 1..], need - first.quantity);
        GreedyFront(side, bound, rest, need);
        FeesFitFront(ppm, first, later);
        LevelAccepted(ppm, levels[i], bound, acc);
        if SweepLevel(ppm, levels[i], bound, acc).Done? {
          LevelTaken(ppm, levels[i], bound, acc);
          var next := SweepLevel(ppm, levels[i], bound, acc).value;
          if bound.Some? || next.order.Remaining() > 0 {
            SweepAccepted(ppm, levels, bound, next, i + 1);
          }
        }
      }
    }
  }

  lemma {:induction false} NoFees(ppm: int)
    ensures FeesFit(ppm, [])
  {
  }

  // ---- What greedy achieves ----

  /** Beyond the first level the limit forbids, it forbids every level. */
  lemma {:induction false} NoneEligible(side: Side, bound: Option<int>, levels: seq<PriceLevel>)
    requires Sorted(Opposite(side), levels) && levels != [] && !Eligible(side, bound, levels[0].price)
    ensures forall i :: 0 <= i < |levels| ==> !Eligible(side, bound, levels[i].price)
  {
  }

  lemma {:induction false} NoDepth(side: Side, bound: Option<int>, levels: seq<PriceLevel>)
    requires forall i :: 0 <= i < |levels| ==> !Eligible(side, bound, levels[i].price)
    ensures EligibleDepth(side, bound, levels) == 0
  {
    if levels != [] {
      NoDepth(side, bound, levels[1..]);
    }
  }

  lemma {:induction false} DepthNonNegative(side: Side, bound: Option<int>, levels: seq<PriceLevel>)
    requires LevelsOk(levels)
    ensures 0 <= EligibleDepth(side, bound, levels)
  {
    if levels != [] {
      DepthNonNegative(side, bound, levels[1..]);
    }
  }

  /** Greedy takes exactly the smaller of what is needed and what is eligible. */
  lemma {:induction false} GreedyTotal(side: Side, bound: Option<int>, levels: seq<PriceLevel>, need: int)
    requires Sorted(Opposite(side), levels) && LevelsOk(levels) && 0 <= need
    ensures TotalTaken(Greedy(side, bound, levels, need)) == Min(need, EligibleDepth(side, bound, levels))
  {
    DepthNonNegative(side, bound, levels);
    if levels != [] && need > 0 {
      if Eligible(side, bound, levels[0].price) {
        DepthNonNegative(side, bound, levels[1..]);
        GreedyFront(side, bound, levels, need);
        GreedyTotal(side, bound, levels[1..], need - Min(need, levels[0].quantity));
      } else {
        NoneEligible(side, bound, levels);
        NoDepth(side, bound, levels);
      }
    }
  }

  /** Prices as costs: what is dear for a buyer is cheap for a seller. */
  function Signed(side: Side, amount: int): int {
    if side.Buy? then amount else -amount
  }

  predicate NoneBelow(side: Side, levels: seq<PriceLevel>, floor: int) {
    forall i :: 0 <= i < |levels| ==> floor <= Signed(side, levels[i].price)
  }

  lemma {:induction false} CostAtLeast(side: Side, bound: Option<int>, levels: seq<PriceLevel>, take: seq<int>,
      floor: int)
    requires IsAllocation(side, bound, levels, take) && NoneBelow(side, levels, floor)
    ensures 0 <= Total(take) && floor * Total(take) <= Signed(side, Cost(levels, take))
  {
    if take != [] {
      CostAtLeast(side, bound, levels[1..], take[1..], floor);
      var p, t := Signed(side, levels[0].price), take[0];
      Scaled(floor, p, t);
      Distributes(floor, t, Total(take[1..]));
      SignedProduct(side, levels[0].price, t);
    }
  }

  lemma {:induction false} Scaled(a: int, b: int, n: int)
    requires a <= b && 0 <= n
    ensures a * n <= b * n
  {
  }

  lemma {:induction false} Distributes(a: int, b: int, c: int)
    ensures a * (b + c) == a * b + a * c
  {
  }

  lemma {:induction false} SignedProduct(side: Side, price: int, n: int)
    ensures Signed(side, price * n) == Signed(side, price) * n
  {
    assert (-price) * n == -(price * n);
  }

  /** Taking `Total(take)` by any allocation costs at least as much as taking `need` greedily and the
      rest at the floor price. */
  lemma {:induction false} GreedyCheapest(side: Side, bound: Option<int>, levels: seq<PriceLevel>, take: seq<int>,
      need: int, floor: int)
    requires Sorted(Opposite(side), levels) && LevelsOk(levels) && IsAllocation(side, bound, levels, take)
    requires 0 <= need <= Total(take) && NoneBelow(side, levels, floor)
    ensures Signed(side, CostTaken(Greedy(side, bound, levels, need))) + floor * (Total(take) - need)
         <= Signed(side, Cost(levels, take))
    decreases |levels|, 1
  {
    hide Greedy, EligibleDepth, CostTaken;
    if levels == [] || need == 0 || !Eligible(side, bound, levels[0].price) {
      GreedyNothing(side, bound, levels, take, need);
      CostAtLeast(side, bound, levels, take, floor);
    } else {
      GreedyCheapestStep(side, bound, levels, take, need, floor);
    }
  }

  lemma {:induction false} GreedyNothing(side: Side, bound: Option<int>, levels: seq<PriceLevel>, take: seq<int>,
      need: int)
    requires levels == [] || need == 0 || !Eligible(side, bound, levels[0].price)
    requires Sorted(Opposite(side), levels) && IsAllocation(side, bound, levels, take) && 0 <= need <= Total(take)
    ensures CostTaken(Greedy(side, bound, levels, need)) == 0 && need == 0
  {
    if levels != [] && !Eligible(side, bound, levels[0].price) {
      NoneEligible(side, bound, levels);
      TotalOfNothing(take);
    }
  }

  lemma {:induction false} TotalOfNothing(take: seq<int>)
    requires forall i :: 0 <= i < |take| ==> take[i] == 0
    ensures Total(take) == 0
  {
    if take != [] {
      TotalOfNothing(take[1..]);
    }
  }

  lemma {:induction false} GreedyCheapestStep(side: Side, bound: Option<int>, levels: seq<PriceLevel>,
      take: seq<int>, need: int, floor: int)
    requires Sorted(Opposite(side), levels) && LevelsOk(levels) && IsAllocation(side, bound, levels, take)
    requires 0 < need <= Total(take) && NoneBelow(side, levels, floor)
    requires levels != [] && Eligible(side, bound, levels[0].price)
    ensures Signed(side, CostTaken(Greedy(side, bound, levels, need))) + floor * (Total(take) - need)
         <= Signed(side, Cost(levels, take))
    decreases |levels|, 0
  {
    hide Greedy, EligibleDepth, CostTaken;
    var price, best := levels[0].price, Signed(side, levels[0].price);
    var quantity := Min(need, levels[0].quantity);
    var surplus := Total(take) - need;
    GreedyFront(side, bound, levels, need);
    SignedProduct(side, price, quantity);
    Scaled(floor, best, surplus);
    assert NoneBelow(side, levels, best);
    if need == quantity {
      assert CostTaken([]) == 0 by { CostOfNothing(); }
      CostAtLeast(side, bound, levels, take, best);
      Distributes(best, need, surplus);
    } else {
      GreedyCheapest(side, bound, levels[1..], take[1..], need - quantity, best);
      SignedProduct(side, price, take[0]);
      Distributes(best, take[0], Total(take[1..]) - (need - quantity));
      Distributes(best, quantity, surplus);
    }
  }

  lemma {:induction false} CostOfNothing()
    ensures CostTaken([]) == 0
  {
  }

  // ---- Arriving orders ----

  /** The fills of a sweep: the k-th at the k-th best level, as much in all as the limit and the depth
      allow, and no allocation of the same quantity over the same depth costs a buyer less or earns a seller more. */
  ghost predicate OptimalSweep(o: Order, bound: Option<int>, levels: seq<PriceLevel>, fills: seq<Fill>) {
    var taken := Taken(fills);
    && TotalTaken(taken) == Min(o.original, EligibleDepth(o.side, bound, levels))
    && |fills| <= |levels|
    && (forall k :: 0 <= k < |fills| ==>
      fills[k].price == levels[k].price && 0 < fills[k].quantity <= levels[k].quantity && Eligible(o.side, bound, fills[k].price))
    && forall take :: IsAllocation(o.side, bound, levels, take) && Total(take) == TotalTaken(taken) ==>
      Signed(o.side, CostTaken(taken)) <= Signed(o.side, Cost(levels, take))
  }

  lemma {:induction false} GreedyOptimal(side: Side, bound: Option<int>, levels: seq<PriceLevel>, take: seq<int>,
      need: int)
    requires Sorted(Opposite(side), levels) && LevelsOk(levels) && 0 <= need
    requires IsAllocation(side, bound, levels, take) && Total(take) == TotalTaken(Greedy(side, bound, levels, need))
    ensures Signed(side, CostTaken(Greedy(side, bound, levels, need))) <= Signed(side, Cost(levels, take))
  {
    DepthNonNegative(side, bound, levels);
    GreedyTotal(side, bound, levels, need);
    var enough := Min(need, EligibleDepth(side, bound, levels));
    GreedyCapped(side, bound, levels, need);
    var floor := if levels == [] then 0 else Signed(side, levels[0].price);
    GreedyCheapest(side, bound, levels, take, enough, floor);
  }

  /** Asking for more than there is changes nothing. */
  lemma {:induction false} GreedyCapped(side: Side, bound: Option<int>, levels: seq<PriceLevel>, need: int)
    requires Sorted(Opposite(side), levels) && LevelsOk(levels) && 0 <= need
    ensures Greedy(side, bound, levels, Min(need, EligibleDepth(side, bound, levels))) == Greedy(side, bound, levels, need)
  {
    DepthNonNegative(side, bound, levels);
    if levels != [] && need > 0 && Eligible(side, bound, levels[0].price) {
      DepthNonNegative(side, bound, levels[1..]);
      GreedyCapped(side, bound, levels[1..], need - Min(need, levels[0].quantity));
    }
  }

  /** The k-th quantity is taken from the k-th level, within the limit and within `need`. */
  predicate TakesInOrder(side: Side, bound: Option<int>, levels: seq<PriceLevel>, need: int, taken: seq<PriceLevel>) {
    && |taken| <= |levels|
    && forall k :: 0 <= k < |taken| ==>
      && taken[k].price == levels[k].price && 0 < taken[k].quantity <= Min(need, levels[k].quantity)
      && Eligible(side, bound, taken[k].price)
  }

  lemma {:induction false} TakesFirst(side: Side, bound: Option<int>, levels: seq<PriceLevel>, need: int, less: int,
      first: PriceLevel, rest: seq<PriceLevel>)
    requires levels != [] && less <= need && TakesInOrder(side, bound, levels[1..], less, rest)
    requires first.price == levels[0].price && 0 < first.quantity <= Min(need, levels[0].quantity)
    requires Eligible(side, bound, first.price)
    ensures TakesInOrder(side, bound, levels, need, [first] + rest)
  {
    hide Eligible;
    var taken := [first] + rest;
    forall k | 0 < k < |taken|
      ensures taken[k] == rest[k - 1] && levels[k] == levels[1..][k - 1]
    {
    }
  }

  /** The k-th greedy choice is at the k-th level. */
  lemma {:induction false} GreedyLevels(side: Side, bound: Option<int>, levels: seq<PriceLevel>, need: int)
    requires LevelsOk(levels)
    ensures TakesInOrder(side, bound, levels, need, Greedy(side, bound, levels, need))
  {
    if levels != [] && 0 < need && Eligible(side, bound, levels[0].price) {
      var quantity := Min(need, levels[0].quantity);
      GreedyLevels(side, bound, levels[1..], need - quantity);
      GreedyFront(side, bound, levels, need);
      TakesFirst(side, bound, levels, need, need - quantity, PriceLevel(levels[0].price, quantity),
        Greedy(side, bound, levels[1..], need - quantity));
    }
  }

  lemma {:induction false} SweepOptimal(ppm: int, o: Order, bound: Option<int>, levels: seq<PriceLevel>,
      nextFill: int)
    requires 0 <= ppm && Sorted(Opposite(o.side), levels) && LevelsOk(levels) && 0 <= o.original && o.filled == 0
    requires SweepFrom(ppm, levels, bound, Sweep(o, [], nextFill, false), 0).Done?
    ensures var swept := SweepFrom(ppm, levels, bound, Sweep(o, [], nextFill, false), 0).value;
      && OptimalSweep(o, bound, levels, swept.fills)
      && swept.order == o.(filled := Min(o.original, EligibleDepth(o.side, bound, levels)))
  {
    hide SweepFrom, Greedy, EligibleDepth, CostTaken, TotalTaken, OptimalSweep, LevelsOk, Sorted;
    var start := Sweep(o, [], nextFill, false);
    SweepIsGreedy(ppm, levels, bound, start, 0);
    assert levels[0..] == levels && Taken([]) == [];
    GreedyTotal(o.side, bound, levels, o.original);
    GreedyIsOptimal(o, bound, levels, SweepFrom(ppm, levels, bound, start, 0).value.fills);
  }

  lemma {:induction false} GreedyIsOptimal(o: Order, bound: Option<int>, levels: seq<PriceLevel>, fills: seq<Fill>)
    requires Sorted(Opposite(o.side), levels) && LevelsOk(levels) && 0 <= o.original
    requires Taken(fills) == Greedy(o.side, bound, levels, o.original)
    ensures OptimalSweep(o, bound, levels, fills)
  {
    hide Greedy, EligibleDepth, Eligible, CostTaken, TotalTaken;
    GreedyTotal(o.side, bound, levels, o.original);
    GreedyLevels(o.side, bound, levels, o.original);
    forall k | 0 <= k < |fills|
      ensures Taken(fills)[k] == PriceLevel(fills[k].price, fills[k].quantity)
    {
    }
    forall take | IsAllocation(o.side, bound, levels, take) && Total(take) == TotalTaken(Taken(fills))
      ensures Signed(o.side, CostTaken(Taken(fills))) <= Signed(o.side, Cost(levels, take))
    {
      GreedyOptimal(o.side, bound, levels, take, o.original);
    }
  }

  lemma {:induction false} DepthOk(side: Side, book: Book)
    requires BookOk(book)
    ensures Sorted(Opposite(side), OppositeDepth(side, book)) && LevelsOk(OppositeDepth(side, book))
  {
  }

  /** An arriving limit order sweeps optimally, never beyond its limit, and its remainder rests if and
      only if every eligible level has been taken completely without filling it. */
  lemma {:induction false} LimitSweep(cfg: ExecConfig, e: Exec, o: Order, book: Book)
    requires ConfigOk(cfg) && BookOk(book) && OrderOk(o) && o.status.Pending? && o.kind.Limit?
    requires LimitArrival(cfg, e, o, book).Done?
    ensures var a := LimitArrival(cfg, e, o, book).value;
      var depth := EligibleDepth(o.side, o.limit, OppositeDepth(o.side, book));
      && OptimalSweep(o, o.limit, OppositeDepth(o.side, book), a.fills)
      && a.order.filled == Min(o.original, depth)
      && (IsResting(a.order.status) <==> depth < o.original)
      && (a.order.status.Filled? <==> o.original <= depth)
  {
    hide SweepFrom, OptimalSweep, EligibleDepth, QueueAhead, Rest, FillFor;
    DepthOk(o.side, book);
    var acknowledged := Transition(o, Acknowledged).value;
    SweepOptimal(cfg.feePpm, acknowledged, o.limit, OppositeDepth(o.side, book), e.nextFill);
    SameOrderOptimal(o, acknowledged, o.limit, OppositeDepth(o.side, book), LimitArrival(cfg, e, o, book).value.fills);
  }

  lemma {:induction false} SameOrderOptimal(o: Order, p: Order, bound: Option<int>, levels: seq<PriceLevel>,
      fills: seq<Fill>)
    requires OptimalSweep(p, bound, levels, fills) && o.side == p.side && o.original == p.original
    ensures OptimalSweep(o, bound, levels, fills)
  {
  }

  /** A market order sweeps optimally: it is Filled if the depth suffices, Canceled with what there was
      if not, and Rejected exactly when there was nothing. */
  lemma {:induction false} MarketSweep(ppm: int, o: Order, book: Book, nextFill: int)
    requires 0 <= ppm && BookOk(book) && OrderOk(o) && o.status.Pending? && o.kind.Market?
    requires OrderExecution(ppm, o, book, nextFill).Done?
    ensures var x := OrderExecution(ppm, o, book, nextFill).value;
      var depth := EligibleDepth(o.side, None, OppositeDepth(o.side, book));
      && OptimalSweep(o, None, OppositeDepth(o.side, book), x.fills)
      && x.order.filled == Min(o.original, depth)
      && (x.order.status.Filled? <==> o.original <= depth)
      && (x.order.status.Canceled? <==> 0 < depth < o.original)
      && (x.order.status.Rejected? <==> depth == 0)
  {
    hide SweepFrom, OptimalSweep, FillFor, LevelsOk;
    var depth := OppositeDepth(o.side, book);
    DepthOk(o.side, book);
    DepthNonNegative(o.side, None, depth);
    if depth == [] {
      NothingTaken(o, None, depth);
    } else {
      var acknowledged := Transition(o, Acknowledged).value;
      SweepOptimal(ppm, acknowledged, None, depth, nextFill);
      var swept := SweepFrom(ppm, depth, None, Sweep(acknowledged, [], nextFill, false), 0).value;
      SameOrderOptimal(o, acknowledged, None, depth, swept.fills);
      MarketTakesSomething(ppm, depth, Sweep(acknowledged, [], nextFill, false));
      LevelPositive(depth, 0);
      DepthNonNegative(o.side, None, depth[1..]);
    }
  }

  lemma {:induction false} NothingTaken(o: Order, bound: Option<int>, levels: seq<PriceLevel>)
    requires levels == [] && 0 <= o.original
    ensures OptimalSweep(o, bound, levels, [])
  {
    assert Taken([]) == [];
  }

  // ---- When an arrival is refused ----

  /** A limit arrival throws exactly when the fee of one of its fills does not fit 64 bits. */
  lemma {:induction false} LimitAccepted(cfg: ExecConfig, e: Exec, o: Order, book: Book)
    requires ConfigOk(cfg) && BookOk(book) && OrderOk(o) && o.status.Pending? && o.kind.Limit?
    ensures LimitArrival(cfg, e, o, book).Done? <==>
      FeesFit(cfg.feePpm, Greedy(o.side, o.limit, OppositeDepth(o.side, book), o.original))
  {
    hide SweepFrom, IsPath, FeesFit, Greedy, SweptFill, Sorted;
    var depth := OppositeDepth(o.side, book);
    DepthOk(o.side, book);
    var acknowledged := Transition(o, Acknowledged).value;
    var start := Sweep(acknowledged, [], e.nextFill, false);
    SweepAccepted(cfg.feePpm, depth, o.limit, start, 0);
    assert depth[0..] == depth;
    if SweepFrom(cfg.feePpm, depth, o.limit, start, 0).Done? {
      SweepOptimal(cfg.feePpm, acknowledged, o.limit, depth, e.nextFill);
      VisibleBound(acknowledged, book);
      InitialQueueBound(cfg.queuePpm, ShownAt(LevelsOf(book, o.side), o.limit.value));
    }
  }

  /** Likewise a market arrival. */
  lemma {:induction false} MarketAccepted(ppm: int, o: Order, book: Book, nextFill: int)
    requires 0 <= ppm <= PPM && BookOk(book) && OrderOk(o) && o.status.Pending? && o.kind.Market?
    ensures OrderExecution(ppm, o, book, nextFill).Done? <==>
      FeesFit(ppm, Greedy(o.side, None, OppositeDepth(o.side, book), o.original))
  {
    hide SweepFrom, IsPath, FeesFit, Greedy, OptimalSweep, Sorted, LevelsOk;
    var depth := OppositeDepth(o.side, book);
    DepthOk(o.side, book);
    var acknowledged := Transition(o, Acknowledged).value;
    var start := Sweep(acknowledged, [], nextFill, false);
    if depth == [] {
      GreedyOfNothing(o.side, o.original);
      NoFees(ppm);
    } else {
      SweepAccepted(ppm, depth, None, start, 0);
      assert depth[0..] == depth;
      if SweepFrom(ppm, depth, None, start, 0).Done? {
        MarketTakesSomething(ppm, depth, start);
        SweepOptimal(ppm, acknowledged, None, depth, nextFill);
      }
    }
  }

  lemma {:induction false} GreedyOfNothing(side: Side, need: int)
    ensures Greedy(side, None, [], need) == []
  {
  }

  // ---- Status histories ----

  /** The statuses a market order passes through after Pending, by the depth it finds. */
  function MarketStatuses(original: int, depth: int): seq<OrderStatus> {
    if depth == 0 then [Rejected]
    else if original <= depth then [Acknowledged, Filled]
    else [Acknowledged, PartiallyFilled, Canceled]
  }

  lemma {:induction false} MarketHistory(ppm: int, o: Order, book: Book, nextFill: int)
    requires 0 <= ppm && BookOk(book) && OrderOk(o) && o.status.Pending? && o.kind.Market?
    requires OrderExecution(ppm, o, book, nextFill).Done?
    ensures OrderExecution(ppm, o, book, nextFill).value.order.history
         == o.history + MarketStatuses(o.original, EligibleDepth(o.side, None, OppositeDepth(o.side, book)))
  {
    hide SweepFrom, OptimalSweep, FillFor, LevelsOk, IsPath;
    var depth := OppositeDepth(o.side, book);
    DepthOk(o.side, book);
    DepthNonNegative(o.side, None, depth);
    if depth != [] {
      var acknowledged := Transition(o, Acknowledged).value;
      SweepOptimal(ppm, acknowledged, None, depth, nextFill);
      MarketTakesSomething(ppm, depth, Sweep(acknowledged, [], nextFill, false));
      LevelPositive(depth, 0);
      DepthNonNegative(o.side, None, depth[1..]);
      assert o.history + [Acknowledged] + [Filled] == o.history + [Acknowledged, Filled];
      assert o.history + [Acknowledged] + [PartiallyFilled] + [Canceled]
          == o.history + [Acknowledged, PartiallyFilled, Canceled];
    }
  }

  /** The statuses a limit order passes through on arrival. */
  function LimitStatuses(original: int, depth: int): seq<OrderStatus> {
    if original <= depth then [Acknowledged, Filled]
    else if 0 < depth then [Acknowledged, PartiallyFilled]
    else [Acknowledged]
  }

  lemma {:induction false} LimitHistory(cfg: ExecConfig, e: Exec, o: Order, book: Book)
    requires ConfigOk(cfg) && BookOk(book) && OrderOk(o) && o.status.Pending? && o.kind.Limit?
    requires LimitArrival(cfg, e, o, book).Done?
    ensures LimitArrival(cfg, e, o, book).value.order.history
         == o.history + LimitStatuses(o.original, EligibleDepth(o.side, o.limit, OppositeDepth(o.side, book)))
  {
    hide SweepFrom, OptimalSweep, EligibleDepth, QueueAhead, FillFor, IsPath, LevelsOk;
    var depth := OppositeDepth(o.side, book);
    DepthOk(o.side, book);
    var acknowledged := Transition(o, Acknowledged).value;
    SweepOptimal(cfg.feePpm, acknowledged, o.limit, depth, e.nextFill);
    var swept := SweepFrom(cfg.feePpm, depth, o.limit, Sweep(acknowledged, [], e.nextFill, false), 0).value;
    FilledMeansFills(acknowledged, o.limit, depth, swept.fills);
    assert o.history + [Acknowledged] + [Filled] == o.history + [Acknowledged, Filled];
    assert o.history + [Acknowledged] + [PartiallyFilled] == o.history + [Acknowledged, PartiallyFilled];
  }

  /** A sweep makes no fill exactly when nothing is eligible. */
  lemma {:induction false} FilledMeansFills(o: Order, bound: Option<int>, levels: seq<PriceLevel>, fills: seq<Fill>)
    requires OptimalSweep(o, bound, levels, fills) && LevelsOk(levels) && 0 < o.original
    ensures 0 <= EligibleDepth(o.side, bound, levels) && (fills == [] <==> EligibleDepth(o.side, bound, levels) == 0)
  {
    DepthNonNegative(o.side, bound, levels);
    PositiveTotal(Taken(fills));
  }

  lemma {:induction false} PositiveTotal(taken: seq<PriceLevel>)
    requires forall k :: 0 <= k < |taken| ==> 0 < taken[k].quantity
    ensures 0 <= TotalTaken(taken) && (TotalTaken(taken) == 0 <==> taken == [])
  {
    if taken != [] {
      PositiveTotal(taken[1..]);
    }
  }

  // ---- Queue position ----

  predicate FilledAt(fills: seq<Fill>, price: int) {
    exists k :: 0 <= k < |fills| && fills[k].price == price
  }

  lemma {:induction false} FilledAtMore(fills: seq<Fill>, fill: Fill, price: int)
    ensures FilledAt(fills + [fill], price) <==> FilledAt(fills, price) || fill.price == price
  {
    var longer := fills + [fill];
    if FilledAt(fills, price) {
      var k :| 0 <= k < |fills| && fills[k].price == price;
      assert longer[k].price == price;
    }
    if fill.price == price {
      assert longer[|fills|].price == price;
    }
  }

  /** The flag says whether the sweep filled anything at the limit price itself. */
  lemma {:induction false} AtLimitMeaning(ppm: int, levels: seq<PriceLevel>, limit: int, acc: Sweep, i: nat)
    requires 0 <= ppm && i <= |levels| && (acc.atLimit <==> FilledAt(acc.fills, limit))
    requires SweepFrom(ppm, levels, Some(limit), acc, i).Done?
    ensures var swept := SweepFrom(ppm, levels, Some(limit), acc, i).value;
      swept.atLimit <==> FilledAt(swept.fills, limit)
    decreases |levels| - i
  {
    hide FilledAt;
    if i < |levels| {
      if levels[i].quantity == 0 || acc.order.Remaining() == 0 {
        AtLimitMeaning(ppm, levels, limit, acc, i + 1);
      } else if Allows(acc.order.side, limit, levels[i].price) {
        var next := SweepLevel(ppm, levels[i], Some(limit), acc).value;
        var fill := next.fills[|acc.fills|];
        assert next.fills == acc.fills + [fill];
        FilledAtMore(acc.fills, fill, limit);
        AtLimitMeaning(ppm, levels, limit, next, i + 1);
      }
    }
  }

  function ShownAt(levels: seq<PriceLevel>, price: int): int {
    if QuantityAt(levels, price).Some? then QuantityAt(levels, price).value else 0
  }

  /** A remainder rests in front of everything if the order traded at its own limit price, else behind
      the configured fraction of what its own side shows there; it is never farther back than that. */
  lemma {:induction false} LimitQueue(cfg: ExecConfig, e: Exec, o: Order, book: Book)
    requires ConfigOk(cfg) && BookOk(book) && OrderOk(o) && o.status.Pending? && o.kind.Limit?
    requires LimitArrival(cfg, e, o, book).Done? && IsResting(LimitArrival(cfg, e, o, book).value.order.status)
    ensures var a := LimitArrival(cfg, e, o, book).value;
      var shown := ShownAt(LevelsOf(book, o.side), o.limit.value);
      var queue := if FilledAt(a.fills, o.limit.value) then 0 else RoundedRate(cfg.queuePpm, shown);
      && a.exec.active == e.active + [ActiveOrder(o.id, o.side, o.limit.value, queue, o.arrival)]
      && 0 <= queue <= shown
  {
    hide SweepFrom, FilledAt;
    LimitArrivalKeeps(cfg, e, o, book);
    var acknowledged := Transition(o, Acknowledged).value;
    var start := Sweep(acknowledged, [], e.nextFill, false);
    var depth := OppositeDepth(o.side, book);
    NothingFilled(o.limit.value);
    AtLimitMeaning(cfg.feePpm, depth, o.limit.value, start, 0);
    VisibleBound(acknowledged, book);
    InitialQueueBound(cfg.queuePpm, ShownAt(LevelsOf(book, o.side), o.limit.value));
    SweepOptimal(cfg.feePpm, acknowledged, o.limit, depth, e.nextFill);
  }

  lemma {:induction false} NothingFilled(price: int)
    ensures !FilledAt([], price)
  {
  }
}
