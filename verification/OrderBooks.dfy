/** The visible L2 book (order_book.cpp). Each side is the in-order traversal of its `std::map`. */
module OrderBooks {
  import opened Types

  datatype PriceLevel = PriceLevel(price: int, quantity: int)

  datatype Book = Book(bids: seq<PriceLevel>, asks: seq<PriceLevel>)

  const EMPTY_BOOK: Book := Book([], [])

  /** The comparator of a side: `std::greater` for bids, `std::less` for asks. */
  predicate Better(side: Side, p: int, q: int) {
    if side.Buy? then p > q else p < q
  }

  predicate Sorted(side: Side, levels: seq<PriceLevel>) {
    forall i, j :: 0 <= i < j < |levels| ==> Better(side, levels[i].price, levels[j].price)
  }

  predicate LevelsOk(levels: seq<PriceLevel>) {
    forall i :: 0 <= i < |levels| ==> IsAmount(levels[i].price) && 0 < levels[i].quantity <= INT64_MAX
  }

  predicate BookOk(book: Book) {
    && Sorted(Buy, book.bids) && Sorted(Sell, book.asks)
    && LevelsOk(book.bids) && LevelsOk(book.asks)
  }

  function LevelsOf(book: Book, side: Side): seq<PriceLevel> {
    if side.Buy? then book.bids else book.asks
  }

  /** `levels[price] = quantity`. */
  function Put(side: Side, levels: seq<PriceLevel>, price: int, quantity: int): seq<PriceLevel> {
    if levels == [] || Better(side, price, levels[0].price) then [PriceLevel(price, quantity)] + levels
    else if levels[0].price == price then [PriceLevel(price, quantity)] + levels[1..]
    else [levels[0]] + Put(side, levels[1..], price, quantity)
  }

  /** `levels.erase(price)`, a no-op when the level is absent. */
  function Erase(levels: seq<PriceLevel>, price: int): seq<PriceLevel> {
    if levels == [] then []
    else if levels[0].price == price then levels[1..]
    else [levels[0]] + Erase(levels[1..], price)
  }

  /** `levels.find(price)`. */
  function QuantityAt(levels: seq<PriceLevel>, price: int): Option<int> {
    if levels == [] then None
    else if levels[0].price == price then Some(levels[0].quantity)
    else QuantityAt(levels[1..], price)
  }

  function SetLevel(side: Side, levels: seq<PriceLevel>, price: int, quantity: int): seq<PriceLevel> {
    if quantity == 0 then Erase(levels, price) else Put(side, levels, price, quantity)
  }

  function ApplyUpdate(book: Book, update: MarketEvent): Outcome<Book>
    requires update.BookUpdate?
  {
    if update.price < 0 then Threw(InvalidArgument(NegativePrice))
    else if update.quantity < 0 then Threw(InvalidArgument(NegativeQuantity))
    else if update.side.Buy? then Done(book.(bids := SetLevel(Buy, book.bids, update.price, update.quantity)))
    else Done(book.(asks := SetLevel(Sell, book.asks, update.price, update.quantity)))
  }

  function BestBid(book: Book): Option<PriceLevel> {
    if book.bids == [] then None else Some(book.bids[0])
  }

  function BestAsk(book: Book): Option<PriceLevel> {
    if book.asks == [] then None else Some(book.asks[0])
  }

  predicate IsCrossed(book: Book) {
    BestBid(book).Some? && BestAsk(book).Some? && BestBid(book).value.price > BestAsk(book).value.price
  }

  function MidPriceX2(book: Book): Outcome<Option<int>> {
    if BestBid(book).None? || BestAsk(book).None? then Done(None)
    else if BestBid(book).value.price > INT64_MAX - BestAsk(book).value.price then Threw(OverflowError)
    else Done(Some(BestBid(book).value.price + BestAsk(book).value.price))
  }

  class OrderBook {
    var bids: seq<PriceLevel>
    var asks: seq<PriceLevel>

    constructor ()
      ensures Value() == EMPTY_BOOK
    {
      bids, asks := [], [];
    }

    function Value(): Book
      reads this
    {
      Book(bids, asks)
    }

    method Apply(update: MarketEvent) returns (result: Outcome<()>)
      requires update.BookUpdate?
      modifies this
      ensures result.Done? ==> ApplyUpdate(old(Value()), update) == Done(Value())
      ensures result.Threw? ==> ApplyUpdate(old(Value()), update) == Threw(result.error) && Value() == old(Value())
    {
      if update.price < 0 {
        return Threw(InvalidArgument(NegativePrice));
      }
      if update.quantity < 0 {
        return Threw(InvalidArgument(NegativeQuantity));
      }
      if update.side == Buy {
        if update.quantity == 0 {
          bids := Erase(bids, update.price);
          return Done(());
        }
        bids := Put(Buy, bids, update.price, update.quantity);
        return Done(());
      }
      if update.quantity == 0 {
        asks := Erase(asks, update.price);
        return Done(());
      }
      asks := Put(Sell, asks, update.price, update.quantity);
      return Done(());
    }

    /** `top_bids(max_levels)` / `top_asks(max_levels)`: the best levels, best first. */
    method TopLevels(side: Side, maxLevels: nat) returns (levels: seq<PriceLevel>)
      ensures levels == LevelsOf(Value(), side)[..Min(maxLevels, |LevelsOf(Value(), side)|)]
    {
      levels := [];
      var source := LevelsOf(Value(), side);
      var index := 0;
      while index < |source| && |levels| != maxLevels
        invariant 0 <= index == |levels| <= Min(maxLevels, |source|)
        invariant levels == source[..index]
      {
        levels := levels + [source[index]];
        index := index + 1;
      }
    }
  }

  // ---- What a fold of updates means ----

  /** The book after applying every book update of `events`, in order. */
  function Fold(events: seq<MarketEvent>): Outcome<Book> {
    if events == [] then Done(EMPTY_BOOK)
    else
      var event := events[|events| - 1];
      var book :- Fold(events[..|events| - 1]);
      if event.BookUpdate? then ApplyUpdate(book, event) else Done(book)
  }

  /** The quantity a level should show: that of the last update naming it, if not a removal. */
  function LastQuantity(events: seq<MarketEvent>, side: Side, price: int): Option<int> {
    if events == [] then None
    else
      var event := events[|events| - 1];
      if event.BookUpdate? && event.side == side && event.price == price then
        (if event.quantity == 0 then None else Some(event.quantity))
      else LastQuantity(events[..|events| - 1], side, price)
  }

  predicate EventOk(event: MarketEvent) {
    IsTime(event.key.timestamp) && IsAmount(event.price) && IsAmount(event.quantity)
  }

  predicate EventsOk(events: seq<MarketEvent>) {
    forall i :: 0 <= i < |events| ==> EventOk(events[i])
  }

  lemma {:induction false} PutAt(side: Side, levels: seq<PriceLevel>, price: int, quantity: int, other: int)
    ensures QuantityAt(Put(side, levels, price, quantity), other)
         == if other == price then Some(quantity) else QuantityAt(levels, other)
  {
    if levels == [] || Better(side, price, levels[0].price) {
      assert Put(side, levels, price, quantity)[1..] == levels;
    } else if levels[0].price == price {
      assert Put(side, levels, price, quantity)[1..] == levels[1..];
    } else {
      PutAt(side, levels[1..], price, quantity, other);
      assert Put(side, levels, price, quantity)[1..] == Put(side, levels[1..], price, quantity);
    }
  }

  lemma {:induction false} QuantityBeyond(side: Side, levels: seq<PriceLevel>, price: int)
    requires forall i :: 0 <= i < |levels| ==> levels[i].price != price
    ensures QuantityAt(levels, price) == None
  {
    if levels != [] {
      QuantityBeyond(side, levels[1..], price);
    }
  }

  lemma {:induction false} EraseAt(side: Side, levels: seq<PriceLevel>, price: int, other: int)
    requires Sorted(side, levels)
    ensures QuantityAt(Erase(levels, price), other) == if other == price then None else QuantityAt(levels, other)
  {
    if levels == [] {
    } else if levels[0].price == price {
      if other == price {
        QuantityBeyond(side, levels[1..], price);
      }
    } else {
      EraseAt(side, levels[1..], price, other);
      assert Erase(levels, price)[1..] == Erase(levels[1..], price);
    }
  }

  /** Every level of a side is worse than `bound`. */
  predicate WorseThan(side: Side, levels: seq<PriceLevel>, bound: int) {
    forall i :: 0 <= i < |levels| ==> Better(side, bound, levels[i].price)
  }

  lemma {:induction false} PutWorse(side: Side, levels: seq<PriceLevel>, price: int, quantity: int, bound: int)
    requires WorseThan(side, levels, bound) && Better(side, bound, price)
    ensures WorseThan(side, Put(side, levels, price, quantity), bound)
  {
    if levels != [] && !Better(side, price, levels[0].price) && levels[0].price != price {
      PutWorse(side, levels[1..], price, quantity, bound);
    }
  }

  lemma {:induction false} PutSorted(side: Side, levels: seq<PriceLevel>, price: int, quantity: int)
    requires Sorted(side, levels)
    ensures Sorted(side, Put(side, levels, price, quantity))
  {
    if levels != [] && !Better(side, price, levels[0].price) && levels[0].price != price {
      PutSorted(side, levels[1..], price, quantity);
      PutWorse(side, levels[1..], price, quantity, levels[0].price);
    }
  }

  lemma {:induction false} PutOk(side: Side, levels: seq<PriceLevel>, price: int, quantity: int)
    requires LevelsOk(levels) && IsAmount(price) && 0 < quantity <= INT64_MAX
    ensures LevelsOk(Put(side, levels, price, quantity))
  {
    if levels != [] && !Better(side, price, levels[0].price) && levels[0].price != price {
      PutOk(side, levels[1..], price, quantity);
    }
  }

  lemma {:induction false} EraseWorse(side: Side, levels: seq<PriceLevel>, price: int, bound: int)
    requires WorseThan(side, levels, bound)
    ensures WorseThan(side, Erase(levels, price), bound)
  {
    if levels != [] && levels[0].price != price {
      EraseWorse(side, levels[1..], price, bound);
    }
  }

  lemma {:induction false} EraseSorted(side: Side, levels: seq<PriceLevel>, price: int)
    requires Sorted(side, levels) && LevelsOk(levels)
    ensures Sorted(side, Erase(levels, price)) && LevelsOk(Erase(levels, price))
  {
    if levels != [] && levels[0].price != price {
      EraseSorted(side, levels[1..], price);
      EraseWorse(side, levels[1..], price, levels[0].price);
    }
  }

  lemma {:induction false} ApplyOk(book: Book, update: MarketEvent)
    requires BookOk(book) && EventOk(update) && update.BookUpdate?
    ensures ApplyUpdate(book, update).Done? && BookOk(ApplyUpdate(book, update).value)
  {
    if update.quantity == 0 {
      EraseSorted(update.side, LevelsOf(book, update.side), update.price);
    } else {
      PutSorted(update.side, LevelsOf(book, update.side), update.price, update.quantity);
      PutOk(update.side, LevelsOf(book, update.side), update.price, update.quantity);
    }
  }

  /** A fold of well-formed updates never throws, keeps both sides strictly sorted with positive
      quantities, and shows at each price exactly what the last update naming it said. */
  lemma {:induction false} FoldMeaning(events: seq<MarketEvent>, side: Side, price: int)
    requires EventsOk(events)
    ensures Fold(events).Done? && BookOk(Fold(events).value)
    ensures QuantityAt(LevelsOf(Fold(events).value, side), price) == LastQuantity(events, side, price)
  {
    if events != [] {
      var event := events[|events| - 1];
      FoldMeaning(events[..|events| - 1], side, price);
      var before := Fold(events[..|events| - 1]).value;
      if event.BookUpdate? {
        ApplyOk(before, event);
        if event.quantity == 0 {
          EraseAt(event.side, LevelsOf(before, event.side), event.price, price);
        } else {
          PutAt(event.side, LevelsOf(before, event.side), event.price, event.quantity, price);
        }
      }
    }
  }

  predicate Storable(event: MarketEvent) {
    event.BookUpdate? ==> 0 <= event.price && 0 <= event.quantity
  }

  /** Update `i` is the first that cannot be stored, and `error` says why. */
  predicate RefusedAt(events: seq<MarketEvent>, i: nat, error: Error) {
    && i < |events| && !Storable(events[i]) && (forall k :: 0 <= k < i ==> Storable(events[k]))
    && error == InvalidArgument(if events[i].price < 0 then NegativePrice else NegativeQuantity)
  }

  /** A stream is refused exactly when some update has a negative price or quantity, and for the first such. */
  lemma {:induction false} FoldAccepted(events: seq<MarketEvent>)
    ensures Fold(events).Done? <==> forall i :: 0 <= i < |events| ==> Storable(events[i])
    ensures Fold(events).Threw? ==> exists i :: RefusedAt(events, i, Fold(events).error)
  {
    if events != [] {
      var last := |events| - 1;
      FoldAccepted(events[..last]);
      if Fold(events[..last]).Threw? {
        var i :| RefusedAt(events[..last], i, Fold(events).error);
        assert RefusedAt(events, i, Fold(events).error);
      } else if Fold(events).Threw? {
        assert RefusedAt(events, last, Fold(events).error);
      }
    }
  }

  /** Two sorted sides with the same lookups are the same sequence, so lookups determine the book. */
  lemma {:induction false} SortedUnique(side: Side, a: seq<PriceLevel>, b: seq<PriceLevel>)
    requires Sorted(side, a) && Sorted(side, b)
    requires forall p :: QuantityAt(a, p) == QuantityAt(b, p)
    ensures a == b
  {
    if a == [] || b == [] {
      if a != [] {
        assert QuantityAt(a, a[0].price).Some?;
        assert false;
      }
      if b != [] {
        assert QuantityAt(b, b[0].price).Some?;
        assert false;
      }
    } else {
      FoundIsMember(a, b[0].price);
      FoundIsMember(b, a[0].price);
      assert QuantityAt(a, b[0].price).Some? && QuantityAt(b, a[0].price).Some?;
      assert a[0].price == b[0].price;
      assert a[0] == b[0];
      forall p
        ensures QuantityAt(a[1..], p) == QuantityAt(b[1..], p)
      {
        if p == a[0].price {
          QuantityBeyond(side, a[1..], p);
          QuantityBeyond(side, b[1..], p);
        } else {
          assert QuantityAt(a, p) == QuantityAt(b, p);
        }
      }
      SortedUnique(side, a[1..], b[1..]);
      assert a == [a[0]] + a[1..] && b == [b[0]] + b[1..];
    }
  }

  lemma {:induction false} FoundIsMember(levels: seq<PriceLevel>, price: int)
    requires QuantityAt(levels, price).Some?
    ensures exists i :: 0 <= i < |levels| && levels[i].price == price && levels[i].quantity == QuantityAt(levels, price).value
  {
    if levels[0].price != price {
      FoundIsMember(levels[1..], price);
      var i :| 0 <= i < |levels[1..]| && levels[1..][i].price == price
        && levels[1..][i].quantity == QuantityAt(levels[1..], price).value;
      assert levels[i + 1].price == price;
    }
  }

  /** Only the last update of each level matters: two streams that agree on those end in one book. */
  lemma {:induction false} BookDetermined(a: seq<MarketEvent>, b: seq<MarketEvent>)
    requires EventsOk(a) && EventsOk(b)
    requires forall side, price :: LastQuantity(a, side, price) == LastQuantity(b, side, price)
    ensures Fold(a) == Fold(b)
  {
    hide Fold, LastQuantity, QuantityAt, Sorted;
    FoldMeaning(a, Buy, 0);
    FoldMeaning(b, Buy, 0);
    var x, y := Fold(a).value, Fold(b).value;
    forall side, price
      ensures QuantityAt(LevelsOf(x, side), price) == QuantityAt(LevelsOf(y, side), price)
    {
      FoldMeaning(a, side, price);
      FoldMeaning(b, side, price);
    }
    SidesDetermined(x, y);
  }

  lemma {:induction false} SidesDetermined(x: Book, y: Book)
    requires BookOk(x) && BookOk(y)
    requires forall side, price :: QuantityAt(LevelsOf(x, side), price) == QuantityAt(LevelsOf(y, side), price)
    ensures x == y
  {
    forall p
      ensures QuantityAt(x.bids, p) == QuantityAt(y.bids, p) && QuantityAt(x.asks, p) == QuantityAt(y.asks, p)
    {
      assert QuantityAt(LevelsOf(x, Buy), p) == QuantityAt(LevelsOf(y, Buy), p);
      assert QuantityAt(LevelsOf(x, Sell), p) == QuantityAt(LevelsOf(y, Sell), p);
    }
    SortedUnique(Buy, x.bids, y.bids);
    SortedUnique(Sell, x.asks, y.asks);
  }
}
