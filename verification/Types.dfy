/** Integer ranges, shared enumerations and the two outcomes of a C++ call. */
module Types {

  const INT64_MAX: int := 0x7FFF_FFFF_FFFF_FFFF
  const INT64_MIN: int := -0x8000_0000_0000_0000
  const UINT64_MAX: int := 0xFFFF_FFFF_FFFF_FFFF
  const UINT32_MAX: int := 0xFFFF_FFFF
  const INT128_MAX: int := 0x7FFF_FFFF_FFFF_FFFF_FFFF_FFFF_FFFF_FFFF
  const UINT128_MAX: int := 0xFFFF_FFFF_FFFF_FFFF_FFFF_FFFF_FFFF_FFFF

  /** Denominator of every parts-per-million rate. */
  const PPM: int := 1_000_000

  predicate IsInt64(x: int) {
    INT64_MIN <= x <= INT64_MAX
  }

  /** A price or quantity that passes `validate_price_ticks` / `validate_quantity`. */
  predicate IsAmount(x: int) {
    0 <= x <= INT64_MAX
  }

  predicate IsTime(x: int) {
    0 <= x <= UINT64_MAX
  }

  function Min(a: int, b: int): int {
    if a <= b then a else b
  }

  function Max(a: int, b: int): int {
    if a <= b then b else a
  }

  datatype Option<+T> = None | Some(value: T)

  datatype Side = Buy | Sell

  datatype OrderType = Market | Limit

  datatype OrderStatus = New | Pending | Acknowledged | PartiallyFilled | Filled | Canceled | Rejected

  /** Which argument check failed. */
  datatype Reason =
    | NegativePrice
    | NegativeQuantity
    | ZeroQuantity
    | MissingLimitPrice
    | InvalidTransition
    | ExceedsRemaining
    | UnknownOrder
    | NotAnArrival
    | NotPending
    | ArrivalMismatch
    | NotResting
    | ScheduleInPast
    | ClockBackward
    | NegativeFee
    | DuplicateFill
    | DuplicateKey
    | OutOfOrderKey
    | MalformedDecimal
    | NotAMultiple
    | WrongOrderType

  /** The exception types the source throws. */
  datatype Error =
    | InvalidArgument(reason: Reason)
    | OverflowError
    | OutOfRange
    | LogicError

  /** A call either returns or throws. */
  datatype Outcome<+S> = Done(value: S) | Threw(error: Error) {

    predicate IsFailure() {
      Threw?
    }

    function PropagateFailure<U>(): Outcome<U>
      requires Threw?
    {
      Threw(error)
    }

    function Extract(): S
      requires Done?
    {
      value
    }
  }

  /** `(timestamp_ns, sequence_id)`, compared lexicographically. */
  datatype EventKey = EventKey(timestamp: int, sequence: int)

  predicate KeyLess(a: EventKey, b: EventKey) {
    a.timestamp < b.timestamp || (a.timestamp == b.timestamp && a.sequence < b.sequence)
  }

  datatype MarketEvent =
    | BookUpdate(key: EventKey, side: Side, price: int, quantity: int)
    | Trade(key: EventKey, price: int, quantity: int, aggressor: Option<Side>)

  datatype Fill = Fill(orderId: int, side: Side, price: int, quantity: int, timestamp: int, sequence: int, fee: int)

  datatype Intent = Intent(side: Side, quantity: int, kind: OrderType, limit: Option<int>, decision: int)

  function Opposite(side: Side): Side {
    if side.Buy? then Sell else Buy
  }
}
