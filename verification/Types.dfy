/** Vocabulary shared by every module: results that may fail, and the enumerations of the trading domain. */
module Types {

  datatype Option<+T> = None | Some(value: T)

  /** The exceptions the modelled operations raise. */
  datatype Error =
    | NotPendingNew        // an order that has already been through the book was submitted
    | DuplicateOrderId     // an order id is already in the book
    | UnknownInstrument    // the registry has no contract terms
    | TerminalOrder        // a settled order was asked to change
    | ForeignFill          // a fill claims another order, instrument or side
    | BadFillQuantity      // a fill of no size
    | OverFill             // a fill larger than what remains
    | ThroughLimit         // a fill worse than the limit
    | InvalidOrder         // price fields contradict the order type
    | Unpriceable          // the price model refused
    | OutOfOrder           // a data source went back in time
    | ClockBackwards       // a snapshot would not advance the clock
    | NoTemplate           // nothing to model a subscription on
    | DuplicateRows        // duplicate rows under the strict policy
    | FlatPosition         // an expiry of nothing
    | NotAnOption          // an expiry of something that does not expire
    | NeverPriced          // an expiry whose underlying was never observed

  /** What a call hands back: a value, or the exception that ended it. */
  datatype Outcome<+T> = Ok(value: T) | Raised(error: Error) {
    predicate IsFailure() {
      Raised?
    }

    function PropagateFailure<U>(): Outcome<U>
      requires Raised?
    {
      Raised(error)
    }

    function Extract(): T
      requires Ok?
    {
      value
    }
  }

  /** UTC nanoseconds since the epoch. */
  type Time = int
  type OrderId = string
  type InstrumentId = string

  const NS_PER_DAY: int := 86_400_000_000_000

  /** The UTC calendar date of an instant, as a day number. */
  function Day(at: Time): int {
    at / NS_PER_DAY
  }

  /** How far short of its size an order may be and still be done; a print no larger than this is none at all. */
  const QUANTITY_TOLERANCE: real := 0.000000001
  /** Prices closer than this are the same price. */
  const PRICE_TOLERANCE: real := 0.000000001

  datatype Side = Buy | Sell {
    function Sign(): real {
      if Buy? then 1.0 else -1.0
    }

    function Opposite(): Side {
      if Buy? then Sell else Buy
    }
  }

  datatype OrderType = Market | Limit | Stop | StopLimit | MarketOnOpen | MarketOnClose {
    predicate NeedsLimit() {
      Limit? || StopLimit?
    }

    predicate NeedsStop() {
      Stop? || StopLimit?
    }

    /** Types that trade at whatever the bar offers. */
    predicate AtMarket() {
      Market? || MarketOnOpen? || MarketOnClose?
    }
  }

  datatype TimeInForce = Day_ | Gtc | Gtd | Ioc | Fok {
    /** One look at the market, then done. */
    predicate OneShot() {
      Ioc? || Fok?
    }
  }

  datatype OrderStatus = PendingNew | Accepted | PartiallyFilled | Filled | Cancelled | Rejected | Expired {
    predicate IsTerminal() {
      Filled? || Cancelled? || Rejected? || Expired?
    }

    predicate IsOpen() {
      !IsTerminal()
    }
  }

  datatype RejectReason = NotTradeable | InstrumentExpired | ZeroOrNegativeQuantity | BelowMinLot | NotShortable

  function Max(a: real, b: real): (r: real) {
    if a < b then b else a
  }

  function Min(a: real, b: real): (r: real) {
    if b < a then b else a
  }

  function Abs(a: real): (r: real) {
    if a < 0.0 then -a else a
  }
}
