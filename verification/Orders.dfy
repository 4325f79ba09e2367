/** Orders, fills and the order lifecycle: `sigmaloop/domain/order.py`. */
module Orders {
  import opened Types

  /** Protective levels attached to an entry; `trailing` is a fraction of the entry price. */
  datatype BracketSpec = BracketSpec(
    stopLossPrice: Option<real>, stopLossPct: Option<real>,
    takeProfitPrice: Option<real>, takeProfitPct: Option<real>,
    trailingPct: Option<real>)

  /** What never changes once an order is built. The bracket and the trailing distance travel on its metadata. */
  datatype OrderTerms = OrderTerms(
    id: OrderId, instrument: InstrumentId, side: Side, kind: OrderType, submittedAt: Time,
    parent: Option<OrderId>, limit: Option<real>, tif: TimeInForce, expiresAt: Option<Time>,
    reduceOnly: bool, bracket: Option<BracketSpec>, trailing: Option<real>)
  {
    /** At the limit or better, never through it. */
    predicate Accepts(price: real) {
      match limit
      case None => true
      case Some(level) => if side.Buy? then price <= level + PRICE_TOLERANCE else price >= level - PRICE_TOLERANCE
    }
  }

  datatype Fill = Fill(
    seqNo: nat, orderId: OrderId, instrument: InstrumentId, timestamp: Time, side: Side,
    quantity: real, price: real, commission: real, fees: real,
    slippage: real, reference: real, isPartial: bool)

  /** An order's value at one moment. */
  datatype OrderState = OrderState(
    terms: OrderTerms, quantity: real, stop: Option<real>, status: OrderStatus,
    activatedAt: Option<Time>, filled: real, avgPrice: real, commissionPaid: real)
  {
    predicate IsOpen() {
      status.IsOpen()
    }

    function Remaining(): real {
      Max(quantity - filled, 0.0)
    }

    /** The guards of `apply_fill`, in its own order; `None` when the fill may be booked. */
    function Refusal(fill: Fill): Option<Error> {
      if status.IsTerminal() then Some(TerminalOrder)
      else if fill.orderId != terms.id || fill.instrument != terms.instrument || fill.side != terms.side then
        Some(ForeignFill)
      else if fill.quantity <= 0.0 then Some(BadFillQuantity)
      else if fill.quantity > Remaining() + QUANTITY_TOLERANCE then Some(OverFill)
      else if !terms.Accepts(fill.price) then Some(ThroughLimit)
      else None
    }

    /** The order with a fill folded in; a filled order reports its own size, not the sum of its slices. */
    function Booked(fill: Fill): (r: OrderState)
      ensures r == this.(avgPrice := r.avgPrice, commissionPaid := r.commissionPaid, filled := r.filled,
                         status := r.status)
    {
      var total := filled + fill.quantity;
      var average := if total == 0.0 then avgPrice else (avgPrice * filled + fill.price * fill.quantity) / total;
      var complete := total >= quantity - QUANTITY_TOLERANCE;
      this.(avgPrice := average,
            commissionPaid := commissionPaid + fill.commission,
            filled := if complete then quantity else total,
            status := if complete then Filled else PartiallyFilled)
    }
  }

  /** The price-field checks an order runs when it is built; `None` when they pass. */
  function FieldError(terms: OrderTerms, stop: Option<real>): Option<Error> {
    if terms.kind.NeedsLimit() && terms.limit.None? then Some(InvalidOrder)
    else if terms.kind.NeedsStop() && stop.None? then Some(InvalidOrder)
    else if terms.limit.Some? && !terms.kind.NeedsLimit() then Some(InvalidOrder)
    else if terms.limit.Some? && terms.limit.value <= 0.0 then Some(InvalidOrder)
    else if stop.Some? && stop.value <= 0.0 then Some(InvalidOrder)
    else if terms.tif.Gtd? && terms.expiresAt.None? then Some(InvalidOrder)
    else if terms.expiresAt.Some? && terms.expiresAt.value <= terms.submittedAt then Some(InvalidOrder)
    else None
  }

  /** A freshly built order. */
  function Pristine(terms: OrderTerms, quantity: real, stop: Option<real>): OrderState {
    OrderState(terms, quantity, stop, PendingNew, None, 0.0, 0.0, 0.0)
  }

  function NewOrder(terms: OrderTerms, quantity: real, stop: Option<real>): Outcome<OrderState> {
    match FieldError(terms, stop)
    case Some(error) => Raised(error)
    case None => Ok(Pristine(terms, quantity, stop))
  }

  /** The mutable order the broker works. Its id never changes, so two orders of different ids never alias. */
  class Order {
    const terms: OrderTerms
    var quantity: real
    var stop: Option<real>
    var status: OrderStatus
    var activatedAt: Option<Time>
    var filled: real
    var avgPrice: real
    var commissionPaid: real

    /** The order's value at this moment. */
    function View(): OrderState
      reads this
    {
      OrderState(terms, quantity, stop, status, activatedAt, filled, avgPrice, commissionPaid)
    }

    constructor (terms: OrderTerms, quantity: real, stop: Option<real>)
      requires FieldError(terms, stop).None?
      ensures View() == Pristine(terms, quantity, stop)
    {
      this.terms, this.quantity, this.stop := terms, quantity, stop;
      status, activatedAt, filled, avgPrice, commissionPaid := PendingNew, None, 0.0, 0.0, 0.0;
    }

    predicate IsOpen()
      reads this
    {
      status.IsOpen()
    }

    /** Fold a fill in, or refuse it and leave the order as it was. */
    method ApplyFill(fill: Fill) returns (refusal: Option<Error>)
      modifies this`avgPrice, this`commissionPaid, this`filled, this`status
      ensures refusal == old(View()).Refusal(fill)
      ensures refusal.Some? ==> View() == old(View())
      ensures refusal.None? ==> View() == old(View()).Booked(fill)
    {
      if status.IsTerminal() {
        return Some(TerminalOrder);
      }
      if fill.orderId != terms.id || fill.instrument != terms.instrument || fill.side != terms.side {
        return Some(ForeignFill);
      }
      if fill.quantity <= 0.0 {
        return Some(BadFillQuantity);
      }
      if fill.quantity > Max(quantity - filled, 0.0) + QUANTITY_TOLERANCE {
        return Some(OverFill);
      }
      if !terms.Accepts(fill.price) {
        return Some(ThroughLimit);
      }
      var total := filled + fill.quantity;
      avgPrice := if total == 0.0 then avgPrice else (avgPrice * filled + fill.price * fill.quantity) / total;
      commissionPaid := commissionPaid + fill.commission;
      if total >= quantity - QUANTITY_TOLERANCE {
        filled, status := quantity, Filled;
      } else {
        filled, status := total, PartiallyFilled;
      }
      return None;
    }

    /** Refuse an order; terminal states are final. */
    method Reject() returns (refusal: Option<Error>)
      modifies this`status
      ensures refusal == if old(status).IsTerminal() then Some(TerminalOrder) else None
      ensures View() == if refusal.Some? then old(View()) else old(View()).(status := Rejected)
    {
      if status.IsTerminal() {
        return Some(TerminalOrder);
      }
      status := Rejected;
      return None;
    }

    method Cancel() returns (refusal: Option<Error>)
      modifies this`status
      ensures refusal == if old(status).IsTerminal() then Some(TerminalOrder) else None
      ensures View() == if refusal.Some? then old(View()) else old(View()).(status := Cancelled)
    {
      if status.IsTerminal() {
        return Some(TerminalOrder);
      }
      status := Cancelled;
      return None;
    }
  }
}
