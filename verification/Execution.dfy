/** The execution models: when an order may trade and where in the bar — `sigmaloop/execution/models.py`. */
module Execution {
  import opened Types
  import opened Orders

  datatype Quote = Quote(bid: real, ask: real) {
    function Mid(): real {
      (bid + ask) * 0.5
    }
  }

  datatype RawBar = RawBar(open: real, high: real, low: real, close: real, volume: real, quote: Option<Quote>)

  /** A bar as its constructor admits it. */
  type Bar = b: RawBar
    | b.low <= b.open <= b.high && b.low <= b.close <= b.high && b.volume >= 0.0
    witness RawBar(0.0, 0.0, 0.0, 0.0, 0.0, None)

  datatype ExecutionModel = NextBarOpen(allowGapImprovement: bool) | NextBarClose | SameBarClose

  /** The level at which a bar fills an order anchored at `anchor`, or `None`. */
  function TriggeredPrice(o: OrderState, bar: Bar, anchor: real, gapImprovement: bool): Option<real> {
    var isBuy := o.terms.side.Buy?;
    if o.terms.kind.AtMarket() then Some(anchor)
    else if o.terms.kind.Limit? then
      match o.terms.limit
      case None => None
      case Some(limit) =>
        if isBuy then
          if bar.low <= limit + PRICE_TOLERANCE then Some(Min(anchor, limit)) else None
        else
          if bar.high >= limit - PRICE_TOLERANCE then Some(Max(anchor, limit)) else None
    else
      match o.stop
      case None => None
      case Some(stop) =>
        if (if isBuy then bar.high < stop - PRICE_TOLERANCE else bar.low > stop + PRICE_TOLERANCE) then None
        else
          var triggered := if gapImprovement then stop else if isBuy then Max(anchor, stop) else Min(anchor, stop);
          if o.terms.kind.Stop? || o.terms.Accepts(triggered) then Some(triggered) else None
  }

  predicate IsEligible(model: ExecutionModel, o: OrderState, at: Time) {
    && o.IsOpen()
    && if model.SameBarClose? then at >= o.terms.submittedAt else at > o.terms.submittedAt
  }

  /** The reference price of a fill on this bar, or `None` when the bar does not fill the order. */
  function TryFill(model: ExecutionModel, o: OrderState, bar: Option<Bar>, sessionClose: bool): Option<real> {
    match bar
    case None => None
    case Some(b) =>
      match model
      case NextBarOpen(gap) =>
        if o.terms.kind.MarketOnClose? && !sessionClose then None
        else TriggeredPrice(o, b, if o.terms.kind.MarketOnClose? then b.close else b.open, gap)
      case _ => TriggeredPrice(o, b, b.close, false)
  }

  /** Time in force: GTD at its date, DAY once a later date than its first eligible bar is reached. */
  predicate ShouldExpire(o: OrderState, at: Time) {
    if !o.IsOpen() then false
    else if o.terms.expiresAt.Some? && at >= o.terms.expiresAt.value then true
    else if !o.terms.tif.Day_? then false
    else if o.activatedAt.None? then false
    else Day(at) > Day(o.activatedAt.value)
  }

  /** The price at which a model reads the bar for an order. */
  function Anchor(model: ExecutionModel, o: OrderState, bar: Bar): real {
    if model.NextBarOpen? && !o.terms.kind.MarketOnClose? then bar.open else bar.close
  }

  /** No free money: without gap improvement a stop never fills better than the anchor the bar offered, a limit
      never fills worse than its limit, and every reference price lies in the bar or at the order's own level. */
  lemma NoFreeMoney(model: ExecutionModel, o: OrderState, bar: Bar, sessionClose: bool)
    requires TryFill(model, o, Some(bar), sessionClose).Some?
    ensures
      var price := TryFill(model, o, Some(bar), sessionClose).value;
      var anchor := Anchor(model, o, bar);
      var honest := !(model.NextBarOpen? && model.allowGapImprovement);
      && (o.terms.kind.AtMarket() ==> price == anchor)
      && (o.terms.kind.Limit? ==> o.terms.Accepts(price)
                                  && (if o.terms.side.Buy? then price <= anchor else price >= anchor))
      && (o.terms.kind.StopLimit? ==> o.terms.Accepts(price))
      && (o.terms.kind.NeedsStop() && honest ==>
            if o.terms.side.Buy? then anchor <= price <= bar.high + PRICE_TOLERANCE
            else bar.low - PRICE_TOLERANCE <= price <= anchor)
      && (honest ==> bar.low - PRICE_TOLERANCE <= price <= bar.high + PRICE_TOLERANCE)
  {
  }

  // ---- when an order fills, and at what price ------------------------------------------------------------------

  /** How much worse one price is than another for a side: more to pay, or less to get. */
  function WorseBy(side: Side, price: real, than: real): real {
    if side.Buy? then price - than else than - price
  }

  /** A market that trades here has set the order's stop off, give or take the tolerance. */
  predicate SetsOff(o: OrderState, price: real) {
    o.stop.Some? && WorseBy(o.terms.side, price, o.stop.value) >= -PRICE_TOLERANCE
  }

  /** The order's limit is no obstacle to trading here, give or take the tolerance. */
  predicate WithinLimit(o: OrderState, price: real) {
    o.terms.limit.Some? && WorseBy(o.terms.side, price, o.terms.limit.value) <= PRICE_TOLERANCE
  }

  /** A stop trades at the worse of its level and the market's; under gap improvement at its level regardless. */
  predicate TriggersAt(o: OrderState, anchor: real, gapImprovement: bool, price: real) {
    && o.stop.Some?
    && if gapImprovement then price == o.stop.value
       else
         && (price == anchor || price == o.stop.value)
         && WorseBy(o.terms.side, price, anchor) >= 0.0 && WorseBy(o.terms.side, price, o.stop.value) >= 0.0
  }

  /** A limit order trades at the better of its limit and the market's price. */
  predicate TakesAt(o: OrderState, anchor: real, price: real) {
    && o.terms.limit.Some? && (price == anchor || price == o.terms.limit.value)
    && WorseBy(o.terms.side, price, anchor) <= 0.0 && WorseBy(o.terms.side, price, o.terms.limit.value) <= 0.0
  }

  /** The price a model reads off the bar: the open for the next bar's open, save for an order at the close. */
  predicate ReadsAt(model: ExecutionModel, o: OrderState, bar: Bar, price: real) {
    if model.NextBarOpen? && !o.terms.kind.MarketOnClose? then price == bar.open else price == bar.close
  }

  predicate ImprovesGaps(model: ExecutionModel) {
    model.NextBarOpen? && model.allowGapImprovement
  }

  /** Somewhere in its range the bar traded at a price that sets the stop off. */
  ghost predicate CrossesStop(o: OrderState, bar: Bar) {
    exists price: real :: bar.low <= price <= bar.high && SetsOff(o, price)
  }

  /** Somewhere in its range the bar traded within the limit. */
  ghost predicate CrossesLimit(o: OrderState, bar: Bar) {
    exists price: real :: bar.low <= price <= bar.high && WithinLimit(o, price)
  }

  /** The bar lets the order trade: at the market always, though at the close only if the bar is the session's; a
      limit or a stop if the range crosses it; a stop limit if, besides, the price that triggers it is within the
      limit. */
  ghost predicate Trades(model: ExecutionModel, o: OrderState, bar: Bar, sessionClose: bool) {
    match o.terms.kind
    case Market | MarketOnOpen => true
    case MarketOnClose => model.NextBarOpen? ==> sessionClose
    case Limit => CrossesLimit(o, bar)
    case Stop => CrossesStop(o, bar)
    case StopLimit =>
      && CrossesStop(o, bar)
      && forall anchor, price | ReadsAt(model, o, bar, anchor) && TriggersAt(o, anchor, ImprovesGaps(model), price) ::
           o.terms.limit.None? || WithinLimit(o, price)
  }

  /** Where it then trades. */
  ghost predicate TradesAt(model: ExecutionModel, o: OrderState, bar: Bar, price: real) {
    exists anchor: real ::
      && ReadsAt(model, o, bar, anchor)
      && if o.terms.kind.AtMarket() then price == anchor
         else if o.terms.kind.Limit? then TakesAt(o, anchor, price)
         else TriggersAt(o, anchor, ImprovesGaps(model), price)
  }

  /** A bar crosses a level exactly when its extreme on the level's side does. */
  lemma ExtremesDecide(o: OrderState, bar: Bar)
    ensures CrossesStop(o, bar) <==> SetsOff(o, if o.terms.side.Buy? then bar.high else bar.low)
    ensures CrossesLimit(o, bar) <==> WithinLimit(o, if o.terms.side.Buy? then bar.low else bar.high)
  {
    assert bar.low <= bar.open <= bar.high;
  }

  lemma LimitTakes(o: OrderState, bar: Bar, anchor: real, gapImprovement: bool)
    requires o.terms.kind.Limit?
    ensures
      var r := TriggeredPrice(o, bar, anchor, gapImprovement);
      (r.Some? <==> CrossesLimit(o, bar))
      && (r.Some? ==> forall price :: r.value == price <==> TakesAt(o, anchor, price))
  {
    ExtremesDecide(o, bar);
    hide CrossesLimit, CrossesStop;
  }

  lemma StopTriggers(o: OrderState, bar: Bar, anchor: real, gapImprovement: bool)
    requires o.terms.kind.NeedsStop()
    ensures
      var r := TriggeredPrice(o, bar, anchor, gapImprovement);
      && (r.Some? ==> CrossesStop(o, bar)
                      && forall price :: r.value == price <==> TriggersAt(o, anchor, gapImprovement, price))
      && (o.terms.kind.Stop? && CrossesStop(o, bar) ==> r.Some?)
      && (o.terms.kind.StopLimit? && CrossesStop(o, bar) ==>
            (r.Some? <==> forall price | TriggersAt(o, anchor, gapImprovement, price) ::
                            o.terms.limit.None? || WithinLimit(o, price)))
  {
    ExtremesDecide(o, bar);
    hide CrossesLimit, CrossesStop;
    if o.stop.Some? {
      var worse := if WorseBy(o.terms.side, anchor, o.stop.value) >= 0.0 then anchor else o.stop.value;
      assert TriggersAt(o, anchor, gapImprovement, if gapImprovement then o.stop.value else worse);
    }
  }

  lemma ReadsOnePrice(model: ExecutionModel, o: OrderState, bar: Bar)
    ensures forall price :: ReadsAt(model, o, bar, price) <==> price == Anchor(model, o, bar)
  {
  }

  /** An order with a price on a bar is exactly one the bar lets trade, for every type, side and model, and the price
      is the one it trades at. */
  lemma FillsIff(model: ExecutionModel, o: OrderState, bar: Bar, sessionClose: bool)
    ensures TryFill(model, o, Some(bar), sessionClose).Some? <==> Trades(model, o, bar, sessionClose)
    ensures forall price :: TryFill(model, o, Some(bar), sessionClose) == Some(price) <==>
        Trades(model, o, bar, sessionClose) && TradesAt(model, o, bar, price)
  {
    var anchor := Anchor(model, o, bar);
    ReadsOnePrice(model, o, bar);
    assert ReadsAt(model, o, bar, anchor);
    hide ReadsAt;
    if o.terms.kind.Limit? {
      LimitTakes(o, bar, anchor, ImprovesGaps(model));
      hide TriggeredPrice, TakesAt, CrossesLimit;
    } else if o.terms.kind.NeedsStop() {
      StopTriggers(o, bar, anchor, ImprovesGaps(model));
      hide TriggeredPrice, TriggersAt, CrossesStop, WithinLimit;
    }
  }

  // ---- buying and selling are mirror images --------------------------------------------------------------------

  /** The same order on the other side of a market whose prices are all negated. */
  function Mirrored(o: OrderState): OrderState {
    var terms := o.terms.(side := o.terms.side.Opposite(), limit := Negated(o.terms.limit));
    o.(terms := terms, stop := Negated(o.stop))
  }

  function Negated(level: Option<real>): Option<real> {
    if level.Some? then Some(-level.value) else None
  }

  function MirroredBar(bar: Bar): Bar {
    RawBar(-bar.open, -bar.low, -bar.high, -bar.close, bar.volume, bar.quote)
  }

  /** Negate the prices and swap the side: the order fills on the same bars, at the negated price. */
  lemma FillsMirror(model: ExecutionModel, o: OrderState, bar: Bar, sessionClose: bool)
    ensures TryFill(model, Mirrored(o), Some(MirroredBar(bar)), sessionClose)
              == Negated(TryFill(model, o, Some(bar), sessionClose))
  {
  }
}
