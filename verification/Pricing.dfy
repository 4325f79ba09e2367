/** Books, real or synthesised, and the price a fill settles at: `sigmaloop/execution/pricing.py` and
    `SimulatedBroker._settle_price`. */
module Pricing {
  import opened Types
  import opened Money
  import opened Instruments
  import opened Orders
  import opened Execution

  const BPS: real := 0.0001

  datatype SpreadModel =
    | FixedBps(spreadBps: real, optionSpreadBps: real)
    | Ticks(ticks: real)
    | Volatility(baseBps: real, rangeMultiplier: real)
  {
    /** The parameters the constructors accept. */
    predicate Valid() {
      match this
      case FixedBps(s, o) => s >= 0.0 && o >= 0.0
      case Ticks(t) => t >= 0.0
      case Volatility(b, r) => b >= 0.0 && r >= 0.0
    }

    /** Per-side distance from the mid. */
    function HalfWidth(mid: real, bar: Bar, i: Instrument): real {
      match this
      case FixedBps(s, o) => Abs(mid) * (if i.listing.Contract? then o else s) * BPS * 0.5
      case Ticks(t) => t * i.tick * 0.5
      case Volatility(b, r) => Abs(mid) * b * BPS * 0.5 + r * (bar.high - bar.low) * 0.5
    }
  }

  /** Widen a mid by `half` a side and snap to the grid, never narrower than one tick. */
  function CentredQuote(mid: real, half: real, tick: real): Quote
    requires tick > 0.0
  {
    var bid := RoundToTick(Max(mid - half, 0.0), tick, Nearest);
    var ask := RoundToTick(mid + half, tick, Nearest);
    if ask - bid < tick * 0.5 then
      var floor := Max(RoundToTick(mid, tick, Down), 0.0);
      Quote(floor, RoundToTick(floor + tick, tick, Nearest))
    else Quote(bid, ask)
  }

  /** `SpreadModel.quote_for`: centred on the level the fill trades at, or on the close when it is not known. */
  function SyntheticQuote(model: SpreadModel, bar: Bar, i: Instrument, at: Option<real>): Quote {
    var mid := if at.Some? then at.value else bar.close;
    CentredQuote(mid, model.HalfWidth(mid, bar, i), i.tick)
  }

  datatype PriceSelection = Worst | Best | Mid | Last

  /** Signed per-unit cost of trading on the selected side of a book, as a distance from its mid. */
  function SpreadAdjustment(selection: PriceSelection, side: Side, quote: Quote): real {
    match selection
    case Mid => 0.0
    case Last => 0.0
    case Worst => (if side.Buy? then quote.ask else quote.bid) - quote.Mid()
    case Best => (if side.Buy? then quote.bid else quote.ask) - quote.Mid()
  }

  /** The furthest a bar with a range lets a print go: its extreme widened by the half-spread, snapped inward. */
  function MarketBound(side: Side, bar: Bar, spread: Option<real>, tick: real): real
    requires tick > 0.0
  {
    var half := if spread.None? then 0.0 else Max(spread.value, 0.0) * 0.5;
    if side.Buy? then RoundToTick(bar.high + half, tick, Down)
    else RoundToTick(Max(bar.low - half, 0.0), tick, Up)
  }

  /** Snap to a tick against the trader, bound by the market, then by the limit. */
  function SettlePrice(price: real, terms: OrderTerms, tick: real, bar: Bar, spread: Option<real>): real
    requires tick > 0.0
  {
    var isBuy := terms.side.Buy?;
    var snapped := Max(RoundToTick(price, tick, if isBuy then Up else Down), 0.0);
    var bounded :=
      if bar.high <= bar.low then snapped
      else if isBuy then Min(snapped, MarketBound(terms.side, bar, spread, tick))
      else Max(snapped, MarketBound(terms.side, bar, spread, tick));
    if !terms.Accepts(bounded) && terms.limit.Some? then terms.limit.value else bounded
  }

  /** Whatever the costs added up to: the limit holds; on a bar with a range no buy prints above its high plus the
      half-spread and no sell below its low less the half-spread; and short of those two bounds the tick never
      works in the trader's favour by more than 1e-9 of a tick, nor against by more than one. */
  lemma SettledPriceBounds(price: real, terms: OrderTerms, tick: real, bar: Bar, spread: Option<real>)
    requires tick > 0.0
    ensures
      var r := SettlePrice(price, terms, tick, bar, spread);
      var half := if spread.None? then 0.0 else Max(spread.value, 0.0) * 0.5;
      var slack := TICK_EPSILON * tick;
      && terms.Accepts(r)
      && (bar.high > bar.low && terms.side.Buy? ==> r <= bar.high + half + slack)
      && (bar.high > bar.low && terms.side.Sell? ==> r >= Max(bar.low - half, 0.0) - slack)
      && (terms.side.Buy? ==> r >= price - slack || (terms.limit.Some? && r == terms.limit.value)
                              || (bar.high > bar.low && r >= bar.high + half - tick))
      && (terms.side.Sell? ==> r <= Max(price + slack, 0.0) || (terms.limit.Some? && r == terms.limit.value)
                               || (bar.high > bar.low && r <= Max(bar.low - half, 0.0) + tick))
      && (price >= 0.0 && terms.side.Buy? ==> r < price + tick)
      && (terms.side.Sell? ==> r > price - tick)
  {
    var half := if spread.None? then 0.0 else Max(spread.value, 0.0) * 0.5;
    DirectionalRounding(price, tick);
    DirectionalRounding(bar.high + half, tick);
    DirectionalRounding(Max(bar.low - half, 0.0), tick);
  }

  /** The whole-tick argument behind a synthetic book, in units of the tick: the rounded sides either coincide
      or straddle the mid. */
  lemma Straddle(mid: real, half: real, low: real, bid: int, ask: int)
    requires half >= 0.0 && mid >= 0.0 && low == Max(mid - half, 0.0)
    requires bid == (low + 0.5).Floor && ask == (mid + half + 0.5).Floor
    ensures 0 <= bid <= ask
    ensures bid < ask ==> bid as real <= mid <= ask as real
  {
  }

  lemma GridWidth(bid: int, ask: int, tick: real, low: real, high: real)
    requires tick > 0.0 && low == bid as real * tick && high == ask as real * tick
    ensures bid < ask ==> high - low >= tick
    ensures bid >= ask ==> high - low <= 0.0
  {
    var gap := (ask - bid) as real;
    assert high - low == gap * tick;
    if bid < ask {
      assert gap * tick == tick + (gap - 1.0) * tick;
      assert (gap - 1.0) * tick >= 0.0;
    } else {
      assert gap * tick <= 0.0;
    }
  }

  /** A price's exact tick count. */
  lemma TickRatio(price: real, tick: real) returns (ratio: real)
    requires tick > 0.0 && price >= 0.0
    ensures price == ratio * tick && ratio >= 0.0
    ensures price / tick == ratio
  {
    ratio := price / tick;
  }

  lemma RoundOf(price: real, ratio: real, tick: real, mode: Rounding)
    requires tick > 0.0 && price == ratio * tick
    ensures RoundToTick(price, tick, mode) == TickCount(ratio, mode) as real * tick
  {
    assert price / tick == ratio;
  }

  lemma CombinedRatios(mid: real, half: real, tick: real, r: real, h: real)
    requires tick > 0.0 && mid == r * tick && half == h * tick
    ensures mid + half == (r + h) * tick
    ensures Max(mid - half, 0.0) == Max(r - h, 0.0) * tick
  {
    assert mid - half == (r - h) * tick;
    if r < h {
      assert (r - h) * tick < 0.0;
    } else {
      assert (r - h) * tick >= 0.0;
    }
  }

  /** Order is kept by a positive scale; the products are named so that callers reason linearly. */
  lemma ScaleOrder(a: real, b: real, step: real, x: real, y: real)
    requires step > 0.0 && a <= b && x == a * step && y == b * step
    ensures x <= y
  {
  }

  /** Two rounded sides either collapse together or stand a tick apart around the mid. */
  predicate Sides(mid: real, tick: real, bid: real, ask: real) {
    0.0 <= bid && (ask - bid < tick * 0.5 || (tick <= ask - bid && bid <= mid <= ask))
  }

  /** The book when the two rounded sides differ. */
  lemma OpenBook(mid: real, half: real, tick: real)
    requires tick > 0.0 && mid >= 0.0 && half >= 0.0
    ensures Sides(mid, tick, RoundToTick(Max(mid - half, 0.0), tick, Nearest), RoundToTick(mid + half, tick, Nearest))
  {
    var r, h := RoundedSides(mid, half, tick);
    OpenBookAt(mid, tick, r, h,
               RoundToTick(Max(mid - half, 0.0), tick, Nearest), RoundToTick(mid + half, tick, Nearest));
  }

  lemma RoundedSides(mid: real, half: real, tick: real) returns (r: real, h: real)
    requires tick > 0.0 && mid >= 0.0 && half >= 0.0
    ensures r >= 0.0 && h >= 0.0 && mid == r * tick
    ensures RoundToTick(Max(mid - half, 0.0), tick, Nearest) == TickCount(Max(r - h, 0.0), Nearest) as real * tick
    ensures RoundToTick(mid + half, tick, Nearest) == TickCount(r + h, Nearest) as real * tick
  {
    r := TickRatio(mid, tick);
    h := TickRatio(half, tick);
    CombinedRatios(mid, half, tick, r, h);
    RoundOf(Max(mid - half, 0.0), Max(r - h, 0.0), tick, Nearest);
    RoundOf(mid + half, r + h, tick, Nearest);
  }

  lemma OpenBookAt(mid: real, tick: real, r: real, h: real, bid: real, ask: real)
    requires tick > 0.0 && r >= 0.0 && h >= 0.0 && mid == r * tick
    requires bid == TickCount(Max(r - h, 0.0), Nearest) as real * tick
    requires ask == TickCount(r + h, Nearest) as real * tick
    ensures Sides(mid, tick, bid, ask)
  {
    Straddle(r, h, Max(r - h, 0.0), TickCount(Max(r - h, 0.0), Nearest), TickCount(r + h, Nearest));
    BookInPrices(mid, r, tick, TickCount(Max(r - h, 0.0), Nearest), TickCount(r + h, Nearest));
  }

  /** From tick counts back to prices. */
  lemma BookInPrices(mid: real, ratio: real, tick: real, bid: int, ask: int)
    requires tick > 0.0 && mid == ratio * tick
    requires 0 <= bid <= ask && (bid < ask ==> bid as real <= ratio <= ask as real)
    ensures Sides(mid, tick, bid as real * tick, ask as real * tick)
  {
    var low, high := bid as real * tick, ask as real * tick;
    ScaleOrder(0.0, bid as real, tick, 0.0, low);
    GridWidth(bid, ask, tick, low, high);
    if bid < ask {
      ScaleOrder(bid as real, ratio, tick, low, mid);
      ScaleOrder(ratio, ask as real, tick, mid, high);
    }
  }

  /** A synthetic book is a book: non-negative, at least one tick wide, and around the level it was built on. */
  lemma SyntheticBookIsABook(mid: real, half: real, tick: real)
    requires tick > 0.0 && mid >= 0.0 && half >= 0.0
    ensures
      var q := CentredQuote(mid, half, tick);
      && 0.0 <= q.bid && tick <= q.ask - q.bid
      && q.bid - TICK_EPSILON * tick <= mid <= q.ask
  {
    OpenBook(mid, half, tick);
    DirectionalRounding(mid, tick);
    OneTickUp(mid, Max(RoundToTick(mid, tick, Down), 0.0), tick);
  }

  /** One tick above a grid point is a grid point, so snapping it changes nothing. */
  lemma OneTickUp(mid: real, floor: real, tick: real)
    requires tick > 0.0 && mid >= 0.0
    requires floor == Max(RoundToTick(mid, tick, Down), 0.0)
    ensures RoundToTick(floor + tick, tick, Nearest) == floor + tick
  {
    var down := TickCount(mid / tick, Down);
    var count := if down < 0 then 0 else down;
    if down < 0 {
      ScaleOrder(down as real, 0.0, tick, down as real * tick, 0.0);
    } else {
      ScaleOrder(0.0, down as real, tick, 0.0, down as real * tick);
    }
    assert floor == count as real * tick;
    assert floor + tick == (count + 1) as real * tick;
    assert (floor + tick) / tick == (count + 1) as real;
    assert TickCount((count + 1) as real, Nearest) == count + 1;
  }

  /** So crossing it always costs the trader at least half a tick. */
  lemma WorstSelectionCharges(model: SpreadModel, bar: Bar, i: Instrument, at: Option<real>)
    requires model.Valid() && bar.close >= 0.0 && (at.Some? ==> at.value >= 0.0)
    ensures
      var q := SyntheticQuote(model, bar, i, at);
      && SpreadAdjustment(Worst, Buy, q) >= i.tick * 0.5
      && SpreadAdjustment(Worst, Sell, q) <= -i.tick * 0.5
      && SpreadAdjustment(Best, Buy, q) == SpreadAdjustment(Worst, Sell, q)
      && forall side :: SpreadAdjustment(Mid, side, q) == SpreadAdjustment(Last, side, q) == 0.0
  {
    var mid := if at.Some? then at.value else bar.close;
    HalfWidthNonNegative(model, mid, bar, i);
    SyntheticBookIsABook(mid, model.HalfWidth(mid, bar, i), i.tick);
  }

  /** The width a model asks for around a level: so many ten-thousandths of it, so many ticks, or that and a part of the
      bar's range. */
  predicate AsksFor(model: SpreadModel, mid: real, bar: Bar, i: Instrument, width: real) {
    match model
    case FixedBps(shares, options) => 10000.0 * width == mid * if i.listing.Contract? then options else shares
    case Ticks(ticks) => width == ticks * i.tick
    case Volatility(base, range) => 10000.0 * (width - range * (bar.high - bar.low)) == mid * base
  }

  lemma AsksTwiceTheHalf(model: SpreadModel, mid: real, bar: Bar, i: Instrument, width: real)
    requires mid >= 0.0 && AsksFor(model, mid, bar, i, width)
    ensures width == 2.0 * model.HalfWidth(mid, bar, i)
  {
  }

  lemma BookWidth(mid: real, half: real, tick: real)
    requires tick > 0.0 && mid >= 0.0 && half >= 0.0
    ensures
      var q := CentredQuote(mid, half, tick);
      Abs((q.ask - q.bid) - (mid + half - Max(mid - half, 0.0))) <= tick
  {
    var low := Max(mid - half, 0.0);
    NearestRounding(low, tick);
    NearestRounding(mid + half, tick);
    OpenBook(mid, half, tick);
    OneTickUp(mid, Max(RoundToTick(mid, tick, Down), 0.0), tick);
    hide RoundToTick, OnGrid;
  }

  /** A synthetic book is within a tick of the width asked for, less what of it would lie below zero. */
  lemma WidthAsAsked(model: SpreadModel, bar: Bar, i: Instrument, at: Option<real>, width: real)
    requires model.Valid() && bar.close >= 0.0 && (at.Some? ==> at.value >= 0.0)
    requires AsksFor(model, if at.Some? then at.value else bar.close, bar, i, width)
    ensures
      var q, mid := SyntheticQuote(model, bar, i, at), if at.Some? then at.value else bar.close;
      Abs((q.ask - q.bid) - if width <= 2.0 * mid then width else mid + width * 0.5) <= i.tick
  {
    var mid := if at.Some? then at.value else bar.close;
    AsksTwiceTheHalf(model, mid, bar, i, width);
    HalfWidthNonNegative(model, mid, bar, i);
    BookWidth(mid, model.HalfWidth(mid, bar, i), i.tick);
    hide CentredQuote;
  }

  lemma HalfWidthNonNegative(model: SpreadModel, mid: real, bar: Bar, i: Instrument)
    requires model.Valid()
    ensures model.HalfWidth(mid, bar, i) >= 0.0
  {
    match model
    case FixedBps(s, o) =>
      assert Abs(mid) * (if i.listing.Contract? then o else s) >= 0.0;
    case Ticks(t) =>
      assert t * i.tick >= 0.0;
    case Volatility(b, r) =>
      assert Abs(mid) * b >= 0.0;
      assert r * (bar.high - bar.low) >= 0.0;
  }
}
