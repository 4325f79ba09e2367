/** Tick and lot grids: `sigmaloop/utils/money.py` and the rounding members of `sigmaloop/domain/instrument.py`. */
module Money {
  import opened Types

  /** Absorbs representation error in a tick or lot count before a directional round. */
  const TICK_EPSILON: real := 0.000000001

  datatype Rounding = Nearest | Up | Down

  function Ceiling(x: real): (c: int)
    ensures c as real - 1.0 < x <= c as real
  {
    -((-x).Floor)
  }

  /** Whole ticks a price snaps to; halves away from zero, directions along the number line. */
  function TickCount(ratio: real, mode: Rounding): int {
    match mode
    case Up => Ceiling(ratio - TICK_EPSILON)
    case Down => (ratio + TICK_EPSILON).Floor
    case Nearest => if ratio < 0.0 then -((-ratio + 0.5).Floor) else (ratio + 0.5).Floor
  }

  function RoundToTick(price: real, tick: real, mode: Rounding): real
    requires tick > 0.0
  {
    TickCount(price / tick, mode) as real * tick
  }

  function Multiple(count: int, step: real): real {
    count as real * step
  }

  ghost predicate OnGrid(x: real, step: real)
    requires step > 0.0
  {
    exists k: int :: x == Multiple(k, step)
  }

  /** `Instrument.round_price`: the nearest tick. */
  function RoundPrice(price: real, tick: real): real
    requires tick > 0.0
  {
    RoundToTick(price, tick, Nearest)
  }

  /** `Instrument.round_quantity`: floor towards zero to a whole number of lots. */
  function RoundQuantity(quantity: real, lot: real): real
    requires lot > 0.0
  {
    var lots := (Abs(quantity) / lot + TICK_EPSILON).Floor as real;
    if quantity < 0.0 then -(lots * lot) else lots * lot
  }

  /** A count within `lo` below and `hi` above the exact ratio lands within that many steps of the price. */
  lemma StepBand(price: real, step: real, count: real, lo: real, hi: real)
    requires step > 0.0
    requires price / step - lo <= count <= price / step + hi
    ensures price - lo * step <= count * step <= price + hi * step
    ensures count < price / step + hi ==> count * step < price + hi * step
    ensures price / step - lo < count ==> price - lo * step < count * step
  {
    var ratio := price / step;
    assert ratio * step == price;
    var below, above := count - (ratio - lo), ratio + hi - count;
    assert count * step == price - lo * step + below * step;
    assert count * step == price + hi * step - above * step;
    assert below * step >= 0.0 && above * step >= 0.0;
    assert below > 0.0 ==> below * step > 0.0;
    assert above > 0.0 ==> above * step > 0.0;
  }

  /** Directional rounding moves at most one tick in its own direction, and at most 1e-9 ticks the other way. */
  lemma DirectionalRounding(price: real, tick: real)
    requires tick > 0.0
    ensures price - TICK_EPSILON * tick <= RoundToTick(price, tick, Up) < price + tick
    ensures price - tick < RoundToTick(price, tick, Down) <= price + TICK_EPSILON * tick
    ensures OnGrid(RoundToTick(price, tick, Up), tick) && OnGrid(RoundToTick(price, tick, Down), tick)
  {
    var ratio := price / tick;
    StepBand(price, tick, TickCount(ratio, Up) as real, TICK_EPSILON, 1.0);
    StepBand(price, tick, TickCount(ratio, Down) as real, 1.0, TICK_EPSILON);
    assert Multiple(TickCount(ratio, Up), tick) == RoundToTick(price, tick, Up);
    assert Multiple(TickCount(ratio, Down), tick) == RoundToTick(price, tick, Down);
  }

  /** Nearest rounding moves at most half a tick. */
  lemma NearestRounding(price: real, tick: real)
    requires tick > 0.0
    ensures price - tick * 0.5 <= RoundToTick(price, tick, Nearest) <= price + tick * 0.5
    ensures price >= 0.0 ==> RoundToTick(price, tick, Nearest) >= 0.0
    ensures OnGrid(RoundToTick(price, tick, Nearest), tick)
    ensures RoundToTick(-price, tick, Nearest) == -RoundToTick(price, tick, Nearest)
  {
    var ratio := price / tick;
    var count := TickCount(ratio, Nearest);
    assert -price / tick == -ratio;
    assert TickCount(-ratio, Nearest) == -count;
    StepBand(price, tick, count as real, 0.5, 0.5);
    assert Multiple(count, tick) == RoundToTick(price, tick, Nearest);
    if price >= 0.0 {
      StepBand(price, tick, 0.0, ratio, 0.0);
      assert ratio >= 0.0;
      assert count >= 0;
      assert count as real * tick >= 0.0;
    }
  }
}
