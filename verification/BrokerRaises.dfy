/** When a bar cannot be processed: the exceptions the broker can and cannot reach. */
module BrokerRaises {
  import opened Types
  import opened Money
  import opened Instruments
  import opened Orders
  import opened Execution
  import opened BrokerSpec
  import opened BrokerIndex
  import opened BrokerLedger
  import opened BrokerBrackets
  import opened BrokerOco
  import opened BrokerRuns
  import opened BrokerBars
  import opened BrokerLots
  import Pricing

  // ---- the backstop on the order -------------------------------------------------------------------------------

  /** The rounding of a truncated quantity lands more than the tolerance above what remains of the order. */
  predicate Overshoots(lot: real, remaining: real, offered: real)
    requires lot > 0.0
  {
    var capped := Max(Min(remaining, offered), 0.0);
    capped < remaining && RoundQuantity(capped, lot) > remaining + QUANTITY_TOLERANCE
  }

  /** Rounding a quantity to lots adds at most 1e-9 of a lot. */
  lemma RoundedQuantityBound(quantity: real, lot: real)
    requires quantity >= 0.0 && lot > 0.0
    ensures 0.0 <= RoundQuantity(quantity, lot) <= quantity + TICK_EPSILON * lot
  {
    var ratio := quantity / lot;
    var lots := (ratio + TICK_EPSILON).Floor;
    assert ratio >= 0.0;
    StepBand(quantity, lot, lots as real, 1.0, TICK_EPSILON);
    assert lots >= 0;
    assert lots as real * lot >= 0.0;
  }

  /** On a whole number of lots the rounding never passes it. */
  lemma GridNeverOvershoots(lot: real, lots: int, offered: real)
    requires lot > 0.0
    ensures !Overshoots(lot, Multiple(lots, lot), offered)
  {
    var remaining := Multiple(lots, lot);
    var capped := Max(Min(remaining, offered), 0.0);
    if capped < remaining {
      var ratio := capped / lot;
      assert ratio * lot == capped;
      if ratio >= lots as real {
        Pricing.ScaleOrder(lots as real, ratio, lot, remaining, capped);
        assert false;
      }
      assert (ratio + TICK_EPSILON).Floor <= lots;
      Pricing.ScaleOrder((ratio + TICK_EPSILON).Floor as real, lots as real, lot,
                         (ratio + TICK_EPSILON).Floor as real * lot, remaining);
    }
  }

  /** A remainder and an offer that overshoot, for any lot larger than one unit. */
  lemma BigLotOvershoots(lot: real) returns (remaining: real, offered: real)
    requires lot > 1.0
    ensures remaining > 0.0 && Overshoots(lot, remaining, offered)
  {
    var third := (lot - 1.0) / 3.0;
    remaining := lot - QUANTITY_TOLERANCE * (1.0 + third);
    offered := lot - QUANTITY_TOLERANCE * (1.0 + 2.0 * third);
    assert offered >= (1.0 - TICK_EPSILON) * lot;
    WholeLot(offered, lot);
  }

  lemma ScaleStrict(a: real, b: real, step: real)
    requires step > 0.0 && a < b
    ensures a * step < b * step
  {
  }

  lemma WholeLot(quantity: real, lot: real)
    requires lot > 1.0 && (1.0 - TICK_EPSILON) * lot <= quantity <= lot
    ensures RoundQuantity(quantity, lot) == lot
  {
    var ratio := quantity / lot;
    assert ratio * lot == quantity;
    if ratio < 1.0 - TICK_EPSILON {
      ScaleStrict(ratio, 1.0 - TICK_EPSILON, lot);
      assert false;
    }
    if ratio > 1.0 {
      ScaleStrict(1.0, ratio, lot);
      assert false;
    }
    assert (ratio + TICK_EPSILON).Floor == 1;
  }

  /** Some truncated fill can exceed what remains exactly when a lot is larger than one unit. */
  lemma OvershootIffBigLot(lot: real)
    requires lot > 0.0
    ensures (exists remaining, offered :: remaining > 0.0 && Overshoots(lot, remaining, offered)) <==> lot > 1.0
  {
    if lot > 1.0 {
      var remaining, offered := BigLotOvershoots(lot);
    } else {
      forall remaining, offered | remaining > 0.0 ensures !Overshoots(lot, remaining, offered) {
        SmallLotNeverOvershoots(lot, remaining, offered);
      }
    }
  }

  lemma SmallLotNeverOvershoots(lot: real, remaining: real, offered: real)
    requires 0.0 < lot <= 1.0
    ensures !Overshoots(lot, remaining, offered)
  {
    RoundedQuantityBound(Max(Min(remaining, offered), 0.0), lot);
  }

  /** How far the next whole number of lots lies above a remainder. */
  function LotGap(lot: real, remaining: real): real
    requires lot > 0.0
  {
    Multiple(Ceiling(remaining / lot), lot) - remaining
  }

  /** A remainder more than the tolerance, and less than 1e-9 of a lot, short of a whole number of lots. */
  predicate JustBelowLot(lot: real, remaining: real)
    requires lot > 0.0
  {
    QUANTITY_TOLERANCE < LotGap(lot, remaining) < TICK_EPSILON * lot
  }

  /** Truncation can pass a remainder exactly when it lies just below a whole number of lots. */
  lemma OvershootIffJustBelowLot(lot: real, remaining: real)
    requires lot > 0.0 && remaining >= 0.0
    ensures (exists offered :: Overshoots(lot, remaining, offered)) <==> JustBelowLot(lot, remaining)
  {
    forall offered | Overshoots(lot, remaining, offered) ensures JustBelowLot(lot, remaining) {
      OvershootIsJustBelow(lot, remaining, offered);
    }
    if JustBelowLot(lot, remaining) {
      var offered := JustBelowOvershoots(lot, remaining);
    }
  }

  lemma JustBelowOvershoots(lot: real, remaining: real) returns (offered: real)
    requires lot > 0.0 && remaining >= 0.0 && JustBelowLot(lot, remaining)
    ensures Overshoots(lot, remaining, offered)
  {
    var lots := Ceiling(remaining / lot);
    var share := lots as real - TICK_EPSILON;
    offered := share * lot;
    assert offered == Multiple(lots, lot) - TICK_EPSILON * lot;
    assert Multiple(lots, lot) > remaining + QUANTITY_TOLERANCE && offered < remaining;
    hide JustBelowLot, LotGap, Overshoots;
    if lots <= 0 {
      Pricing.ScaleOrder(lots as real, 0.0, lot, Multiple(lots, lot), 0.0);
      assert false;
    }
    ScaleStrict(0.0, share, lot);
    RoundsToLots(offered, share, lots, lot);
    WholeOvershoot(lot, remaining, offered, lots);
  }

  lemma RoundsToLots(quantity: real, share: real, lots: int, lot: real)
    requires lot > 0.0 && quantity == share * lot && quantity >= 0.0 && lots as real - TICK_EPSILON == share
    ensures RoundQuantity(quantity, lot) == Multiple(lots, lot)
  {
    assert quantity / lot == share;
  }

  lemma WholeOvershoot(lot: real, remaining: real, offered: real, lots: int)
    requires lot > 0.0 && 0.0 <= offered < remaining && RoundQuantity(offered, lot) == Multiple(lots, lot)
    requires Multiple(lots, lot) > remaining + QUANTITY_TOLERANCE
    ensures Overshoots(lot, remaining, offered)
  {
    hide RoundQuantity, Multiple;
  }

  lemma OvershootIsJustBelow(lot: real, remaining: real, offered: real)
    requires lot > 0.0 && remaining >= 0.0 && Overshoots(lot, remaining, offered)
    ensures JustBelowLot(lot, remaining)
  {
    var capped := Max(Min(remaining, offered), 0.0);
    var share, ratio := capped / lot, remaining / lot;
    var lots := (share + TICK_EPSILON).Floor;
    assert share * lot == capped && ratio * lot == remaining;
    if lots as real <= ratio {
      Pricing.ScaleOrder(lots as real, ratio, lot, lots as real * lot, remaining);
      assert false;
    }
    if share >= ratio {
      Pricing.ScaleOrder(ratio, share, lot, remaining, capped);
      assert false;
    }
    assert lots == Ceiling(ratio);
    Pricing.ScaleOrder(lots as real - TICK_EPSILON, share, lot, lots as real * lot - TICK_EPSILON * lot, capped);
  }

  // ---- one look ------------------------------------------------------------------------------------------------

  /** What the price model is asked for an order the bar reaches. */
  function OwnRequest(cfg: Config, o: OrderState, i: Instrument, snap: Snapshot): PriceRequest
    requires Reached(cfg, o, i, snap)
  {
    var a := Activated(o, snap.timestamp);
    var bar := MarketBar(snap, o.terms.instrument, i);
    var reference := TryFill(cfg.execution, a, bar, snap.sessionClose).value;
    PriceRequest(o.terms.instrument, o.terms.side, reference, Fillable(cfg, a, i, reference, bar.value), bar.value,
                 QuoteFor(snap, o.terms.instrument, i))
  }

  /** What the liquidity model offers an order the bar reaches. */
  function Offered(cfg: Config, o: OrderState, i: Instrument, snap: Snapshot): real
    requires Reached(cfg, o, i, snap)
  {
    var bar := MarketBar(snap, o.terms.instrument, i);
    var reference := TryFill(cfg.execution, Activated(o, snap.timestamp), bar, snap.sessionClose).value;
    cfg.liquidity(LiquidityRequest(o.terms.instrument, o.terms.side, o.Remaining(), reference, bar.value))
  }

  /** A look is refused for its order's own reasons in one case only: a truncated quantity that rounding took past
      what remains. Every other fill the broker builds passes every guard of the order. */
  lemma OverFillIff(cfg: Config, o: OrderState, i: Instrument, snap: Snapshot, seqNo: nat, volume: real)
    requires Reached(cfg, o, i, snap) && cfg.price(OwnRequest(cfg, o, i, snap)).Ok?
    ensures
      var v := Judge(cfg, o, i, snap, seqNo, volume);
      && (v.Refused? ==> v == Refused(OverFill))
      && (v.Refused? <==>
            cfg.allowPartial && !o.terms.tif.Fok? && Overshoots(i.lot, o.Remaining(), Offered(cfg, o, i, snap)))
  {
    var a := Activated(o, snap.timestamp);
    var bar := MarketBar(snap, o.terms.instrument, i).value;
    var reference := TryFill(cfg.execution, a, MarketBar(snap, o.terms.instrument, i), snap.sessionClose).value;
    FillableOvershoots(cfg, a, i, reference, bar);
    var quantity := Fillable(cfg, a, i, reference, bar);
    if quantity > QUANTITY_TOLERANCE {
      var priced := cfg.price(OwnRequest(cfg, o, i, snap)).value;
      Pricing.SettledPriceBounds(priced.price, a.terms, i.tick, bar, priced.spread);
      BuiltMeetsGuards(cfg, a, i, reference, quantity, bar, QuoteFor(snap, o.terms.instrument, i), snap.timestamp,
                       seqNo, volume);
    }
    hide Fillable, TryFill, MarketBar, QuoteFor, ShouldExpire, BuildFill, Overshoots, Pricing.SettlePrice;
  }

  lemma FillableOvershoots(cfg: Config, o: OrderState, i: Instrument, reference: real, bar: Bar)
    ensures
      var offered := cfg.liquidity(LiquidityRequest(o.terms.instrument, o.terms.side, o.Remaining(), reference, bar));
      var past := Fillable(cfg, o, i, reference, bar) > o.Remaining() + QUANTITY_TOLERANCE;
      past <==> cfg.allowPartial && !o.terms.tif.Fok? && Overshoots(i.lot, o.Remaining(), offered)
  {
    hide RoundQuantity;
  }

  /** What the models built for an open order meets its guards, unless the quantity passes what remains. */
  lemma BuiltMeetsGuards(cfg: Config, a: OrderState, i: Instrument, reference: real, quantity: real, bar: Bar,
                         quote: Option<OptionQuote>, at: Time, seqNo: nat, volume: real)
    requires a.IsOpen() && quantity > QUANTITY_TOLERANCE
    requires cfg.price(PriceRequest(a.terms.instrument, a.terms.side, reference, quantity, bar, quote)).Ok?
    ensures
      var built := BuildFill(cfg, a, i, reference, quantity, bar, quote, at, seqNo, volume);
      && built.Ok?
      && a.Refusal(built.value) == if quantity > a.Remaining() + QUANTITY_TOLERANCE then Some(OverFill) else None
  {
    var priced := cfg.price(PriceRequest(a.terms.instrument, a.terms.side, reference, quantity, bar, quote)).value;
    Pricing.SettledPriceBounds(priced.price, a.terms, i.tick, bar, priced.spread);
    hide Pricing.SettlePrice;
  }

  /** Unless an order is just below a whole number of lots and fills may be short, the only error a look at it can raise
      is the price model's own answer to its own request. */
  lemma BackstopNeverFires(cfg: Config, o: OrderState, i: Instrument, snap: Snapshot, seqNo: nat, volume: real)
    requires NeverShort(cfg) || !JustBelowLot(i.lot, o.Remaining())
    requires Judge(cfg, o, i, snap, seqNo, volume).Refused?
    ensures Reached(cfg, o, i, snap)
    ensures cfg.price(OwnRequest(cfg, o, i, snap)) == Raised(Judge(cfg, o, i, snap, seqNo, volume).error)
  {
    if cfg.price(OwnRequest(cfg, o, i, snap)).Ok? {
      OverFillIff(cfg, o, i, snap, seqNo, volume);
      NoOvershoot(cfg, o, i, snap);
      assert false;
    }
    hide Fillable, TryFill, MarketBar, ShouldExpire;
  }

  lemma NoOvershoot(cfg: Config, o: OrderState, i: Instrument, snap: Snapshot)
    requires NeverShort(cfg) || !JustBelowLot(i.lot, o.Remaining())
    requires Reached(cfg, o, i, snap)
    ensures !cfg.allowPartial || !Overshoots(i.lot, o.Remaining(), Offered(cfg, o, i, snap))
  {
    if cfg.allowPartial && NeverShort(cfg) {
      var bar := MarketBar(snap, o.terms.instrument, i);
      var reference := TryFill(cfg.execution, Activated(o, snap.timestamp), bar, snap.sessionClose).value;
      var request := LiquidityRequest(o.terms.instrument, o.terms.side, o.Remaining(), reference, bar.value);
      assert cfg.liquidity(request) >= request.quantity;
    } else {
      hide Reached, Offered;
      OvershootIffJustBelowLot(i.lot, o.Remaining());
    }
  }

  // ---- legs raised twice ---------------------------------------------------------------------------------------

  /** A print on a bracketed parent raises for a duplicate id exactly when no leg can still be resized and the spec
      calls again for a leg that exists. */
  lemma DuplicateLegIff(cfg: Config, s: State, id: OrderId, fill: Fill, i: Instrument)
    requires id in s.orders && s.orders[id].terms.id == id
    ensures
      ActivateBrackets(cfg, s, id, fill, i) == Raised(DuplicateOrderId) <==>
        && id in s.brackets && !Untouched(s, StopId(id)) && !Untouched(s, TargetId(id))
        && var legs := Legs(s.orders[id], s.brackets[id], fill, i);
           legs.Ok? && exists k :: 0 <= k < |legs.value| && legs.value[k].terms.id in s.orders
  {
    LegIds(id);
    if id in s.brackets {
      LegErrors(s.orders[id], s.brackets[id], fill, i);
      if Legs(s.orders[id], s.brackets[id], fill, i).Ok? {
        var legs := Legs(s.orders[id], s.brackets[id], fill, i).value;
        LegsAreLegs(s.orders[id], s.brackets[id], fill, i);
        hide Legs, StopId, TargetId;
        SubmitLegsIff(cfg, s, legs);
      }
    }
  }

  lemma LegErrors(parent: OrderState, spec: BracketSpec, fill: Fill, i: Instrument)
    ensures
      var r := Legs(parent, spec, fill, i);
      r.Raised? ==> r.error == InvalidOrder
  {
  }

  lemma SubmitLegsIff(cfg: Config, s: State, legs: seq<OrderState>)
    requires |legs| <= 2 && (|legs| == 2 ==> legs[0].terms.id != legs[1].terms.id)
    requires forall k | 0 <= k < |legs| :: legs[k].status.PendingNew?
    ensures
      var clash := exists k :: 0 <= k < |legs| && legs[k].terms.id in s.orders;
      SubmitLegs(cfg, s, legs) == Raised(DuplicateOrderId) <==> clash
    ensures SubmitLegs(cfg, s, legs).Ok? || SubmitLegs(cfg, s, legs) == Raised(DuplicateOrderId)
  {
    if |legs| > 0 {
      var r := Submit(cfg, s, legs[0]);
      if r.Ok? {
        SubmitEffect(cfg, s, legs[0]);
        var rest := legs[1..];
        if |rest| > 0 {
          assert rest[0] == legs[1] && rest[1..] == [];
          assert SubmitLegs(cfg, r.value, rest) == Submit(cfg, r.value, rest[0]);
        }
        hide IntakeRefusal, Admit, Refuse;
      } else {
        assert legs[0].terms.id in s.orders;
      }
    }
  }

  /** Activating brackets raises for a level that rounds to nothing, or for a leg that exists. */
  lemma ActivateRaises(cfg: Config, s: State, id: OrderId, fill: Fill, i: Instrument)
    requires id in s.orders && s.orders[id].terms.id == id && ActivateBrackets(cfg, s, id, fill, i).Raised?
    ensures
      var error := ActivateBrackets(cfg, s, id, fill, i).error;
      error.InvalidOrder? || (error.DuplicateOrderId? && (StopId(id) in s.orders || TargetId(id) in s.orders))
  {
    DuplicateLegIff(cfg, s, id, fill, i);
    LegErrors(s.orders[id], s.brackets[id], fill, i);
    if Legs(s.orders[id], s.brackets[id], fill, i).Ok? {
      var legs := Legs(s.orders[id], s.brackets[id], fill, i).value;
      LegsAreLegs(s.orders[id], s.brackets[id], fill, i);
      hide Legs, StopId, TargetId;
      SubmitLegsIff(cfg, s, legs);
    }
  }

  // ---- legs without a price ------------------------------------------------------------------------------------

  /** The level is called for, but nearer to zero than to the first tick. */
  predicate Vanishes(level: Option<real>, tick: real) {
    level.Some? && level.value < tick * 0.5
  }

  lemma RoundsToNothing(level: real, tick: real)
    requires level > 0.0 && tick > 0.0
    ensures RoundPrice(level, tick) <= 0.0 <==> level < tick * 0.5
  {
    var ratio := level / tick;
    assert ratio * tick == level;
    var count := (ratio + 0.5).Floor;
    assert ratio > 0.0 && RoundPrice(level, tick) == count as real * tick;
    if ratio < 0.5 {
      var below := 0.5 - ratio;
      assert below * tick > 0.0;
      assert level == tick * 0.5 - below * tick;
      assert count == 0;
    } else {
      var above := ratio - 0.5;
      assert above * tick >= 0.0;
      assert level == tick * 0.5 + above * tick;
      assert count >= 1;
      assert count as real * tick > 0.0;
    }
  }

  /** The legs a spec calls for cannot be built exactly when a level it calls for rounds to no price at all. */
  lemma LegsFailIff(parent: OrderState, spec: BracketSpec, fill: Fill, i: Instrument)
    ensures
      var entry, isLong := EntryPrice(parent, fill), parent.terms.side.Buy?;
      Legs(parent, spec, fill, i).Raised? <==>
        Vanishes(StopLevel(spec, entry, isLong), i.tick) || Vanishes(TargetLevel(spec, entry, isLong), i.tick)
  {
    var entry, isLong := EntryPrice(parent, fill), parent.terms.side.Buy?;
    var stop, target := StopLevel(spec, entry, isLong), TargetLevel(spec, entry, isLong);
    assert (stop.Some? ==> stop.value > 0.0) && (target.Some? ==> target.value > 0.0);
    hide StopLevel, TargetLevel, StopId, TargetId, RoundPrice, EntryPrice;
    if stop.Some? {
      RoundsToNothing(stop.value, i.tick);
    }
    if target.Some? {
      RoundsToNothing(target.value, i.tick);
    }
  }

  /** A print on a bracketed parent raises for an invalid order exactly when no leg can still be resized and a level
      the spec calls for is less than half a tick. */
  lemma InvalidLegIff(cfg: Config, s: State, id: OrderId, fill: Fill, i: Instrument)
    requires id in s.orders && s.orders[id].terms.id == id
    ensures
      ActivateBrackets(cfg, s, id, fill, i) == Raised(InvalidOrder) <==>
        && id in s.brackets && !Untouched(s, StopId(id)) && !Untouched(s, TargetId(id))
        && var entry, isLong := EntryPrice(s.orders[id], fill), s.orders[id].terms.side.Buy?;
           || Vanishes(StopLevel(s.brackets[id], entry, isLong), i.tick)
           || Vanishes(TargetLevel(s.brackets[id], entry, isLong), i.tick)
  {
    LegIds(id);
    if id in s.brackets {
      LegErrors(s.orders[id], s.brackets[id], fill, i);
      LegsFailIff(s.orders[id], s.brackets[id], fill, i);
      if Legs(s.orders[id], s.brackets[id], fill, i).Ok? {
        var legs := Legs(s.orders[id], s.brackets[id], fill, i).value;
        LegsAreLegs(s.orders[id], s.brackets[id], fill, i);
        hide Legs, StopId, TargetId, Vanishes, StopLevel, TargetLevel, EntryPrice;
        SubmitLegsIff(cfg, s, legs);
      }
    }
  }

  // ---- whole bars ----------------------------------------------------------------------------------------------

  ghost predicate SmallLots(cfg: Config) {
    forall id | id in cfg.instruments :: cfg.instruments[id].lot <= 1.0
  }

  /** No remainder can be overshot: fills are never short, no lot is larger than one unit, or all sizes are round. */
  ghost predicate SafeSizes(cfg: Config, s: State, tidy: bool) {
    NeverShort(cfg) || SmallLots(cfg) || (tidy && Gridded(cfg, s))
  }

  /** The price model raises nothing but its own refusal. */
  ghost predicate PricesOrRefuses(cfg: Config) {
    forall r: PriceRequest :: cfg.price(r).Ok? || cfg.price(r) == Raised(Unpriceable)
  }

  /** What is left for a bar to raise. */
  ghost predicate Bearable(cfg: Config, error: Error, tidy: bool) {
    error.Unpriceable? || error.InvalidOrder? || (error.DuplicateOrderId? && !(tidy && NeverShort(cfg)))
  }

  /** A whole number of lots is not just below one. */
  lemma RoundIsNotBelow(lots: int, lot: real)
    requires lot > 0.0
    ensures !JustBelowLot(lot, Multiple(lots, lot))
  {
    assert Multiple(lots, lot) / lot == lots as real;
  }

  lemma InLotsIsNotBelow(cfg: Config, o: OrderState)
    requires InLots(cfg, o) && o.terms.instrument in cfg.instruments
    ensures !JustBelowLot(cfg.instruments[o.terms.instrument].lot, o.Remaining())
  {
    var lot := cfg.instruments[o.terms.instrument].lot;
    RoundRemaining(cfg, o);
    if lot > 1.0 {
      hide JustBelowLot;
      var lots: int :| o.Remaining() == Multiple(lots, lot);
      RoundIsNotBelow(lots, lot);
    }
  }

  lemma LookRaises(cfg: Config, o: OrderState, snap: Snapshot, seqNo: nat, volume: real)
    requires (NeverShort(cfg) || InLots(cfg, o)) && PricesOrRefuses(cfg) && o.terms.instrument in cfg.instruments
    requires Judge(cfg, o, cfg.instruments[o.terms.instrument], snap, seqNo, volume).Refused?
    ensures Judge(cfg, o, cfg.instruments[o.terms.instrument], snap, seqNo, volume).error.Unpriceable?
  {
    var i := cfg.instruments[o.terms.instrument];
    hide Judge, NeverShort, OwnRequest, InLots, JustBelowLot;
    if !NeverShort(cfg) {
      InLotsIsNotBelow(cfg, o);
    }
    BackstopNeverFires(cfg, o, i, snap, seqNo, volume);
  }

  /** Safe sizes stay safe. */
  lemma WorkOrderSafe(cfg: Config, s: State, id: OrderId, snap: Snapshot, tidy: bool, busy: set<InstrumentId>)
    requires Inv(s, busy) && Sound(cfg, s, tidy) && SafeSizes(cfg, s, tidy) && Cancellable(s, id)
    requires s.orders[id].terms.instrument in cfg.instruments
    requires WorkOrder(cfg, s, id, cfg.instruments[s.orders[id].terms.instrument], snap).Ok?
    ensures SafeSizes(cfg, WorkOrder(cfg, s, id, cfg.instruments[s.orders[id].terms.instrument], snap).value, tidy)
  {
    hide Inv, Sound, Gridded, WorkOrder, NeverShort, SmallLots;
    if !NeverShort(cfg) && !SmallLots(cfg) {
      WorkOrderGridded(cfg, s, id, snap, busy);
    }
  }

  lemma WorkBookSafe(cfg: Config, s: State, inst: InstrumentId, snap: Snapshot, tidy: bool)
    requires Inv(s, {}) && Sound(cfg, s, tidy) && SafeSizes(cfg, s, tidy) && WorkBook(cfg, s, inst, snap).Ok?
    ensures SafeSizes(cfg, WorkBook(cfg, s, inst, snap).value, tidy)
  {
    hide Inv, Sound, Gridded, WorkBook, NeverShort, SmallLots;
    if !NeverShort(cfg) && !SmallLots(cfg) {
      WorkBookGridded(cfg, s, inst, snap);
    }
  }

  /** Where fills are never short an order that is still open has no legs. */
  lemma OpenEntryHasNoLegs(cfg: Config, s: State, p: OrderId, busy: set<InstrumentId>)
    requires Grounds(cfg, s, busy) && NeverShort(cfg) && Cancellable(s, p)
    ensures StopId(p) !in s.orders && TargetId(p) !in s.orders
  {
    InvPaired(s, busy);
    NeverShortEntire(cfg, s, p);
    EntireIsWhole(cfg, s, p);
    hide Inv, Ledger, Protective, NeverShort, Entire, StopId, TargetId;
    if StopId(p) in s.orders || TargetId(p) in s.orders {
      ParentBracketed(cfg, s, if StopId(p) in s.orders then StopId(p) else TargetId(p), p, busy);
      assert false;
    }
  }

  lemma WorkOrderRaises(cfg: Config, s: State, id: OrderId, snap: Snapshot, tidy: bool, busy: set<InstrumentId>)
    requires Inv(s, busy) && Sound(cfg, s, tidy) && Cancellable(s, id)
    requires SafeSizes(cfg, s, tidy) && PricesOrRefuses(cfg)
    requires s.orders[id].terms.instrument in cfg.instruments
    requires WorkOrder(cfg, s, id, cfg.instruments[s.orders[id].terms.instrument], snap).Raised?
    ensures Bearable(cfg, WorkOrder(cfg, s, id, cfg.instruments[s.orders[id].terms.instrument], snap).error, tidy)
  {
    var o := s.orders[id];
    var i := cfg.instruments[o.terms.instrument];
    var volume := PeriodVolume(cfg, s, snap.timestamp);
    var v := Judge(cfg, o, i, snap, s.nextFill + 1, volume);
    InvPaired(s, busy);
    KeyedLeg(s, id);
    if tidy && NeverShort(cfg) {
      hide Judge, Inv, Ledger, Protective, Followed, Exclusive, OneLook;
      OpenEntryHasNoLegs(cfg, s, id, busy);
    }
    hide Judge, Sound, Inv, NeverShort, RoundSize, PricesOrRefuses, StopId, TargetId;
    match v
    case Refused(error) =>
      hide Enact;
      LookRaises(cfg, o, snap, s.nextFill + 1, volume);
      assert Enact(cfg, s, id, Refused(error), i, MarketBar(snap, o.terms.instrument, i)) == Raised(error) by {
        RefusedRaises(cfg, s, id, error, i, MarketBar(snap, o.terms.instrument, i));
      }
    case Print(a, fill) =>
      JudgeIsVerdict(cfg, o, i, snap, s.nextFill + 1, volume);
      LegIds(id);
      PrintRaises(cfg, s, id, a, fill, i, MarketBar(snap, o.terms.instrument, i));
    case _ =>
  }

  lemma RefusedRaises(cfg: Config, s: State, id: OrderId, error: Error, i: Instrument, bar: Option<Bar>)
    requires id in s.orders
    ensures Enact(cfg, s, id, Refused(error), i, bar) == Raised(error)
  {
  }

  lemma PrintRaises(cfg: Config, s: State, id: OrderId, a: OrderState, fill: Fill, i: Instrument, bar: Option<Bar>)
    requires id in s.orders && a.terms.id == id && id != StopId(id) && id != TargetId(id)
    requires Enact(cfg, s, id, Print(a, fill), i, bar).Raised?
    ensures
      var error := Enact(cfg, s, id, Print(a, fill), i, bar).error;
      error.InvalidOrder? || (error.DuplicateOrderId? && (StopId(id) in s.orders || TargetId(id) in s.orders))
  {
    hide StopId, TargetId, ActivateBrackets, FinishPrint, Ratcheted;
    ActivateRaises(cfg, Record(cfg, s, id, a.Booked(fill), fill), id, fill, i);
  }

  lemma WorkAllRaises(cfg: Config, s: State, ids: seq<OrderId>, inst: InstrumentId, snap: Snapshot, tidy: bool)
    requires Inv(s, {inst}) && Sound(cfg, s, tidy) && SafeSizes(cfg, s, tidy) && PricesOrRefuses(cfg)
    requires inst in cfg.instruments
    requires forall id | id in ids :: id in s.orders && s.orders[id].terms.instrument == inst
    requires WorkAll(cfg, s, ids, cfg.instruments[inst], snap).Raised?
    ensures Bearable(cfg, WorkAll(cfg, s, ids, cfg.instruments[inst], snap).error, tidy)
    decreases |ids|
  {
    hide Inv, Sound, SafeSizes, PricesOrRefuses, Bearable, WorkOrder;
    if Cancellable(s, ids[0]) {
      var r := WorkOrder(cfg, s, ids[0], cfg.instruments[inst], snap);
      if r.Ok? {
        WorkOrderKeeps(cfg, s, ids[0], cfg.instruments[inst], snap, {inst});
        WorkOrderSound(cfg, s, ids[0], cfg.instruments[inst], snap, tidy, {inst});
        WorkOrderSafe(cfg, s, ids[0], snap, tidy, {inst});
        WorkAllRaises(cfg, r.value, ids[1..], inst, snap, tidy);
      } else {
        WorkOrderRaises(cfg, s, ids[0], snap, tidy, {inst});
      }
    } else {
      WorkAllRaises(cfg, s, ids[1..], inst, snap, tidy);
    }
  }

  /** Between calls every book belongs to an instrument with contract terms. */
  lemma BooksAreRegistered(cfg: Config, s: State, inst: InstrumentId)
    requires Inv(s, {}) && Ledger(cfg, s) && inst in s.books
    ensures inst in cfg.instruments
  {
    assert Shelves(s) && Clean(s, {});
    var id := s.books[inst][0];
    assert id in s.books[inst] && Registered(cfg, s.orders[id]);
  }

  lemma WorkBookRaises(cfg: Config, s: State, inst: InstrumentId, snap: Snapshot, tidy: bool)
    requires Inv(s, {}) && Sound(cfg, s, tidy) && SafeSizes(cfg, s, tidy) && PricesOrRefuses(cfg)
    requires WorkBook(cfg, s, inst, snap).Raised?
    ensures Bearable(cfg, WorkBook(cfg, s, inst, snap).error, tidy)
  {
    BooksAreRegistered(cfg, s, inst);
    hide Inv, Sound, SafeSizes, PricesOrRefuses, Bearable, WorkAll, MatchingOrder, Prune;
    BookReady(s, inst);
    WorkAllRaises(cfg, s, MatchingOrder(s, s.books[inst]), inst, snap, tidy);
  }

  lemma WorkBooksRaises(cfg: Config, s: State, keys: seq<InstrumentId>, snap: Snapshot, tidy: bool)
    requires Inv(s, {}) && Sound(cfg, s, tidy) && SafeSizes(cfg, s, tidy) && PricesOrRefuses(cfg)
    requires WorkBooks(cfg, s, keys, snap).Raised?
    ensures Bearable(cfg, WorkBooks(cfg, s, keys, snap).error, tidy)
    decreases |keys|
  {
    hide Inv, Sound, SafeSizes, PricesOrRefuses, Bearable, WorkBook;
    var r := WorkBook(cfg, s, keys[0], snap);
    if r.Ok? {
      WorkBookKeeps(cfg, s, keys[0], snap);
      WorkBookSound(cfg, s, keys[0], snap, tidy);
      WorkBookSafe(cfg, s, keys[0], snap, tidy);
      WorkBooksRaises(cfg, r.value, keys[1..], snap, tidy);
    } else {
      WorkBookRaises(cfg, s, keys[0], snap, tidy);
    }
  }

  /** With fills never short, lots of at most one unit, or callers that order in whole lots — and a price model that at
      most refuses — no bar of any run ends in `OverFill`, `ThroughLimit`, `ForeignFill`, `BadFillQuantity`,
      `TerminalOrder` or `UnknownInstrument`; and where fills are never short and callers keep off the reserved ids,
      none ends in `DuplicateOrderId`. */
  lemma BarRaisesOnly(cfg: Config, commands: seq<Command>, snap: Snapshot)
    requires Run(cfg, commands).Ok? && PricesOrRefuses(cfg)
    requires NeverShort(cfg) || SmallLots(cfg) || forall c | c in commands :: RoundOrder(cfg, c)
    requires ProcessBar(cfg, Run(cfg, commands).value, snap).Raised?
    ensures
      var error := ProcessBar(cfg, Run(cfg, commands).value, snap).error;
      && (error.Unpriceable? || error.InvalidOrder? || error.DuplicateOrderId?)
      && (NeverShort(cfg) && (forall c | c in commands :: Tidy(c)) ==> !error.DuplicateOrderId?)
  {
    var tidy := forall c | c in commands :: Tidy(c);
    RunSound(cfg, commands, tidy);
    RunInvariant(cfg, commands);
    var s := Run(cfg, commands).value;
    var s1 := s.(out := NO_RESULT.(rejections := s.pending), pending := []);
    RunSafe(cfg, commands);
    hide Run, Inv, Sound, NeverShort, SmallLots, Gridded, PricesOrRefuses, WorkBooks, Tidy;
    ShapeKeeps(s, s1, {});
    RecordsSound(cfg, s, s1, tidy);
    if Gridded(cfg, s) {
      RecordsGridded(cfg, s, s1);
    }
    hide SafeSizes;
    WorkBooksRaises(cfg, s1, s.bookOrder, snap, tidy);
  }

  lemma RunSafe(cfg: Config, commands: seq<Command>)
    requires Run(cfg, commands).Ok?
    requires NeverShort(cfg) || SmallLots(cfg) || forall c | c in commands :: RoundOrder(cfg, c)
    ensures SafeSizes(cfg, Run(cfg, commands).value, forall c | c in commands :: Tidy(c))
  {
    hide Run, NeverShort, SmallLots, Gridded;
    if forall c | c in commands :: RoundOrder(cfg, c) {
      RunGridded(cfg, commands);
      hide Tidy;
      assert forall c | c in commands :: Tidy(c);
    }
  }

  /** In whole lots the backstop on the order never fires: no bar ends in an over-fill. */
  lemma RoundLotsNeverOverFill(cfg: Config, commands: seq<Command>, snap: Snapshot)
    requires Run(cfg, commands).Ok? && PricesOrRefuses(cfg) && forall c | c in commands :: RoundOrder(cfg, c)
    ensures ProcessBar(cfg, Run(cfg, commands).value, snap) != Raised(OverFill)
  {
    if ProcessBar(cfg, Run(cfg, commands).value, snap).Raised? {
      hide Run, ProcessBar, RoundOrder, PricesOrRefuses;
      BarRaisesOnly(cfg, commands, snap);
    }
  }
}
