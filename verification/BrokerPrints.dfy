/** Where and when the fills of a run come from: bars of the run that let their orders trade, within the orders' time.
    */
module BrokerPrints {
  import opened Types
  import opened Money
  import opened Instruments
  import opened Orders
  import opened Execution
  import opened BrokerSpec
  import opened BrokerIndex
  import opened BrokerLedger
  import opened BrokerBrackets
  import opened BrokerRuns
  import opened BrokerBars
  import opened BrokerLooks
  import Pricing

  // ---- one fill on one bar -------------------------------------------------------------------------------------

  /** The bar a snapshot has for an instrument: its own, or for an option without one a flat bar halfway between the
      sides of its quote. */
  predicate Shows(snap: Snapshot, id: InstrumentId, i: Instrument, bar: Bar) {
    if id in snap.bars then bar == snap.bars[id]
    else
      && i.listing.Contract? && id in snap.optionQuotes
      && var book := snap.optionQuotes[id];
         && bar.open == bar.high == bar.low == bar.close && bar.open - book.quote.bid == book.quote.ask - bar.open
         && bar.volume == book.volume && bar.quote == Some(book.quote)
  }

  /** The option quote a price model is shown. */
  predicate ShowsQuote(snap: Snapshot, id: InstrumentId, i: Instrument, quote: Option<OptionQuote>) {
    if quote.Some? then i.listing.Contract? && id in snap.optionQuotes && quote.value == snap.optionQuotes[id]
    else i.listing.Shares? || id !in snap.optionQuotes
  }

  /** The bar lets the order trade at `reference`, and the fill is settled from what the price model says to that. */
  ghost predicate PricedOn(cfg: Config, o: OrderState, i: Instrument, snap: Snapshot, f: Fill, bar: Bar,
                           reference: real) {
    && Shows(snap, o.terms.instrument, i, bar)
    && Trades(cfg.execution, o, bar, snap.sessionClose) && TradesAt(cfg.execution, o, bar, reference)
    && exists quote, priced: PricedFill ::
         && ShowsQuote(snap, o.terms.instrument, i, quote)
         && cfg.price(PriceRequest(o.terms.instrument, o.terms.side, reference, f.quantity, bar, quote)) == Ok(priced)
         && f.price == Pricing.SettlePrice(priced.price, o.terms, i.tick, bar, priced.spread)
         && f.slippage == priced.slippage && f.reference == priced.reference
  }

  /** The fill printed on this bar, in its order's time. */
  ghost predicate PrintedOn(cfg: Config, o: OrderState, snap: Snapshot, f: Fill) {
    && f.timestamp == snap.timestamp && InTime(cfg.execution, o.terms, snap.timestamp)
    && o.terms.instrument in cfg.instruments
    && exists bar, reference, stop ::
         && (o.terms.trailing.None? ==> stop == o.stop)
         && PricedOn(cfg, o.(stop := stop), cfg.instruments[o.terms.instrument], snap, f, bar, reference)
  }

  lemma MarketBarShows(snap: Snapshot, id: InstrumentId, i: Instrument)
    ensures forall bar: Bar :: MarketBar(snap, id, i) == Some(bar) <==> Shows(snap, id, i, bar)
    ensures ShowsQuote(snap, id, i, QuoteFor(snap, id, i))
  {
  }

  /** A look prints on a bar that lets the order trade. */
  lemma LookPricedOn(cfg: Config, o: OrderState, i: Instrument, snap: Snapshot, seqNo: nat, volume: real)
    requires Judge(cfg, o, i, snap, seqNo, volume).Print?
    ensures exists bar, reference ::
        PricedOn(cfg, o, i, snap, Judge(cfg, o, i, snap, seqNo, volume).fill, bar, reference)
    ensures InTime(cfg.execution, o.terms, snap.timestamp) && !IsOver(o, snap.timestamp)
  {
    var a, at := Activated(o, snap.timestamp), snap.timestamp;
    var bar := MarketBar(snap, o.terms.instrument, i).value;
    var reference := TryFill(cfg.execution, a, Some(bar), snap.sessionClose).value;
    MarketBarShows(snap, o.terms.instrument, i);
    FillsIff(cfg.execution, a, bar, snap.sessionClose);
    SameTrades(cfg.execution, o, a, bar, snap.sessionClose);
    hide TryFill, Trades, TradesAt, Shows, ShowsQuote, MarketBar, QuoteFor, Fillable, Pricing.SettlePrice;
    assert PricedOn(cfg, o, i, snap, Judge(cfg, o, i, snap, seqNo, volume).fill, bar, reference);
  }

  /** How much of an order a bar takes: all that remains, if the liquidity model offers as much; else nothing, if the
      order or the broker wants all or none; else the whole lots in what is offered, give or take 1e-9 of one. */
  lemma BarTakes(cfg: Config, o: OrderState, i: Instrument, reference: real, bar: Bar)
    requires o.filled <= o.quantity
    ensures
      var rest, q := o.quantity - o.filled, Fillable(cfg, o, i, reference, bar);
      var offered := cfg.liquidity(LiquidityRequest(o.terms.instrument, o.terms.side, rest, reference, bar));
      if offered >= rest then q == rest
      else if o.terms.tif.Fok? || !cfg.allowPartial then q == 0.0
      else
        && OnGrid(q, i.lot) && q >= 0.0
        && (if offered <= 0.0 then q == 0.0 else offered - i.lot < q <= offered + TICK_EPSILON * i.lot)
  {
    var rest := o.quantity - o.filled;
    var offered := cfg.liquidity(LiquidityRequest(o.terms.instrument, o.terms.side, rest, reference, bar));
    var capped := Max(Min(rest, offered), 0.0);
    assert o.Remaining() == rest;
    if offered < rest {
      LotsIn(capped, i.lot);
    }
    hide RoundQuantity;
  }

  lemma LotsIn(quantity: real, lot: real)
    requires quantity >= 0.0 && lot > 0.0
    ensures
      var q := RoundQuantity(quantity, lot);
      && OnGrid(q, lot) && q >= 0.0 && q <= quantity + TICK_EPSILON * lot && q > quantity - lot
      && (quantity == 0.0 ==> q == 0.0)
  {
    var ratio := quantity / lot;
    var lots := (ratio + TICK_EPSILON).Floor;
    assert ratio * lot == quantity && ratio >= 0.0;
    assert RoundQuantity(quantity, lot) == Multiple(lots, lot);
    assert lots >= 0 && lots as real * lot >= 0.0;
    var over, under := ratio + TICK_EPSILON - lots as real, lots as real - (ratio - 1.0);
    assert over >= 0.0 && under > 0.0;
    assert over * lot >= 0.0 && under * lot > 0.0;
    assert Multiple(lots, lot) == quantity + TICK_EPSILON * lot - over * lot;
    assert Multiple(lots, lot) == quantity - lot + under * lot;
  }

  lemma SamePrinted(cfg: Config, o: OrderState, p: OrderState, snap: Snapshot, f: Fill)
    requires PrintedOn(cfg, o, snap, f) && p.terms == o.terms && (o.terms.trailing.None? ==> p.stop == o.stop)
    ensures PrintedOn(cfg, p, snap, f)
  {
    var i := cfg.instruments[o.terms.instrument];
    var bar, reference, stop :| (o.terms.trailing.None? ==> stop == o.stop)
      && PricedOn(cfg, o.(stop := stop), i, snap, f, bar, reference);
    SameTrades(cfg.execution, o.(stop := stop), p.(stop := stop), bar, snap.sessionClose);
    hide Trades, TradesAt, Shows, ShowsQuote, Pricing.SettlePrice;
    assert PricedOn(cfg, p.(stop := stop), i, snap, f, bar, reference);
  }

  // ---- over a run ----------------------------------------------------------------------------------------------

  /** The fill printed on a bar of the run. */
  ghost predicate Sourced(cfg: Config, commands: seq<Command>, s: State, k: nat)
    requires k < |s.log|
  {
    && s.log[k].orderId in s.orders
    && exists snap :: Command.Bar(snap) in commands && PrintedOn(cfg, s.orders[s.log[k].orderId], snap, s.log[k])
  }

  ghost predicate AllSourced(cfg: Config, commands: seq<Command>, s: State) {
    forall k | 0 <= k < |s.log| :: Sourced(cfg, commands, s, k)
  }

  /** The order is the same one as far as its fills go. */
  predicate SameOrder(o: OrderState, p: OrderState) {
    p.terms == o.terms && (o.terms.trailing.None? ==> p.stop == o.stop)
  }

  lemma SourcedStays(cfg: Config, commands: seq<Command>, s: State, t: State, k: nat)
    requires k < |s.log| && Sourced(cfg, commands, s, k) && s.log <= t.log
    requires forall x | x in s.orders :: x in t.orders && SameOrder(s.orders[x], t.orders[x])
    ensures Sourced(cfg, commands, t, k)
  {
    var id := s.log[k].orderId;
    var snap :| Command.Bar(snap) in commands && PrintedOn(cfg, s.orders[id], snap, s.log[k]);
    hide PrintedOn;
    SamePrinted(cfg, s.orders[id], t.orders[id], snap, s.log[k]);
  }

  lemma BetweenIsSame(s: State, t: State)
    requires Between(s, t)
    ensures forall x | x in s.orders :: x in t.orders && SameOrder(s.orders[x], t.orders[x])
  {
  }

  lemma LookIsSame(cfg: Config, s: State, t: State, id: OrderId, snap: Snapshot)
    requires Look(cfg, s, t, id, snap)
    ensures forall x | x in s.orders :: x in t.orders && SameOrder(s.orders[x], t.orders[x])
    ensures s.log <= t.log
    ensures if VerdictOf(cfg, s, id, snap).Print? then t.log == s.log + [VerdictOf(cfg, s, id, snap).fill]
            else t.log == s.log
  {
    hide WorkOrder, Judge, Ledger, PeriodVolume, Lawful, ShouldExpire, IsEligible;
    LookEffect(cfg, s, t, id, snap);
    hide Look, OrderState.Booked, Keyed;
    forall x | x in s.orders ensures x in t.orders && SameOrder(s.orders[x], t.orders[x]) {
      if x != id && VerdictOf(cfg, s, id, snap).Print? {
        assert Printed(cfg, s, id, VerdictOf(cfg, s, id, snap)).orders[x] == s.orders[x];
      }
    }
  }

  lemma LookPrints(cfg: Config, s: State, t: State, id: OrderId, snap: Snapshot)
    requires Look(cfg, s, t, id, snap) && VerdictOf(cfg, s, id, snap).Print?
    ensures PrintedOn(cfg, s.orders[id], snap, VerdictOf(cfg, s, id, snap).fill)
    ensures VerdictOf(cfg, s, id, snap).fill.orderId == id
  {
    hide WorkOrder, Ledger, Judge, PricedOn, PeriodVolume;
    var o := s.orders[id];
    var i := cfg.instruments[o.terms.instrument];
    LookPricedOn(cfg, o, i, snap, s.nextFill + 1, PeriodVolume(cfg, s, snap.timestamp));
    JudgeIsLawful(cfg, o, i, snap, s.nextFill + 1, PeriodVolume(cfg, s, snap.timestamp));
    var f := VerdictOf(cfg, s, id, snap).fill;
    var bar, reference :| PricedOn(cfg, o, i, snap, f, bar, reference);
    assert o.(stop := o.stop) == o;
  }

  lemma SourcedLook(cfg: Config, commands: seq<Command>, s: State, t: State, id: OrderId, snap: Snapshot)
    requires AllSourced(cfg, commands, s) && Look(cfg, s, t, id, snap) && Command.Bar(snap) in commands
    ensures AllSourced(cfg, commands, t)
  {
    var o := s.orders[id];
    hide Look, Sourced, PrintedOn, Judge, VerdictOf;
    LookIsSame(cfg, s, t, id, snap);
    forall k | 0 <= k < |t.log| ensures Sourced(cfg, commands, t, k) {
      if k < |s.log| {
        SourcedStays(cfg, commands, s, t, k);
      } else {
        LookPrints(cfg, s, t, id, snap);
        SamePrinted(cfg, o, t.orders[id], snap, t.log[k]);
        PrintIsSourced(cfg, commands, t, k, snap);
      }
    }
  }

  lemma PrintIsSourced(cfg: Config, commands: seq<Command>, s: State, k: nat, snap: Snapshot)
    requires k < |s.log| && s.log[k].orderId in s.orders && Command.Bar(snap) in commands
    requires PrintedOn(cfg, s.orders[s.log[k].orderId], snap, s.log[k])
    ensures Sourced(cfg, commands, s, k)
  {
    hide PrintedOn;
  }

  /** Every fill of a run printed on a bar of the run, at that bar's time, in time for its order, where the bar lets the
      order trade, and at what the price model says to that, settled. */
  lemma EveryFillIsOnABar(cfg: Config, commands: seq<Command>)
    requires Run(cfg, commands).Ok?
    ensures AllSourced(cfg, commands, Run(cfg, commands).value)
  {
    var P := (s: State) => AllSourced(cfg, commands, s);
    hide Run, Look, Between, Sourced;
    forall s, t | P(s) && Between(s, t) ensures P(t) {
      SourcedBetween(cfg, commands, s, t);
    }
    forall snap | Command.Bar(snap) in commands ensures KeptByLooks(cfg, P, snap) {
      forall s, t, id | P(s) && Look(cfg, s, t, id, snap) ensures P(t) {
        SourcedLook(cfg, commands, s, t, id, snap);
      }
    }
    RunInduction(cfg, commands, P);
  }

  lemma SourcedBetween(cfg: Config, commands: seq<Command>, s: State, t: State)
    requires AllSourced(cfg, commands, s) && Between(s, t)
    ensures AllSourced(cfg, commands, t)
  {
    hide Sourced;
    BetweenIsSame(s, t);
    forall k | 0 <= k < |t.log| ensures Sourced(cfg, commands, t, k) {
      SourcedStays(cfg, commands, s, t, k);
    }
  }

  // ---- and what a bar lets trade does trade --------------------------------------------------------------------

  /** The order may trade on this bar, by what order and bar say. */
  ghost predicate MayTrade(cfg: Config, o: OrderState, i: Instrument, snap: Snapshot) {
    && o.IsOpen() && InTime(cfg.execution, o.terms, snap.timestamp) && !IsOver(o, snap.timestamp)
    && exists bar :: Shows(snap, o.terms.instrument, i, bar) && Trades(cfg.execution, o, bar, snap.sessionClose)
  }

  /** The order is settled, and not by its time. */
  predicate Done(s: State, id: OrderId) {
    id in s.orders && (s.orders[id].status.Filled? || s.orders[id].status.Cancelled?)
  }

  lemma MayTradeIsReached(cfg: Config, o: OrderState, i: Instrument, snap: Snapshot)
    requires MayTrade(cfg, o, i, snap)
    ensures Reached(cfg, o, i, snap)
  {
    ReachedIff(cfg, o, i, snap);
    MarketBarShows(snap, o.terms.instrument, i);
    hide Trades, Shows, Reached, MarketBar;
  }

  lemma SameMayTrade(cfg: Config, o: OrderState, p: OrderState, i: Instrument, snap: Snapshot)
    requires MayTrade(cfg, o, i, snap) && p.IsOpen()
    requires p.terms == o.terms && p.stop == o.stop && p.activatedAt == o.activatedAt
    ensures MayTrade(cfg, p, i, snap)
  {
    var bar :| Shows(snap, o.terms.instrument, i, bar) && Trades(cfg.execution, o, bar, snap.sessionClose);
    SameTrades(cfg.execution, o, p, bar, snap.sessionClose);
    hide Trades, Shows;
  }

  /** Where liquidity is not capped a look at an order that may trade fills it. */
  lemma OwnLookFills(cfg: Config, s: State, t: State, id: OrderId, snap: Snapshot)
    requires Unlimited(cfg) && Look(cfg, s, t, id, snap)
    requires MayTrade(cfg, s.orders[id], cfg.instruments[s.orders[id].terms.instrument], snap)
    ensures Done(t, id)
  {
    var o := s.orders[id];
    var i := cfg.instruments[o.terms.instrument];
    var volume := PeriodVolume(cfg, s, snap.timestamp);
    hide Ledger, MayTrade, Judge, Enact, PeriodVolume, Lawful, MarketBar, Fillable;
    MayTradeIsReached(cfg, o, i, snap);
    assert o.terms.id == id;
    UncappedTakes(cfg, s, id, i, snap);
    ReachedPrints(cfg, o, i, snap, s.nextFill + 1, volume);
    JudgeIsLawful(cfg, o, i, snap, s.nextFill + 1, volume);
    FilledIsNotNegative(cfg, s, id);
    hide Reached, Keyed;
    var v := VerdictOf(cfg, s, id, snap);
    assert v.Print? by {
      if v.Refused? {
        RefusedEnds(cfg, s, id, v, i, MarketBar(snap, o.terms.instrument, i));
      }
    }
    LookEffect(cfg, s, t, id, snap);
    WholePrintFills(cfg, o, v, snap.timestamp);
  }

  lemma RefusedEnds(cfg: Config, s: State, id: OrderId, v: Verdict, i: Instrument, bar: Option<Bar>)
    requires id in s.orders && v.Refused?
    ensures Enact(cfg, s, id, v, i, bar).Raised?
  {
  }

  lemma ReachedPrints(cfg: Config, o: OrderState, i: Instrument, snap: Snapshot, seqNo: nat, volume: real)
    requires Reached(cfg, o, i, snap)
    requires forall price: real, bar: Bar :: Fillable(cfg, o, i, price, bar) > QUANTITY_TOLERANCE
    ensures
      var v := Judge(cfg, o, i, snap, seqNo, volume);
      v.Print? || v.Refused?
  {
    var a := Activated(o, snap.timestamp);
    assert forall price: real, bar: Bar :: Fillable(cfg, a, i, price, bar) == Fillable(cfg, o, i, price, bar) by {
      hide RoundQuantity;
    }
    hide Fillable, BuildFill, TryFill, ShouldExpire, MarketBar;
  }

  /** A print of all that remains fills its order. */
  lemma WholePrintFills(cfg: Config, o: OrderState, v: Verdict, at: Time)
    requires Unlimited(cfg) && v.Print? && Lawful(cfg, o, v, at) && o.IsOpen() && 0.0 <= o.filled <= o.quantity
    ensures Activated(o, at).Booked(v.fill).status.Filled?
  {
    hide Unlimited;
  }

  /** The order is done, or may still trade on this bar. */
  ghost predicate Waits(cfg: Config, s: State, id: OrderId, i: Instrument, snap: Snapshot) {
    id in s.orders && (MayTrade(cfg, s.orders[id], i, snap) || Done(s, id))
  }

  /** Others' looks leave it to its own. */
  lemma OtherLookWaits(cfg: Config, s: State, t: State, x: OrderId, snap: Snapshot, id: OrderId, i: Instrument)
    requires Look(cfg, s, t, x, snap) && x != id && Waits(cfg, s, id, i, snap)
    ensures Waits(cfg, t, id, i, snap)
  {
    hide WorkOrder, Ledger, Judge, PeriodVolume, ShouldExpire, IsEligible, Lawful, MayTrade;
    LookEffect(cfg, s, t, x, snap);
    hide OrderState.Booked, Look;
    var v := VerdictOf(cfg, s, x, snap);
    assert v.Print? ==> Printed(cfg, s, x, v).orders[id] == s.orders[id];
    assert Bystander(s.orders[id], t.orders[id]);
    BystanderWaits(cfg, s, t, id, i, snap);
  }

  lemma BystanderWaits(cfg: Config, s: State, t: State, id: OrderId, i: Instrument, snap: Snapshot)
    requires Waits(cfg, s, id, i, snap) && id in t.orders && Bystander(s.orders[id], t.orders[id])
    ensures Waits(cfg, t, id, i, snap)
  {
    hide MayTrade;
    if MayTrade(cfg, s.orders[id], i, snap) && t.orders[id].IsOpen() {
      SameMayTrade(cfg, s.orders[id], t.orders[id], i, snap);
    }
    if MayTrade(cfg, s.orders[id], i, snap) {
      OpenMayTrade(cfg, s.orders[id], i, snap);
    }
  }

  lemma OpenMayTrade(cfg: Config, o: OrderState, i: Instrument, snap: Snapshot)
    requires MayTrade(cfg, o, i, snap)
    ensures o.IsOpen()
  {
  }

  lemma DoneStays(s: State, t: State, id: OrderId)
    requires Done(s, id) && Since(s, t)
    ensures Done(t, id)
  {
  }

  /** Working a list leaves the order done, or waiting if the list does not come to it. */
  lemma WorkAllFills(cfg: Config, s: State, ids: seq<OrderId>, inst: InstrumentId, i: Instrument, snap: Snapshot,
                     id: OrderId)
    requires Inv(s, {inst}) && Sound(cfg, s, false) && inst in cfg.instruments && Unlimited(cfg)
    requires forall x | x in ids :: x in s.orders && s.orders[x].terms.instrument == inst
    requires WorkAll(cfg, s, ids, cfg.instruments[inst], snap).Ok? && Waits(cfg, s, id, i, snap)
    requires id in ids ==> i == cfg.instruments[inst]
    ensures
      var t := WorkAll(cfg, s, ids, cfg.instruments[inst], snap).value;
      Waits(cfg, t, id, i, snap) && (id in ids ==> Done(t, id))
    decreases |ids|
  {
    hide Inv, WorkOrder, Ledger, OneLook, Paired, Bracketed, MayTrade, Unlimited, Done;
    if ids != [] {
      var x := ids[0];
      assert id in ids <==> id == x || id in ids[1..];
      var t := s;
      if Cancellable(s, x) {
        t := WorkOrder(cfg, s, x, cfg.instruments[inst], snap).value;
        InvPaired(s, {inst});
        assert Look(cfg, s, t, x, snap);
        WorkOrderKeeps(cfg, s, x, cfg.instruments[inst], snap, {inst});
        WorkOrderSound(cfg, s, x, cfg.instruments[inst], snap, false, {inst});
        hide Keyed, Sound;
        LookServes(cfg, s, t, x, snap, id, i);
      } else if x == id && MayTrade(cfg, s.orders[id], i, snap) {
        OpenMayTrade(cfg, s.orders[id], i, snap);
      }
      hide Sound, Waits;
      var u := WorkAll(cfg, t, ids[1..], cfg.instruments[inst], snap).value;
      WorkAllFills(cfg, t, ids[1..], inst, i, snap, id);
      if Done(t, id) {
        WorkAllKeeps(cfg, t, ids[1..], inst, cfg.instruments[inst], snap);
        hide Since;
        DoneStays(t, u, id);
      }
    }
  }

  lemma LookServes(cfg: Config, s: State, t: State, x: OrderId, snap: Snapshot, id: OrderId, i: Instrument)
    requires Unlimited(cfg) && Look(cfg, s, t, x, snap) && Waits(cfg, s, id, i, snap)
    requires x == id ==> i == cfg.instruments[s.orders[x].terms.instrument]
    ensures Waits(cfg, t, id, i, snap) && (x == id ==> Done(t, id))
  {
    hide Unlimited, MayTrade;
    if x == id {
      assert Cancellable(s, x);
      hide Look;
      OwnLookFills(cfg, s, t, id, snap);
    } else {
      hide Look;
      OtherLookWaits(cfg, s, t, x, snap, id, i);
    }
  }

  lemma WorkBookFills(cfg: Config, s: State, inst: InstrumentId, snap: Snapshot, id: OrderId, i: Instrument)
    requires Inv(s, {}) && Sound(cfg, s, false) && Unlimited(cfg) && WorkBook(cfg, s, inst, snap).Ok?
    requires Waits(cfg, s, id, i, snap)
    requires s.orders[id].terms.instrument == inst ==> inst in cfg.instruments && i == cfg.instruments[inst]
    ensures
      var t := WorkBook(cfg, s, inst, snap).value;
      Waits(cfg, t, id, i, snap) && (s.orders[id].terms.instrument == inst ==> Done(t, id))
  {
    hide Inv, Sound, WorkAll, MatchingOrder, Prune, MayTrade, Unlimited;
    if Cancellable(s, id) {
      OpenIsShelved(s, id);
    } else if MayTrade(cfg, s.orders[id], i, snap) {
      OpenMayTrade(cfg, s.orders[id], i, snap);
    }
    if inst in s.books {
      BookReady(s, inst);
      MatchingOrderMembers(s, s.books[inst]);
      WorkAllFills(cfg, s, MatchingOrder(s, s.books[inst]), inst, i, snap, id);
      WorkAllKeeps(cfg, s, MatchingOrder(s, s.books[inst]), inst, cfg.instruments[inst], snap);
      if Done(s, id) {
        DoneStays(s, WorkAll(cfg, s, MatchingOrder(s, s.books[inst]), cfg.instruments[inst], snap).value, id);
      }
    }
  }

  lemma WorkBooksFill(cfg: Config, s: State, keys: seq<InstrumentId>, snap: Snapshot, id: OrderId, i: Instrument)
    requires Inv(s, {}) && Sound(cfg, s, false) && Unlimited(cfg) && WorkBooks(cfg, s, keys, snap).Ok?
    requires Waits(cfg, s, id, i, snap)
    requires s.orders[id].terms.instrument in cfg.instruments && i == cfg.instruments[s.orders[id].terms.instrument]
    requires Done(s, id) || s.orders[id].terms.instrument in keys
    ensures Done(WorkBooks(cfg, s, keys, snap).value, id)
    decreases |keys|
  {
    hide Inv, Sound, WorkBook, MayTrade, Unlimited;
    if keys != [] {
      var t := WorkBook(cfg, s, keys[0], snap).value;
      WorkBookKeeps(cfg, s, keys[0], snap);
      WorkBookSound(cfg, s, keys[0], snap, false);
      WorkBookFills(cfg, s, keys[0], snap, id, i);
      if Done(s, id) {
        DoneStays(s, t, id);
      }
      WorkBooksFill(cfg, t, keys[1..], snap, id, i);
    }
  }

  /** Where liquidity is not capped, an open order that may trade on a bar, by what order and bar say, is filled by it,
      unless something else on the bar cancels it first. */
  lemma WhatTradesIsFilled(cfg: Config, commands: seq<Command>, snap: Snapshot, id: OrderId)
    requires Unlimited(cfg) && Run(cfg, commands).Ok? && ProcessBar(cfg, Run(cfg, commands).value, snap).Ok?
    requires id in Run(cfg, commands).value.orders
    requires
      var o := Run(cfg, commands).value.orders[id];
      o.terms.instrument in cfg.instruments && MayTrade(cfg, o, cfg.instruments[o.terms.instrument], snap)
    ensures Done(ProcessBar(cfg, Run(cfg, commands).value, snap).value, id)
  {
    RunSound(cfg, commands, false);
    RunInvariant(cfg, commands);
    var s := Run(cfg, commands).value;
    var s1 := s.(out := NO_RESULT.(rejections := s.pending), pending := []);
    var i := cfg.instruments[s.orders[id].terms.instrument];
    OpenMayTrade(cfg, s.orders[id], i, snap);
    OpenIsShelved(s, id);
    hide Run, Inv, Sound, WorkBooks, MayTrade, Unlimited;
    ShapeKeeps(s, s1, {});
    RecordsSound(cfg, s, s1, false);
    WorkBooksFill(cfg, s1, s.bookOrder, snap, id, i);
  }

  // ---- time in force -------------------------------------------------------------------------------------------

  /** The fill is in its order's time: before its date, and no later a day than that of the first bar it could trade
      on. */
  predicate InForce(o: OrderState, f: Fill) {
    && (o.terms.expiresAt.Some? ==> f.timestamp < o.terms.expiresAt.value)
    && (o.terms.tif.Day_? ==> o.activatedAt.Some? && Day(f.timestamp) <= Day(o.activatedAt.value))
  }

  /** A bar of the run ended the order: by its date, by a day later than that of its first bar, or, for an order of one
      look, by being looked at. */
  ghost predicate Ended(commands: seq<Command>, o: OrderState) {
    exists snap :: Command.Bar(snap) in commands && (IsOver(o, snap.timestamp)
                                                     || (o.terms.tif in {Ioc, Fok} && o.activatedAt.Some?))
  }

  ghost predicate Timely(commands: seq<Command>, s: State) {
    && (forall k | 0 <= k < |s.log| :: s.log[k].orderId in s.orders && InForce(s.orders[s.log[k].orderId], s.log[k]))
    && (forall id | id in s.orders && s.orders[id].status.Expired? :: Ended(commands, s.orders[id]))
  }

  lemma TimelyBetween(commands: seq<Command>, s: State, t: State)
    requires Timely(commands, s) && Between(s, t)
    ensures Timely(commands, t)
  {
    forall id | id in t.orders && t.orders[id].status.Expired? ensures Ended(commands, t.orders[id]) {
      SameEnd(commands, s.orders[id], t.orders[id]);
    }
  }

  lemma SameEnd(commands: seq<Command>, o: OrderState, p: OrderState)
    requires Ended(commands, o) && p.terms == o.terms && p.activatedAt == o.activatedAt
    ensures Ended(commands, p)
  {
  }

  lemma TimelyPrint(cfg: Config, commands: seq<Command>, s: State, t: State, id: OrderId, v: Verdict, at: Time)
    requires Timely(commands, s) && Cancellable(s, id) && PrintLeaves(cfg, s, t, id, v, at)
    requires v.fill.orderId == id && v.fill.timestamp == at && !IsOver(s.orders[id], at)
    ensures Timely(commands, t)
  {
    var o := s.orders[id];
    assert !Activated(o, at).Booked(v.fill).status.Expired?;
    hide Lawful, PeriodVolume, OrderState.Booked, Ended;
    forall k | 0 <= k < |t.log| ensures t.log[k].orderId in t.orders && InForce(t.orders[t.log[k].orderId], t.log[k]) {
      if k < |s.log| {
        assert t.log[k] == s.log[k];
      }
    }
    forall x | x in t.orders && t.orders[x].status.Expired? ensures Ended(commands, t.orders[x]) {
      assert x != id && x in s.orders;
      SameEnd(commands, s.orders[x], t.orders[x]);
    }
  }

  lemma TimelyWait(cfg: Config, commands: seq<Command>, s: State, t: State, id: OrderId, snap: Snapshot)
    requires Timely(commands, s) && Cancellable(s, id) && WaitLeaves(cfg, s, t, id, snap.timestamp)
    requires Command.Bar(snap) in commands
    ensures Timely(commands, t)
  {
    hide IsEligible;
    forall x | x in t.orders && t.orders[x].status.Expired? ensures Ended(commands, t.orders[x]) {
      if x == id {
        var o := t.orders[x];
        assert IsOver(o, snap.timestamp) || (o.terms.tif in {Ioc, Fok} && o.activatedAt.Some?);
      } else {
        assert x in s.orders;
        SameEnd(commands, s.orders[x], t.orders[x]);
      }
    }
  }

  lemma TimelyLook(cfg: Config, commands: seq<Command>, s: State, t: State, id: OrderId, snap: Snapshot)
    requires Timely(commands, s) && Look(cfg, s, t, id, snap) && Command.Bar(snap) in commands
    ensures Timely(commands, t)
  {
    hide WorkOrder, Ledger, Judge, PricedOn, PeriodVolume, Timely, PrintLeaves, WaitLeaves;
    var o := s.orders[id];
    LookEffect(cfg, s, t, id, snap);
    if VerdictOf(cfg, s, id, snap).Print? {
      LookPrints(cfg, s, t, id, snap);
      LookPricedOn(cfg, o, cfg.instruments[o.terms.instrument], snap, s.nextFill + 1,
                   PeriodVolume(cfg, s, snap.timestamp));
      TimelyPrint(cfg, commands, s, t, id, VerdictOf(cfg, s, id, snap), snap.timestamp);
    } else {
      TimelyWait(cfg, commands, s, t, id, snap);
    }
  }

  /** After any run no order has filled at or past its date, nor a day order on a later day than that of the first bar
      it
      could trade on; and none has expired but by a bar of the run that so ended it. */
  lemma OrdersKeepTheirTime(cfg: Config, commands: seq<Command>)
    requires Run(cfg, commands).Ok?
    ensures Timely(commands, Run(cfg, commands).value)
  {
    var P := (s: State) => Timely(commands, s);
    hide Run, Look, Between;
    assert P(Init);
    hide Timely;
    forall s, t | P(s) && Between(s, t) ensures P(t) {
      TimelyBetween(commands, s, t);
    }
    forall snap | Command.Bar(snap) in commands ensures KeptByLooks(cfg, P, snap) {
      forall s, t, id | P(s) && Look(cfg, s, t, id, snap) ensures P(t) {
        TimelyLook(cfg, commands, s, t, id, snap);
      }
    }
    RunInduction(cfg, commands, P);
  }

  /** Once an order has had its first bar, that stays its first bar. */
  lemma FirstBarStays(cfg: Config, commands: seq<Command>, k: nat, id: OrderId)
    requires k <= |commands| && Run(cfg, commands).Ok? && Run(cfg, commands[..k]).Ok?
    requires id in Run(cfg, commands[..k]).value.orders
    requires Run(cfg, commands[..k]).value.orders[id].activatedAt.Some?
    ensures
      var s := Run(cfg, commands).value;
      id in s.orders && s.orders[id].activatedAt == Run(cfg, commands[..k]).value.orders[id].activatedAt
  {
    var first := Run(cfg, commands[..k]).value.orders[id].activatedAt;
    var P := (s: State) => id in s.orders && s.orders[id].activatedAt == first;
    hide Run, Look;
    forall s, t | P(s) && Between(s, t) ensures P(t) {
    }
    hide Between;
    forall snap ensures KeptByLooks(cfg, P, snap) {
      forall s, t, x | P(s) && Look(cfg, s, t, x, snap) ensures P(t) {
        LookKeepsFirst(cfg, s, t, x, snap, id);
      }
    }
    RunInductionFrom(cfg, commands, k, P);
  }

  lemma LookKeepsFirst(cfg: Config, s: State, t: State, x: OrderId, snap: Snapshot, id: OrderId)
    requires Look(cfg, s, t, x, snap) && id in s.orders && s.orders[id].activatedAt.Some?
    ensures id in t.orders && t.orders[id].activatedAt == s.orders[id].activatedAt
  {
    hide WorkOrder, Ledger, Judge, PeriodVolume, ShouldExpire, IsEligible, Lawful;
    LookEffect(cfg, s, t, x, snap);
    hide OrderState.Booked;
    if x != id && VerdictOf(cfg, s, x, snap).Print? {
      assert Printed(cfg, s, x, VerdictOf(cfg, s, x, snap)).orders[id] == s.orders[id];
    }
  }
}
