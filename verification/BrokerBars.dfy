/** One whole bar, followed for one bracket: a bar that reaches both legs stops out. */
module BrokerBars {
  import opened Types
  import opened Money
  import opened Instruments
  import opened Orders
  import opened Execution
  import opened BrokerSpec
  import opened BrokerIndex
  import opened BrokerLedger
  import opened BrokerBrackets
  import opened BrokerOco
  import opened BrokerRuns

  // ---- a bar that reaches both legs stops out ------------------------------------------------------------------

  /** The bar reaches the order: it is not lapsed, may trade, and has a price on this bar. */
  predicate Reached(cfg: Config, o: OrderState, i: Instrument, snap: Snapshot) {
    && !ShouldExpire(o, snap.timestamp) && IsEligible(cfg.execution, o, snap.timestamp)
    && TryFill(cfg.execution, Activated(o, snap.timestamp), MarketBar(snap, o.terms.instrument, i),
               snap.sessionClose).Some?
  }

  /** An order submitted when it was may trade on a bar of this time. */
  predicate InTime(model: ExecutionModel, terms: OrderTerms, at: Time) {
    if model.SameBarClose? then terms.submittedAt <= at else terms.submittedAt < at
  }

  /** The order's time is over: its date has come, or a day later than that of the first bar it could trade on. */
  predicate IsOver(o: OrderState, at: Time) {
    || (o.terms.expiresAt.Some? && o.terms.expiresAt.value <= at)
    || (o.terms.tif.Day_? && o.activatedAt.Some? && Day(o.activatedAt.value) < Day(at))
  }

  /** A bar reaches an order exactly when the order is open, in time and not over, and the bar lets it trade. */
  lemma ReachedIff(cfg: Config, o: OrderState, i: Instrument, snap: Snapshot)
    ensures
      var bar := MarketBar(snap, o.terms.instrument, i);
      Reached(cfg, o, i, snap) <==>
        && o.IsOpen() && InTime(cfg.execution, o.terms, snap.timestamp) && !IsOver(o, snap.timestamp)
        && bar.Some? && Trades(cfg.execution, o, bar.value, snap.sessionClose)
  {
    var a, bar := Activated(o, snap.timestamp), MarketBar(snap, o.terms.instrument, i);
    hide MarketBar;
    if bar.Some? {
      FillsIff(cfg.execution, a, bar.value, snap.sessionClose);
      SameTrades(cfg.execution, o, a, bar.value, snap.sessionClose);
      hide TryFill, Trades;
    }
  }

  /** A bar looks at nothing but an order's terms and its stop. */
  lemma SameTrades(model: ExecutionModel, o: OrderState, a: OrderState, bar: Bar, sessionClose: bool)
    requires a.terms == o.terms && a.stop == o.stop
    ensures Trades(model, a, bar, sessionClose) == Trades(model, o, bar, sessionClose)
    ensures forall price :: TradesAt(model, a, bar, price) == TradesAt(model, o, bar, price)
  {
    assert forall price :: ReadsAt(model, a, bar, price) == ReadsAt(model, o, bar, price);
    assert forall price :: SetsOff(a, price) == SetsOff(o, price);
    assert forall price :: WithinLimit(a, price) == WithinLimit(o, price);
    hide ReadsAt, SetsOff, WithinLimit;
  }

  /** Both legs of `p` are live. */
  ghost predicate Poised(s: State, p: OrderId) {
    Cancellable(s, StopId(p)) && Cancellable(s, TargetId(p))
  }

  ghost predicate StoppedOut(s: State, p: OrderId) {
    && StopId(p) in s.orders && s.orders[StopId(p)].status.Filled?
    && TargetId(p) in s.orders && s.orders[TargetId(p)].status.IsTerminal() && !s.orders[TargetId(p)].status.Filled?
  }

  lemma StoppedOutStays(s: State, t: State, p: OrderId)
    requires StoppedOut(s, p) && Since(s, t)
    ensures StoppedOut(t, p)
  {
  }

  /** The bar reaches the order and absorbs some of it. */
  predicate Absorbs(cfg: Config, o: OrderState, i: Instrument, snap: Snapshot) {
    && Reached(cfg, o, i, snap)
    && var a, bar := Activated(o, snap.timestamp), MarketBar(snap, o.terms.instrument, i);
       Fillable(cfg, a, i, TryFill(cfg.execution, a, bar, snap.sessionClose).value, bar.value) > QUANTITY_TOLERANCE
  }

  lemma AbsorbedPrints(cfg: Config, o: OrderState, i: Instrument, snap: Snapshot, seqNo: nat, volume: real)
    requires Absorbs(cfg, o, i, snap)
    ensures
      var v := Judge(cfg, o, i, snap, seqNo, volume);
      v.Print? || v.Refused?
  {
    hide TryFill, Fillable, BuildFill, ShouldExpire, MarketBar;
  }

  /** Working a live stop the bar absorbs. */
  lemma StopPrints(cfg: Config, s: State, p: OrderId, i: Instrument, snap: Snapshot, busy: set<InstrumentId>)
    requires Inv(s, busy) && Sound(cfg, s, true) && NeverShort(cfg) && Poised(s, p)
    requires s.orders[StopId(p)].terms.instrument in busy && Absorbs(cfg, s.orders[StopId(p)], i, snap)
    requires WorkOrder(cfg, s, StopId(p), i, snap).Ok?
    ensures StoppedOut(WorkOrder(cfg, s, StopId(p), i, snap).value, p)
  {
    var x := StopId(p);
    var o := s.orders[x];
    var t := WorkOrder(cfg, s, x, i, snap).value;
    var volume := PeriodVolume(cfg, s, snap.timestamp);
    hide Inv, Ledger, OneLook, Protective, Followed, Exclusive, NeverShort, Absorbs, Judge, Enact, Lawful, StopId,
         TargetId, Rivals;
    InvPaired(s, busy);
    KeyedLeg(s, x);
    JudgeIsLawful(cfg, o, i, snap, s.nextFill + 1, volume);
    AbsorbedPrints(cfg, o, i, snap, s.nextFill + 1, volume);
    WholeIsEntire(cfg, o, Judge(cfg, o, i, snap, s.nextFill + 1, volume), snap.timestamp);
    EnactOwn(cfg, s, x, Judge(cfg, o, i, snap, s.nextFill + 1, volume), i, MarketBar(snap, o.terms.instrument, i),
             snap.timestamp);
    WorkOrderKeeps(cfg, s, x, i, snap, busy);
    WorkOrderSound(cfg, s, x, i, snap, true, busy);
    NeverShortIsTame(cfg, t, p);
    FilledStopsOut(t, p);
  }

  lemma FilledStopsOut(s: State, p: OrderId)
    requires Exclusive(s) && Tame(s.log, p) && TargetId(p) in s.orders && StopId(p) in s.orders
    requires s.orders[StopId(p)].status.Filled?
    ensures StoppedOut(s, p)
  {
    hide Tame, StopId, TargetId;
    assert Rivals(s, p);
  }

  /** Where liquidity is not capped a bar takes all of any live order, whatever the price. */
  lemma UncappedTakes(cfg: Config, s: State, x: OrderId, i: Instrument, snap: Snapshot)
    requires Unlimited(cfg) && Ledger(cfg, s) && Cancellable(s, x) && s.orders[x].terms.id == x
    ensures forall price: real, bar: Bar ::
        Fillable(cfg, s.orders[x], i, price, bar) == s.orders[x].quantity - s.orders[x].filled > QUANTITY_TOLERANCE
  {
    var o := s.orders[x];
    NeverShortEntire(cfg, s, x);
    EntireIsWhole(cfg, s, x);
    assert Tallied(o, s.log);
    hide Ledger, Entire, RoundQuantity;
    forall price: real, bar: Bar
      ensures Fillable(cfg, o, i, price, bar) == o.quantity - o.filled > QUANTITY_TOLERANCE
    {
      var request := LiquidityRequest(o.terms.instrument, o.terms.side, o.Remaining(), price, bar);
      assert cfg.liquidity(request) >= request.quantity;
    }
  }

  lemma WholeIsEntire(cfg: Config, o: OrderState, v: Verdict, at: Time)
    requires NeverShort(cfg) && Lawful(cfg, o, v, at) && v.Print?
    ensures !v.fill.isPartial
  {
    hide NeverShort;
  }

  lemma KeyedLeg(s: State, x: OrderId)
    requires Keyed(s) && x in s.orders
    ensures s.orders[x].terms.id == x
  {
  }

  /** Where fills are never short an entry with a live leg is filled. */
  lemma EntryIsDone(cfg: Config, s: State, p: OrderId)
    requires NeverShort(cfg) && Ledger(cfg, s) && Protective(s) && Keyed(s) && Poised(s, p)
    ensures !Cancellable(s, p)
  {
    LegIds(p);
    hide NeverShort, StopId, TargetId;
    assert Guarded(s, StopId(p));
    NeverShortEntire(cfg, s, p);
    EntireIsWhole(cfg, s, p);
  }

  /** Working another order leaves both live legs as they are. */
  lemma OtherSparesLegs(cfg: Config, s: State, id: OrderId, i: Instrument, snap: Snapshot, p: OrderId,
                        busy: set<InstrumentId>)
    requires Inv(s, busy) && Sound(cfg, s, true) && NeverShort(cfg) && Poised(s, p)
    requires Cancellable(s, id) && s.orders[id].terms.instrument in busy && id != StopId(p) && id != TargetId(p)
    requires WorkOrder(cfg, s, id, i, snap).Ok?
    ensures
      var t := WorkOrder(cfg, s, id, i, snap).value;
      Spared(s, t, StopId(p)) && Spared(s, t, TargetId(p))
  {
    assert LegPair(s, id);
    InvPaired(s, busy);
    EntryIsDone(cfg, s, p);
    hide Inv, Ledger, OneLook, Protective, Followed, Exclusive, NeverShort, Judge, IsVerdict, Enact, Concerned, StopId,
         TargetId;
    LegSpared(s, id, p);
    var o := s.orders[id];
    var volume := PeriodVolume(cfg, s, snap.timestamp);
    var v := Judge(cfg, o, i, snap, s.nextFill + 1, volume);
    JudgeIsVerdict(cfg, o, i, snap, s.nextFill + 1, volume);
    EnactSpares(cfg, s, id, v, i, MarketBar(snap, o.terms.instrument, i), StopId(p), busy);
    EnactSpares(cfg, s, id, v, i, MarketBar(snap, o.terms.instrument, i), TargetId(p), busy);
  }

  lemma OthersSpareLegs(cfg: Config, s: State, ids: seq<OrderId>, inst: InstrumentId, i: Instrument, snap: Snapshot,
                        p: OrderId)
    requires Inv(s, {inst}) && Sound(cfg, s, true) && NeverShort(cfg) && Poised(s, p)
    requires WorkAll(cfg, s, ids, i, snap).Ok?
    requires StopId(p) !in ids && TargetId(p) !in ids
    requires forall id | id in ids :: id in s.orders && s.orders[id].terms.instrument == inst
    ensures
      var t := WorkAll(cfg, s, ids, i, snap).value;
      Spared(s, t, StopId(p)) && Spared(s, t, TargetId(p))
    decreases |ids|
  {
    hide Inv, Sound, NeverShort, WorkOrder, StopId, TargetId;
    if ids == [] {
    } else if Cancellable(s, ids[0]) {
      var s1 := WorkOrder(cfg, s, ids[0], i, snap).value;
      OtherSparesLegs(cfg, s, ids[0], i, snap, p, {inst});
      WorkOrderKeeps(cfg, s, ids[0], i, snap, {inst});
      WorkOrderSound(cfg, s, ids[0], i, snap, true, {inst});
      OthersSpareLegs(cfg, s1, ids[1..], inst, i, snap, p);
    } else {
      OthersSpareLegs(cfg, s, ids[1..], inst, i, snap, p);
    }
  }

  /** Working a list that comes to the stop before the target. */
  lemma StopBeforeTarget(cfg: Config, s: State, ids: seq<OrderId>, k: nat, inst: InstrumentId, i: Instrument,
                         snap: Snapshot, p: OrderId)
    requires Inv(s, {inst}) && Sound(cfg, s, true) && NeverShort(cfg) && Poised(s, p)
    requires WorkAll(cfg, s, ids, i, snap).Ok?
    requires k < |ids| && ids[k] == StopId(p) && TargetId(p) !in ids[..k]
    requires Absorbs(cfg, s.orders[StopId(p)], i, snap)
    requires forall id | id in ids :: id in s.orders && s.orders[id].terms.instrument == inst
    ensures StoppedOut(WorkAll(cfg, s, ids, i, snap).value, p)
    decreases |ids|
  {
    hide Inv, Sound, NeverShort, WorkOrder, Absorbs, StopId, TargetId, StoppedOut;
    if ids[0] == StopId(p) {
      var s1 := WorkOrder(cfg, s, ids[0], i, snap).value;
      StopPrints(cfg, s, p, i, snap, {inst});
      WorkOrderKeeps(cfg, s, ids[0], i, snap, {inst});
      WorkAllKeeps(cfg, s1, ids[1..], inst, i, snap);
      hide Since;
      StoppedOutStays(s1, WorkAll(cfg, s1, ids[1..], i, snap).value, p);
    } else {
      assert ids[..k][0] == ids[0] && ids[1..][..k - 1] == ids[..k][1..];
      if Cancellable(s, ids[0]) {
        var s1 := WorkOrder(cfg, s, ids[0], i, snap).value;
        OtherSparesLegs(cfg, s, ids[0], i, snap, p, {inst});
        WorkOrderKeeps(cfg, s, ids[0], i, snap, {inst});
        WorkOrderSound(cfg, s, ids[0], i, snap, true, {inst});
        StopBeforeTarget(cfg, s1, ids[1..], k - 1, inst, i, snap, p);
      } else {
        StopBeforeTarget(cfg, s, ids[1..], k - 1, inst, i, snap, p);
      }
    }
  }

  /** In matching order a stop comes before anything that is not a stop. */
  lemma StopsComeFirst(s: State, book: seq<OrderId>, x: OrderId, y: OrderId) returns (k: nat)
    requires x in book && x in s.Stops() && y !in s.Stops()
    ensures k < |MatchingOrder(s, book)| && MatchingOrder(s, book)[k] == x && y !in MatchingOrder(s, book)[..k]
  {
    var first := Keep(book, s.Stops());
    KeepMembers(book, s.Stops());
    k :| 0 <= k < |first| && first[k] == x;
    assert MatchingOrder(s, book)[..k] == first[..k];
    assert forall z | z in first[..k] :: z in first;
  }

  lemma LiveLegs(cfg: Config, s: State, p: OrderId)
    requires Sound(cfg, s, true) && Poised(s, p)
    ensures s.orders[TargetId(p)].terms.instrument == s.orders[StopId(p)].terms.instrument
    ensures StopId(p) in s.Stops() && TargetId(p) !in s.Stops()
  {
    LegIds(p);
    hide Ledger, OneLook, Followed, Exclusive;
    assert Guarded(s, StopId(p)) && Guarded(s, TargetId(p));
    hide Protective, StopId, TargetId;
  }

  lemma OpenIsShelved(s: State, id: OrderId)
    requires Inv(s, {}) && Cancellable(s, id)
    ensures
      var inst := s.orders[id].terms.instrument;
      inst in s.books && id in s.books[inst] && inst in s.bookOrder
  {
    OpenOrdersAreInTheirBook(s, id);
    assert Shelves(s);
  }

  lemma OwnBookStopsOut(cfg: Config, s: State, inst: InstrumentId, snap: Snapshot, p: OrderId)
    requires Inv(s, {}) && Sound(cfg, s, true) && NeverShort(cfg) && Poised(s, p) && WorkBook(cfg, s, inst, snap).Ok?
    requires s.orders[StopId(p)].terms.instrument == inst && inst in cfg.instruments
    requires Absorbs(cfg, s.orders[StopId(p)], cfg.instruments[inst], snap)
    ensures StoppedOut(WorkBook(cfg, s, inst, snap).value, p)
  {
    hide Inv, Sound, NeverShort, Absorbs, WorkAll, MatchingOrder, Prune, StopId, TargetId;
    OpenIsShelved(s, StopId(p));
    BookReady(s, inst);
    LiveLegs(cfg, s, p);
    var k := StopsComeFirst(s, s.books[inst], StopId(p), TargetId(p));
    StopBeforeTarget(cfg, s, MatchingOrder(s, s.books[inst]), k, inst, cfg.instruments[inst], snap, p);
  }

  lemma OtherBookSparesLegs(cfg: Config, s: State, inst: InstrumentId, snap: Snapshot, p: OrderId)
    requires Inv(s, {}) && Sound(cfg, s, true) && NeverShort(cfg) && Poised(s, p) && WorkBook(cfg, s, inst, snap).Ok?
    requires s.orders[StopId(p)].terms.instrument != inst
    ensures
      var t := WorkBook(cfg, s, inst, snap).value;
      Spared(s, t, StopId(p)) && Spared(s, t, TargetId(p))
  {
    hide Inv, Sound, NeverShort, WorkAll, MatchingOrder, Prune, StopId, TargetId;
    if inst in s.books {
      BookReady(s, inst);
      LiveLegs(cfg, s, p);
      OthersSpareLegs(cfg, s, MatchingOrder(s, s.books[inst]), inst, cfg.instruments[inst], snap, p);
    }
  }

  lemma BooksStopOut(cfg: Config, s: State, keys: seq<InstrumentId>, snap: Snapshot, p: OrderId)
    requires Inv(s, {}) && Sound(cfg, s, true) && NeverShort(cfg) && Poised(s, p) && WorkBooks(cfg, s, keys, snap).Ok?
    requires s.orders[StopId(p)].terms.instrument in keys && s.orders[StopId(p)].terms.instrument in cfg.instruments
    requires Absorbs(cfg, s.orders[StopId(p)], cfg.instruments[s.orders[StopId(p)].terms.instrument], snap)
    ensures StoppedOut(WorkBooks(cfg, s, keys, snap).value, p)
    decreases |keys|
  {
    hide Inv, Sound, NeverShort, Absorbs, WorkBook, StopId, TargetId;
    var s1 := WorkBook(cfg, s, keys[0], snap).value;
    WorkBookKeeps(cfg, s, keys[0], snap);
    WorkBookSound(cfg, s, keys[0], snap, true);
    if keys[0] == s.orders[StopId(p)].terms.instrument {
      OwnBookStopsOut(cfg, s, keys[0], snap, p);
      WorkBooksKeeps(cfg, s1, keys[1..], snap);
      hide Since, StoppedOut;
      StoppedOutStays(s1, WorkBooks(cfg, s1, keys[1..], snap).value, p);
    } else {
      OtherBookSparesLegs(cfg, s, keys[0], snap, p);
      BooksStopOut(cfg, s1, keys[1..], snap, p);
    }
  }

  /** The bar is in time for a live stop, its range crosses the stop, and it takes some of it where that trades. */
  ghost predicate TakesStop(cfg: Config, o: OrderState, i: Instrument, snap: Snapshot) {
    var bar := MarketBar(snap, o.terms.instrument, i);
    && bar.Some? && InTime(cfg.execution, o.terms, snap.timestamp) && CrossesStop(o, bar.value)
    && forall price | TradesAt(cfg.execution, o, bar.value, price) ::
         Fillable(cfg, o, i, price, bar.value) > QUANTITY_TOLERANCE
  }

  /** Which is to say that the bar absorbs it. */
  lemma TakenIsAbsorbed(cfg: Config, s: State, p: OrderId, i: Instrument, snap: Snapshot)
    requires Protective(s) && Poised(s, p) && TakesStop(cfg, s.orders[StopId(p)], i, snap)
    ensures Absorbs(cfg, s.orders[StopId(p)], i, snap)
  {
    LegIds(p);
    assert Guarded(s, StopId(p));
    var o := s.orders[StopId(p)];
    assert o.terms.kind.Stop? && o.terms.tif.Gtc? && o.terms.expiresAt.None?;
    hide Protective, Guarded, StopId, TargetId, MarketBar, CrossesStop, TradesAt, CrossesLimit;
    var a, bar := Activated(o, snap.timestamp), MarketBar(snap, o.terms.instrument, i);
    ReachedIff(cfg, o, i, snap);
    FillsIff(cfg.execution, a, bar.value, snap.sessionClose);
    SameTrades(cfg.execution, o, a, bar.value, snap.sessionClose);
    hide Trades, TryFill;
    assert a.Remaining() == o.Remaining();
    hide RoundQuantity;
  }

  /** On a bar in time whose range crosses the stop of a live pair, and which takes some of it, the stop fills and the
      target is cancelled — also when the bar crosses the target. */
  lemma BothLegsReachedStopsOut(cfg: Config, commands: seq<Command>, snap: Snapshot, p: OrderId)
    requires NeverShort(cfg) && Run(cfg, commands).Ok? && (forall c | c in commands :: Tidy(c))
    requires Poised(Run(cfg, commands).value, p) && ProcessBar(cfg, Run(cfg, commands).value, snap).Ok?
    requires
      var o := Run(cfg, commands).value.orders[StopId(p)];
      o.terms.instrument in cfg.instruments && TakesStop(cfg, o, cfg.instruments[o.terms.instrument], snap)
    ensures StoppedOut(ProcessBar(cfg, Run(cfg, commands).value, snap).value, p)
  {
    RunSound(cfg, commands, true);
    RunInvariant(cfg, commands);
    var s := Run(cfg, commands).value;
    var s1 := s.(out := NO_RESULT.(rejections := s.pending), pending := []);
    OpenIsShelved(s, StopId(p));
    TakenIsAbsorbed(cfg, s, p, cfg.instruments[s.orders[StopId(p)].terms.instrument], snap);
    hide Run, Inv, Sound, NeverShort, Absorbs, WorkBooks, Tidy, StopId, TargetId, StoppedOut;
    ShapeKeeps(s, s1, {});
    RecordsSound(cfg, s, s1, true);
    BooksStopOut(cfg, s1, s.bookOrder, snap, p);
  }

  /** Where liquidity is not capped it is enough that the bar's range crosses the stop. */
  lemma UncappedStopsOut(cfg: Config, commands: seq<Command>, snap: Snapshot, p: OrderId)
    requires Unlimited(cfg) && Run(cfg, commands).Ok? && (forall c | c in commands :: Tidy(c))
    requires Poised(Run(cfg, commands).value, p) && ProcessBar(cfg, Run(cfg, commands).value, snap).Ok?
    requires
      var o := Run(cfg, commands).value.orders[StopId(p)];
      && o.terms.instrument in cfg.instruments && InTime(cfg.execution, o.terms, snap.timestamp)
      && var bar := MarketBar(snap, o.terms.instrument, cfg.instruments[o.terms.instrument]);
         bar.Some? && CrossesStop(o, bar.value)
    ensures StoppedOut(ProcessBar(cfg, Run(cfg, commands).value, snap).value, p)
  {
    RunSound(cfg, commands, true);
    RunInvariant(cfg, commands);
    var s := Run(cfg, commands).value;
    InvPaired(s, {});
    hide Run, Inv, Paired, Bracketed, OneLook, Protective, Followed, Exclusive, MarketBar, CrossesStop, ProcessBar;
    var o := s.orders[StopId(p)];
    UncappedTakes(cfg, s, StopId(p), cfg.instruments[o.terms.instrument], snap);
    BothLegsReachedStopsOut(cfg, commands, snap, p);
  }
}
