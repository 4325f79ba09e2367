/** Runs in which the levels of a bracket come to nothing: one that leaves a stopped-out entry printing on without
    protection, and one that ends in an exception. */
module BrokerVanish {
  import opened Types
  import opened Money
  import opened Instruments
  import opened Orders
  import opened Execution
  import opened BrokerSpec
  import opened BrokerIndex
  import opened BrokerBrackets
  import opened BrokerOco
  import opened BrokerTheorems
  import opened BrokerRaises
  import opened BrokerExamples
  import Pricing

  // ---- ten lots of one bracketed entry, in the book and nothing else -------------------------------------------

  ghost predicate Alone(s: State, terms: OrderTerms, spec: BracketSpec) {
    && s.orders == map[ENTRY := Pristine(terms, 10.0, None).(status := Accepted)]
    && s.books == map[SHARE := [ENTRY]] && s.bookOrder == [SHARE]
    && s.brackets == map[ENTRY := spec] && s.oco == map[]
  }

  /** An entry at the market, now or at the close. */
  function EntryTerms(kind: OrderType, spec: BracketSpec): OrderTerms {
    ENTRY_TERMS.(kind := kind, bracket := Some(spec))
  }

  lemma AloneWorks(kind: OrderType, spec: BracketSpec) returns (s: State)
    requires kind.AtMarket()
    ensures
      var terms := EntryTerms(kind, spec);
      Run(Setup(true, 1.0), [SubmitOrder(terms, 10.0, None)]) == Ok(s) && Alone(s, terms, spec)
  {
    var cfg, terms := Setup(true, 1.0), EntryTerms(kind, spec);
    var o := Pristine(terms, 10.0, None);
    assert RoundQuantity(10.0, 1.0) > 0.0;
    assert IntakeRefusal(cfg, o) == None;
    hide RoundQuantity, IntakeRefusal;
    assert Run(cfg, []) == Ok(Init);
    RunAppend(cfg, [], SubmitOrder(terms, 10.0, None));
    assert [] + [SubmitOrder(terms, 10.0, None)] == [SubmitOrder(terms, 10.0, None)];
    s := Admit(Init, o);
    assert s.orders == map[ENTRY := o.(status := Accepted)] && s.books[SHARE] == [ENTRY];
    assert s.books == map[SHARE := [ENTRY]] && s.bookOrder == [SHARE] && s.brackets == map[ENTRY := spec];
    hide Run;
  }

  // ---- a level under half a tick -------------------------------------------------------------------------------

  const LOW_SPEC := BracketSpec(Some(0.4), None, None, None, None)
  const LOW_TERMS := EntryTerms(Market, LOW_SPEC)
  const LOW_COMMAND := SubmitOrder(LOW_TERMS, 10.0, None)
  const LOW_BAR := At(1, 100.0, 100.0)

  lemma LowLookRaises(s: State)
    requires Alone(s, LOW_TERMS, LOW_SPEC)
    ensures WorkOrder(Setup(true, 1.0), s, ENTRY, Share(1.0), LOW_BAR) == Raised(InvalidOrder)
  {
    var cfg := Setup(true, 1.0);
    var traded := PeriodVolume(cfg, s, 1);
    var v := Judge(cfg, s.orders[ENTRY], Share(1.0), LOW_BAR, s.nextFill + 1, traded);
    var bar := MarketBar(LOW_BAR, SHARE, Share(1.0));
    assert LOW_BAR.timestamp == 1;
    FlatPrint(true, 1.0, s.orders[ENTRY], 1, 100.0, 100.0, s.nextFill + 1, traded, 10.0);
    hide Judge, PeriodVolume, MarketBar, Setup, WorkOrder, FinishPrint, Ratcheted, ActivateBrackets, StopId, TargetId;
    WorkIsEnact(cfg, s, ENTRY, SHARE, Share(1.0), LOW_BAR);
    var s1 := Record(cfg, s, ENTRY, v.order.Booked(v.fill), v.fill);
    LegIds(ENTRY);
    assert s1.orders[ENTRY].terms == LOW_TERMS && s1.brackets == map[ENTRY := LOW_SPEC];
    assert STOP !in s1.orders && TARGET !in s1.orders;
    InvalidLegIff(cfg, s1, ENTRY, v.fill, Share(1.0));
  }

  /** A protective level nearer to zero than to the first tick ends the bar that prints its entry. */
  lemma LowLevelRaises()
    ensures Run(Setup(true, 1.0), [LOW_COMMAND]).Ok?
    ensures Run(Setup(true, 1.0), [LOW_COMMAND, Command.Bar(LOW_BAR)]) == Raised(InvalidOrder)
  {
    var cfg := Setup(true, 1.0);
    var s := AloneWorks(Market, LOW_SPEC);
    RunAppend(cfg, [LOW_COMMAND], Command.Bar(LOW_BAR));
    assert [LOW_COMMAND] + [Command.Bar(LOW_BAR)] == [LOW_COMMAND, Command.Bar(LOW_BAR)];
    var s1 := s.(out := NO_RESULT.(rejections := s.pending), pending := []);
    assert cfg.instruments[SHARE] == Share(1.0) && Alone(s1, LOW_TERMS, LOW_SPEC) && s.books[SHARE] == [ENTRY];
    hide Run, ProcessBar, Setup, At, WorkOrder, WorkAll, MatchingOrder;
    OneBook(cfg, s, LOW_BAR);
    OneOrder(cfg, s1, ENTRY, LOW_BAR, Share(1.0));
    LowLookRaises(s1);
  }

  // ---- an average below zero -----------------------------------------------------------------------------------

  const DIP_SPEC := BracketSpec(None, Some(0.1), None, None, None)
  const DIP_TERMS := EntryTerms(MarketOnClose, DIP_SPEC)

  const PART_BAR := Snapshot(1, true, map[SHARE := Flat(100.0, 4.0)], map[])
  const STOP_BAR := At(2, 85.0, 4.0)
  const DEEP := RawBar(-905.0, -900.0, -910.0, -905.0, 100.0, None)
  const REST_BAR := Snapshot(3, true, map[SHARE := DEEP], map[])

  /** The entry as it stands with four of its ten bought at a hundred. */
  ghost predicate PartBought(s: State) {
    && ENTRY in s.orders
    && s.orders[ENTRY] == Pristine(DIP_TERMS, 10.0, None).(
         status := PartiallyFilled, activatedAt := Some(1), filled := 4.0, avgPrice := 100.0,
         commissionPaid := s.orders[ENTRY].commissionPaid)
    && s.bookOrder == [SHARE] && s.brackets == map[ENTRY := DIP_SPEC] && s.oco == map[]
  }

  /** Four bought, and a stop for four. */
  ghost predicate Shielded(s: State) {
    && PartBought(s) && s.orders.Keys == {ENTRY, STOP} && s.orders[STOP] == StopLeg(1, 4.0).(status := Accepted)
    && s.books == map[SHARE := [ENTRY, STOP]]
  }

  /** Four bought, and four sold by the stop. */
  ghost predicate StoppedOut(s: State) {
    && PartBought(s) && s.orders.Keys == {ENTRY, STOP} && s.orders[STOP].status.Filled? && s.orders[STOP].filled == 4.0
    && s.books == map[SHARE := [ENTRY]]
  }

  lemma PartVerdict(s: State, traded: real)
    requires Alone(s, DIP_TERMS, DIP_SPEC)
    ensures Gets(Judge(Setup(true, 1.0), s.orders[ENTRY], Share(1.0), PART_BAR, s.nextFill + 1, traded),
                 s.orders[ENTRY], 1, 100.0, 4.0)
  {
    var o, bar := s.orders[ENTRY], Flat(100.0, 4.0);
    assert RoundQuantity(4.0, 1.0) == 4.0;
    assert PART_BAR.bars == map[SHARE := bar] && PART_BAR.timestamp == 1 && PART_BAR.sessionClose;
    FlatSettles(100.0, o.terms, 4.0);
    hide Gets, Judge, RoundQuantity, Pricing.SettlePrice;
    BarPrint(true, 1.0, o, PART_BAR, bar, 100.0, s.nextFill + 1, traded, 100.0, 4.0);
  }

  lemma DipLegs(parent: OrderState, fill: Fill)
    requires parent.terms == DIP_TERMS && parent.avgPrice == 100.0
    ensures Legs(parent, DIP_SPEC, fill, Share(1.0)) == Ok([StopLeg(fill.timestamp, parent.filled)])
  {
    assert RoundPrice(90.0, 1.0) == 90.0;
    var at := fill.timestamp;
    hide RoundPrice, StopId, TargetId;
    assert Leg(parent, STOP, Stop, None, Some(RoundPrice(90.0, 1.0)), None, at) == Ok(StopLeg(at, parent.filled));
    assert StopLevel(DIP_SPEC, 100.0, true) == Some(90.0) && TargetLevel(DIP_SPEC, 100.0, true) == None;
    hide Leg, StopLevel, TargetLevel;
    assert [StopLeg(at, parent.filled)] + [] == [StopLeg(at, parent.filled)];
  }

  lemma StopJoins(cfg: Config, s: State, fill: Fill)
    requires cfg.instruments == map[SHARE := Share(1.0)] && PartBought(s) && STOP !in s.orders && TARGET !in s.orders
    ensures ActivateBrackets(cfg, s, ENTRY, fill, Share(1.0)) == Ok(Admit(s, StopLeg(fill.timestamp, 4.0)))
  {
    LegIds(ENTRY);
    var leg := StopLeg(fill.timestamp, 4.0);
    DipLegs(s.orders[ENTRY], fill);
    assert RoundQuantity(4.0, 1.0) == 4.0;
    assert IntakeRefusal(cfg, leg) == None;
    hide Legs, RoundQuantity, StopId, TargetId, IntakeRefusal, Reserved, ParentId;
    assert Submit(cfg, s, leg) == Ok(Admit(s, leg));
    hide Submit, Admit;
    var legs := [leg];
    assert legs[1..] == [];
    assert SubmitLegs(cfg, Admit(s, leg), []) == Ok(Admit(s, leg));
    assert SubmitLegs(cfg, s, legs) == Ok(Admit(s, leg));
  }

  lemma PartIsBooked(cfg: Config, s: State, v: Verdict)
    requires Alone(s, DIP_TERMS, DIP_SPEC) && Gets(v, s.orders[ENTRY], 1, 100.0, 4.0)
    ensures
      var t := Record(cfg, s, ENTRY, v.order.Booked(v.fill), v.fill);
      PartBought(t) && t.orders.Keys == {ENTRY} && t.books == map[SHARE := [ENTRY]]
  {
  }

  /** An entry that is done for now: what follows its print changes nothing. */
  lemma RestsAfterPrint(cfg: Config, s: State, id: OrderId, bar: Option<Bar>)
    requires id in s.orders && id !in s.oco && s.orders[id].terms.trailing.None? && s.orders[id].terms.tif.Gtc?
    requires s.orders[id].status.Filled? || cfg.carryRemainder
    ensures FinishPrint(cfg, s, id) == s && Put(s, id, Ratcheted(s.orders[id], bar)) == s
  {
    assert s.orders[id := s.orders[id]] == s.orders;
  }

  lemma StopStands(s: State)
    requires PartBought(s) && s.orders.Keys == {ENTRY} && s.books == map[SHARE := [ENTRY]]
    ensures
      var t := Admit(s, StopLeg(1, 4.0));
      Shielded(t) && t.orders[ENTRY] == s.orders[ENTRY] && t.oco == map[]
  {
    LegIds(ENTRY);
    hide StopId, TargetId, Reserved, ParentId;
    var t := Admit(s, StopLeg(1, 4.0));
    assert t.books[SHARE] == [ENTRY, STOP];
    assert t.books == map[SHARE := [ENTRY, STOP]];
  }

  lemma PartPrints(s: State) returns (t: State)
    requires Alone(s, DIP_TERMS, DIP_SPEC)
    ensures WorkOrder(Setup(true, 1.0), s, ENTRY, Share(1.0), PART_BAR) == Ok(t)
    ensures Shielded(t)
  {
    var cfg := Setup(true, 1.0);
    var traded := PeriodVolume(cfg, s, 1);
    var v := Judge(cfg, s.orders[ENTRY], Share(1.0), PART_BAR, s.nextFill + 1, traded);
    var bar := MarketBar(PART_BAR, SHARE, Share(1.0));
    assert PART_BAR.timestamp == 1 && cfg.carryRemainder;
    hide Judge, PeriodVolume, MarketBar, WorkOrder, Enact, FinishPrint, Ratcheted, ActivateBrackets, StopId, TargetId;
    PartVerdict(s, traded);
    WorkIsEnact(cfg, s, ENTRY, SHARE, Share(1.0), PART_BAR);
    PartIsBooked(cfg, s, v);
    var s1 := Record(cfg, s, ENTRY, v.order.Booked(v.fill), v.fill);
    LegIds(ENTRY);
    StopJoins(cfg, s1, v.fill);
    hide OrderState.Booked, Record, Setup, Put, Admit, StopLeg, Shielded;
    t := Admit(s1, StopLeg(1, 4.0));
    StopStands(s1);
    RestsAfterPrint(cfg, t, ENTRY, bar);
    EnactPrint(cfg, s, ENTRY, v, Share(1.0), bar, t);
  }

  /** Pruning keeps the orders of the one book that are open, and the brackets of no others. */
  lemma PrunedTo(s: State, left: seq<OrderId>)
    requires s.bookOrder == [SHARE] && SHARE in s.books && s.books == map[SHARE := s.books[SHARE]]
    requires ENTRY in s.Open() && s.brackets == map[ENTRY := DIP_SPEC] && Keep(s.books[SHARE], s.Open()) == left != []
    ensures Prune(s, SHARE) == s.(books := map[SHARE := left])
  {
    hide Keep;
    assert s.brackets - ((set id | id in s.books[SHARE]) - s.Open()) == s.brackets;
  }

  lemma PartBar(s: State) returns (t: State)
    requires Alone(s, DIP_TERMS, DIP_SPEC)
    ensures ProcessBar(Setup(true, 1.0), s, PART_BAR) == Ok(t) && Shielded(t)
  {
    var cfg := Setup(true, 1.0);
    var s1 := s.(out := NO_RESULT.(rejections := s.pending), pending := []);
    assert cfg.instruments[SHARE] == Share(1.0) && Alone(s1, DIP_TERMS, DIP_SPEC) && s.books[SHARE] == [ENTRY];
    LegIds(ENTRY);
    hide Setup, WorkOrder, WorkAll, MatchingOrder, ProcessBar, Prune, Keep, StopId, TargetId, Reserved, ParentId;
    OneBook(cfg, s, PART_BAR);
    OneOrder(cfg, s1, ENTRY, PART_BAR, Share(1.0));
    var s2 := PartPrints(s1);
    KeepTwo(ENTRY, STOP, s2.Open());
    PrunedTo(s2, [ENTRY, STOP]);
    t := Prune(s2, SHARE);
    assert s2.books == t.books;
  }

  // ---- the stop takes the four out, and the entry waits for the close ------------------------------------------

  lemma StopVerdictFour(s: State, traded: real)
    requires Shielded(s)
    ensures Gets(Judge(Setup(true, 1.0), s.orders[STOP], Share(1.0), STOP_BAR, s.nextFill + 1, traded),
                 s.orders[STOP], 2, 85.0, 4.0)
  {
    FlatPrint(true, 1.0, s.orders[STOP], 2, 85.0, 4.0, s.nextFill + 1, traded, 4.0);
    hide Gets, Judge;
  }

  /** As `StoppedOut`, before the stop leaves the book. */
  ghost predicate StopFilled(s: State) {
    && PartBought(s) && s.orders.Keys == {ENTRY, STOP} && s.orders[STOP].status.Filled? && s.orders[STOP].filled == 4.0
    && s.orders[STOP].terms == StopLeg(1, 4.0).terms && s.books == map[SHARE := [ENTRY, STOP]]
  }

  lemma StopFourIsBooked(cfg: Config, s: State, v: Verdict)
    requires Shielded(s) && Gets(v, s.orders[STOP], 2, 85.0, 4.0)
    ensures StopFilled(Record(cfg, s, STOP, v.order.Booked(v.fill), v.fill))
  {
    LegIds(ENTRY);
    hide StopId, TargetId, Reserved, ParentId;
  }

  lemma StopPrintsFour(s: State) returns (t: State)
    requires Shielded(s)
    ensures WorkOrder(Setup(true, 1.0), s, STOP, Share(1.0), STOP_BAR) == Ok(t) && StopFilled(t)
  {
    var cfg := Setup(true, 1.0);
    var traded := PeriodVolume(cfg, s, 2);
    var v := Judge(cfg, s.orders[STOP], Share(1.0), STOP_BAR, s.nextFill + 1, traded);
    var bar := MarketBar(STOP_BAR, SHARE, Share(1.0));
    assert STOP_BAR.timestamp == 2;
    hide Judge, PeriodVolume, MarketBar, Setup, At, WorkOrder, Enact, FinishPrint, Ratcheted, ActivateBrackets, Put,
         StopId, TargetId;
    LegIds(ENTRY);
    StopVerdictFour(s, traded);
    WorkIsEnact(cfg, s, STOP, SHARE, Share(1.0), STOP_BAR);
    StopFourIsBooked(cfg, s, v);
    t := Record(cfg, s, STOP, v.order.Booked(v.fill), v.fill);
    hide OrderState.Booked, Record;
    NoBracket(cfg, t, STOP, v.fill, Share(1.0));
    RestsAfterPrint(cfg, t, STOP, bar);
    EnactPrint(cfg, s, STOP, v, Share(1.0), bar, t);
  }

  /** Away from the close an at-the-close order is looked at and left. */
  lemma EntryWaits(s: State)
    requires StopFilled(s)
    ensures WorkOrder(Setup(true, 1.0), s, ENTRY, Share(1.0), STOP_BAR) == Ok(s)
  {
    assert s.orders[ENTRY := s.orders[ENTRY]] == s.orders;
    hide Record, ActivateBrackets, FinishPrint, Fillable, BuildFill;
  }

  /** An entry listed ahead of its stop is worked after it. */
  lemma StopThenEntry(cfg: Config, s: State, snap: Snapshot, i: Instrument, t: State)
    requires ENTRY in s.orders && STOP in s.orders && s.orders[STOP].terms.kind.Stop?
    requires !s.orders[ENTRY].terms.kind.NeedsStop() && s.orders[STOP].IsOpen()
    requires WorkOrder(cfg, s, STOP, i, snap) == Ok(t) && Cancellable(t, ENTRY)
    ensures WorkAll(cfg, s, MatchingOrder(s, [ENTRY, STOP]), i, snap) == WorkOrder(cfg, t, ENTRY, i, snap)
  {
    LegIds(ENTRY);
    hide WorkOrder, StopId, TargetId, Reserved, ParentId;
    var book := [ENTRY, STOP];
    var all := set id | id in book;
    assert STOP in all && ENTRY in all;
    KeepTwo(ENTRY, STOP, s.Stops());
    KeepTwo(ENTRY, STOP, all - s.Stops());
    hide Keep;
    assert MatchingOrder(s, book) == [STOP] + [ENTRY] == [STOP, ENTRY];
    hide MatchingOrder;
    var order := [STOP, ENTRY];
    assert order[1..] == [ENTRY] && [ENTRY][1..] == [];
    assert WorkAll(cfg, t, [ENTRY], i, snap) == WorkOrder(cfg, t, ENTRY, i, snap) by {
      assert forall u: State :: WorkAll(cfg, u, [], i, snap) == Ok(u);
    }
  }

  lemma StopBar(s: State) returns (t: State)
    requires Shielded(s)
    ensures ProcessBar(Setup(true, 1.0), s, STOP_BAR) == Ok(t) && StoppedOut(t)
  {
    var cfg := Setup(true, 1.0);
    var s1 := s.(out := NO_RESULT.(rejections := s.pending), pending := []);
    assert cfg.instruments[SHARE] == Share(1.0) && Shielded(s1) && s.books[SHARE] == [ENTRY, STOP];
    LegIds(ENTRY);
    hide Setup, At, WorkOrder, WorkAll, MatchingOrder, ProcessBar, Prune, Keep, StopId, TargetId, Reserved, ParentId;
    OneBook(cfg, s, STOP_BAR);
    var s2 := StopPrintsFour(s1);
    StopThenEntry(cfg, s1, STOP_BAR, Share(1.0), s2);
    EntryWaits(s2);
    KeepTwo(ENTRY, STOP, s2.Open());
    PrunedTo(s2, [ENTRY]);
    t := Prune(s2, SHARE);
  }

  // ---- the rest of the entry prints below zero -----------------------------------------------------------------

  /** A bar below zero settles a buy at its high. */
  lemma DeepSettles()
    ensures Pricing.SettlePrice(-905.0, DIP_TERMS, 1.0, DEEP, None) == -900.0
  {
    WholeTick(-905.0, Up);
    WholeTick(-900.0, Down);
    hide RoundToTick;
  }

  lemma RestVerdictSix(s: State, traded: real)
    requires StoppedOut(s)
    ensures Gets(Judge(Setup(true, 1.0), s.orders[ENTRY], Share(1.0), REST_BAR, s.nextFill + 1, traded),
                 s.orders[ENTRY], 3, -900.0, 6.0)
  {
    var o := s.orders[ENTRY];
    assert REST_BAR.bars == map[SHARE := DEEP] && REST_BAR.timestamp == 3 && REST_BAR.sessionClose;
    DeepSettles();
    hide Gets, Judge, RoundQuantity, Pricing.SettlePrice;
    BarPrint(true, 1.0, o, REST_BAR, DEEP, -905.0, s.nextFill + 1, traded, -900.0, 6.0);
  }

  /** All ten bought, four sold, and no order left. */
  ghost predicate Bare(s: State) {
    && FilledBy(s, ENTRY) == 10.0 && FilledBy(s, STOP) == 4.0 && FilledBy(s, TARGET) == 0.0
    && s.Open() == {}
  }

  lemma RestIsBookedSix(cfg: Config, s: State, v: Verdict)
    requires StoppedOut(s) && Gets(v, s.orders[ENTRY], 3, -900.0, 6.0)
    ensures
      var t := Record(cfg, s, ENTRY, v.order.Booked(v.fill), v.fill);
      && Bare(t) && t.orders.Keys == {ENTRY, STOP} && t.orders[STOP] == s.orders[STOP] && t.oco == map[]
      && t.orders[ENTRY].avgPrice == -500.0 && t.orders[ENTRY].terms == DIP_TERMS && t.orders[ENTRY].status.Filled?
      && t.brackets == map[ENTRY := DIP_SPEC]
  {
    LegIds(ENTRY);
    hide StopId, TargetId, Reserved, ParentId;
  }

  lemma RestPrintsSix(s: State) returns (t: State)
    requires StoppedOut(s)
    ensures WorkOrder(Setup(true, 1.0), s, ENTRY, Share(1.0), REST_BAR) == Ok(t) && Bare(t)
  {
    var cfg := Setup(true, 1.0);
    var traded := PeriodVolume(cfg, s, 3);
    var v := Judge(cfg, s.orders[ENTRY], Share(1.0), REST_BAR, s.nextFill + 1, traded);
    var bar := MarketBar(REST_BAR, SHARE, Share(1.0));
    assert REST_BAR.timestamp == 3;
    hide Judge, PeriodVolume, MarketBar, Setup, WorkOrder, Enact, FinishPrint, Ratcheted, ActivateBrackets, Put,
         StopId, TargetId, Bare;
    LegIds(ENTRY);
    RestVerdictSix(s, traded);
    WorkIsEnact(cfg, s, ENTRY, SHARE, Share(1.0), REST_BAR);
    RestIsBookedSix(cfg, s, v);
    t := Record(cfg, s, ENTRY, v.order.Booked(v.fill), v.fill);
    hide OrderState.Booked, Record;
    LevelsVanish(cfg, t, ENTRY, v.fill, Share(1.0));
    RestsAfterPrint(cfg, t, ENTRY, bar);
    EnactPrint(cfg, s, ENTRY, v, Share(1.0), bar, t);
  }

  lemma RestBar(s: State) returns (t: State)
    requires StoppedOut(s)
    ensures ProcessBar(Setup(true, 1.0), s, REST_BAR) == Ok(t) && Bare(t)
  {
    var cfg := Setup(true, 1.0);
    var s1 := s.(out := NO_RESULT.(rejections := s.pending), pending := []);
    assert cfg.instruments[SHARE] == Share(1.0) && StoppedOut(s1) && s.books[SHARE] == [ENTRY];
    hide Setup, WorkOrder, WorkAll, MatchingOrder, ProcessBar, Keep, StopId, TargetId;
    OneBook(cfg, s, REST_BAR);
    OneOrder(cfg, s1, ENTRY, REST_BAR, Share(1.0));
    var s2 := RestPrintsSix(s1);
    t := Prune(s2, SHARE);
  }

  const DIPPING := [SubmitOrder(DIP_TERMS, 10.0, None), Command.Bar(PART_BAR), Command.Bar(STOP_BAR)]

  lemma DippingRun() returns (s: State)
    ensures Run(Setup(true, 1.0), DIPPING) == Ok(s) && StoppedOut(s)
  {
    var cfg, one := Setup(true, 1.0), [SubmitOrder(DIP_TERMS, 10.0, None)];
    hide Run, ProcessBar, Setup, Alone, Shielded, StoppedOut, StopId, TargetId;
    var s1 := AloneWorks(MarketOnClose, DIP_SPEC);
    var s2 := PartBar(s1);
    s := StopBar(s2);
    RunAppend(cfg, one, Command.Bar(PART_BAR));
    RunAppend(cfg, one + [Command.Bar(PART_BAR)], Command.Bar(STOP_BAR));
    assert one + [Command.Bar(PART_BAR)] + [Command.Bar(STOP_BAR)] == DIPPING;
  }

  /** A market-on-close entry for ten with a 10% stop: four print at 100 and the stop at 90 takes them out; the other
      six print below zero, where the stop's level vanishes, unrefused and with nothing left to protect them. */
  lemma StoppedOutPrintsOn()
    ensures
      var r := Run(Setup(true, 1.0), DIPPING + [Command.Bar(REST_BAR)]);
      && r.Ok? && FilledBy(r.value, ENTRY) == 10.0 && FilledBy(r.value, StopId(ENTRY)) == 4.0
      && FilledBy(r.value, TargetId(ENTRY)) == 0.0 && r.value.Open() == {}
  {
    hide Run, ProcessBar, Setup, StoppedOut, StopId, TargetId, FilledBy;
    var s := DippingRun();
    var t := RestBar(s);
    RunAppend(Setup(true, 1.0), DIPPING, Command.Bar(REST_BAR));
  }
}
