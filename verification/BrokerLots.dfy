/** Round lots: while callers order in whole lots, every size and every fill is a whole number of lots. */
module BrokerLots {
  import opened Types
  import opened Money
  import opened Instruments
  import opened Orders
  import opened Execution
  import opened BrokerSpec
  import opened BrokerIndex
  import opened BrokerLedger
  import opened BrokerBrackets
  import opened BrokerOco
  import opened BrokerRuns

  /** Whole lots of an instrument, if it has contract terms and its lots are larger than one unit. */
  ghost predicate RoundSize(cfg: Config, inst: InstrumentId, size: real) {
    inst in cfg.instruments ==> cfg.instruments[inst].lot <= 1.0 || OnGrid(size, cfg.instruments[inst].lot)
  }

  ghost predicate InLots(cfg: Config, o: OrderState) {
    RoundSize(cfg, o.terms.instrument, o.quantity) && RoundSize(cfg, o.terms.instrument, o.filled)
  }

  ghost predicate Gridded(cfg: Config, s: State) {
    forall id | id in s.orders :: InLots(cfg, s.orders[id])
  }

  /** A caller keeps off the ids of bracket legs and orders in whole lots. */
  ghost predicate RoundOrder(cfg: Config, c: Command) {
    Tidy(c) && (c.SubmitOrder? ==> RoundSize(cfg, c.terms.instrument, c.quantity))
  }

  // ---- sizes on a grid -----------------------------------------------------------------------------------------

  lemma NothingIsRound(cfg: Config, inst: InstrumentId)
    ensures RoundSize(cfg, inst, 0.0)
  {
    if inst in cfg.instruments {
      assert Multiple(0, cfg.instruments[inst].lot) == 0.0;
    }
  }

  lemma RoundSum(cfg: Config, inst: InstrumentId, a: real, b: real)
    requires RoundSize(cfg, inst, a) && RoundSize(cfg, inst, b)
    ensures RoundSize(cfg, inst, a + b) && RoundSize(cfg, inst, a - b)
  {
    if inst in cfg.instruments && cfg.instruments[inst].lot > 1.0 {
      var lot := cfg.instruments[inst].lot;
      var j: int :| a == Multiple(j, lot);
      var k: int :| b == Multiple(k, lot);
      assert Multiple(j + k, lot) == a + b && Multiple(j - k, lot) == a - b;
    }
  }

  lemma RoundRemaining(cfg: Config, o: OrderState)
    requires InLots(cfg, o)
    ensures RoundSize(cfg, o.terms.instrument, o.Remaining())
  {
    hide RoundSize;
    NothingIsRound(cfg, o.terms.instrument);
    RoundSum(cfg, o.terms.instrument, o.quantity, o.filled);
  }

  /** What a bar absorbs of an order in whole lots is the rest of it, nothing, or a quantity snapped to lots. */
  lemma FillableIsRound(cfg: Config, o: OrderState, reference: real, bar: Bar)
    requires InLots(cfg, o) && o.terms.instrument in cfg.instruments
    ensures RoundSize(cfg, o.terms.instrument, Fillable(cfg, o, cfg.instruments[o.terms.instrument], reference, bar))
  {
    var i := cfg.instruments[o.terms.instrument];
    var offered :=
      cfg.liquidity(LiquidityRequest(o.terms.instrument, o.terms.side, o.Remaining(), reference, bar));
    RoundRemaining(cfg, o);
    NothingIsRound(cfg, o.terms.instrument);
    var capped := Max(Min(o.Remaining(), offered), 0.0);
    assert RoundQuantity(capped, i.lot) == Multiple((capped / i.lot + TICK_EPSILON).Floor, i.lot);
    hide RoundQuantity;
  }

  lemma PrintIsRound(cfg: Config, o: OrderState, snap: Snapshot, seqNo: nat, volume: real)
    requires InLots(cfg, o) && o.terms.instrument in cfg.instruments
    requires Judge(cfg, o, cfg.instruments[o.terms.instrument], snap, seqNo, volume).Print?
    ensures
      var v := Judge(cfg, o, cfg.instruments[o.terms.instrument], snap, seqNo, volume);
      InLots(cfg, v.order.Booked(v.fill))
  {
    var i := cfg.instruments[o.terms.instrument];
    var a := Activated(o, snap.timestamp);
    var bar := MarketBar(snap, o.terms.instrument, i);
    var reference := TryFill(cfg.execution, a, bar, snap.sessionClose).value;
    FillableIsRound(cfg, a, reference, bar.value);
    hide Fillable, TryFill, MarketBar, ShouldExpire, RoundSize;
    RoundSum(cfg, o.terms.instrument, o.filled, Fillable(cfg, a, i, reference, bar.value));
  }

  // ---- what every step keeps -----------------------------------------------------------------------------------

  lemma CalmGridded(cfg: Config, s: State, t: State)
    requires Gridded(cfg, s) && Calm(s, t)
    ensures Gridded(cfg, t)
  {
    hide RoundSize;
  }

  lemma PutGridded(cfg: Config, s: State, t: State, id: OrderId)
    requires Gridded(cfg, s) && id in t.orders && t.orders == s.orders[id := t.orders[id]] && InLots(cfg, t.orders[id])
    ensures Gridded(cfg, t)
  {
    hide InLots;
  }

  /** Legs take their parent's instrument and what it has filled. */
  lemma ActivateGridded(cfg: Config, s: State, id: OrderId, fill: Fill, i: Instrument)
    requires Gridded(cfg, s) && id in s.orders && s.orders[id].terms.id == id
    requires forall x | x in {StopId(id), TargetId(id)} && x in s.orders ::
               s.orders[x].terms.instrument == s.orders[id].terms.instrument
    requires ActivateBrackets(cfg, s, id, fill, i).Ok?
    ensures Gridded(cfg, ActivateBrackets(cfg, s, id, fill, i).value)
  {
    var parent := s.orders[id];
    LegIds(id);
    hide StopId, TargetId, RoundSize, Reserved, ParentId;
    if id in s.brackets {
      if Untouched(s, StopId(id)) || Untouched(s, TargetId(id)) {
        ResizedGridded(cfg, s, StopId(id), id);
        ResizedGridded(cfg, Resized(s, StopId(id), parent.filled), TargetId(id), id);
      } else {
        var legs := Legs(parent, s.brackets[id], fill, i).value;
        LegsAreLegs(parent, s.brackets[id], fill, i);
        hide Legs;
        LegsGridded(cfg, s, legs, parent, fill.timestamp);
      }
    }
  }

  lemma ResizedGridded(cfg: Config, s: State, x: OrderId, p: OrderId)
    requires Gridded(cfg, s) && p in s.orders && x != p
    requires x in s.orders ==> s.orders[x].terms.instrument == s.orders[p].terms.instrument
    ensures Gridded(cfg, Resized(s, x, s.orders[p].filled))
  {
    hide RoundSize;
  }

  lemma LegsGridded(cfg: Config, s: State, legs: seq<OrderState>, parent: OrderState, at: Time)
    requires Gridded(cfg, s) && InLots(cfg, parent) && SubmitLegs(cfg, s, legs).Ok?
    requires forall k | 0 <= k < |legs| :: IsLegOf(legs[k], parent, at)
    ensures Gridded(cfg, SubmitLegs(cfg, s, legs).value)
  {
    hide SubmitLegs, StopId, TargetId, RoundSize;
    var t := SubmitLegs(cfg, s, legs).value;
    SubmitLegsStatus(cfg, s, legs);
    NothingIsRound(cfg, parent.terms.instrument);
    forall x | x in t.orders && x !in s.orders ensures InLots(cfg, t.orders[x]) {
      SubmitLegsNew(cfg, s, legs, x);
    }
  }

  /** The legs an order has are of its own instrument. */
  lemma LegsShareInstrument(s: State, id: OrderId)
    requires Protective(s) && id in s.orders
    ensures forall x | x in {StopId(id), TargetId(id)} && x in s.orders ::
              s.orders[x].terms.instrument == s.orders[id].terms.instrument
  {
    LegIds(id);
    assert Guarded(s, StopId(id)) && Guarded(s, TargetId(id));
    hide Protective, StopId, TargetId, Reserved, ParentId;
  }

  lemma PrintGridded(cfg: Config, s: State, id: OrderId, a: OrderState, fill: Fill, i: Instrument, bar: Option<Bar>)
    requires Gridded(cfg, s) && Protective(s) && id in s.orders && s.orders[id].terms.id == id
    requires a.terms == s.orders[id].terms && InLots(cfg, a.Booked(fill))
    requires a.Booked(fill).IsOpen() || a.Booked(fill).status.Filled?
    requires Enact(cfg, s, id, Print(a, fill), i, bar).Ok?
    ensures Gridded(cfg, Enact(cfg, s, id, Print(a, fill), i, bar).value)
  {
    LegIds(id);
    LegsShareInstrument(s, id);
    hide Gridded, InLots, Protective, Calm, StopId, TargetId, Reserved, ParentId, OrderState.Booked;
    var s1 := Record(cfg, s, id, a.Booked(fill), fill);
    PutGridded(cfg, s, s1, id);
    ActivateGridded(cfg, s1, id, fill, i);
    StatusStays(cfg, s1, id, fill, i);
    hide ActivateBrackets;
    var s2 := ActivateBrackets(cfg, s1, id, fill, i).value;
    FinishCalm(cfg, s2, id);
    var s3 := FinishPrint(cfg, s2, id);
    CalmGridded(cfg, s2, s3);
    hide FinishPrint;
    PutCalm(s3, id, Ratcheted(s3.orders[id], bar));
    CalmGridded(cfg, s3, Put(s3, id, Ratcheted(s3.orders[id], bar)));
  }

  /** A verdict without a print changes no size. */
  lemma WaitGridded(cfg: Config, s: State, id: OrderId, v: Verdict, i: Instrument, bar: Option<Bar>, at: Time)
    requires Cancellable(s, id) && !v.Print? && Lawful(cfg, s.orders[id], v, at) && Enact(cfg, s, id, v, i, bar).Ok?
    requires Gridded(cfg, s)
    ensures Gridded(cfg, Enact(cfg, s, id, v, i, bar).value)
  {
    hide Gridded, Calm, NeverShort, Expire;
    match v
    case Lapsed =>
      ExpireCalm(s, id);
      CalmGridded(cfg, s, Expire(s, id));
    case NoPrint(a) =>
      var s1 := Put(s, id, Ratcheted(a, bar));
      PutCalm(s, id, Ratcheted(a, bar));
      CalmGridded(cfg, s, s1);
      ExpireCalm(s1, id);
      CalmGridded(cfg, s1, Expire(s1, id));
    case _ =>
  }

  lemma WorkOrderGridded(cfg: Config, s: State, id: OrderId, snap: Snapshot, busy: set<InstrumentId>)
    requires Inv(s, busy) && Sound(cfg, s, true) && Gridded(cfg, s) && Cancellable(s, id)
    requires s.orders[id].terms.instrument in cfg.instruments
    requires WorkOrder(cfg, s, id, cfg.instruments[s.orders[id].terms.instrument], snap).Ok?
    ensures Gridded(cfg, WorkOrder(cfg, s, id, cfg.instruments[s.orders[id].terms.instrument], snap).value)
  {
    var o := s.orders[id];
    var i := cfg.instruments[o.terms.instrument];
    var volume := PeriodVolume(cfg, s, snap.timestamp);
    var v := Judge(cfg, o, i, snap, s.nextFill + 1, volume);
    InvPaired(s, busy);
    FilledIsNotNegative(cfg, s, id);
    hide Judge, Enact, Inv, Ledger, OneLook, Protective, Followed, Exclusive, InLots;
    JudgeIsLawful(cfg, o, i, snap, s.nextFill + 1, volume);
    if v.Print? {
      PrintIsRound(cfg, o, snap, s.nextFill + 1, volume);
      BookedIsPositive(cfg, o, v.order, v.fill, snap.timestamp);
      PrintGridded(cfg, s, id, v.order, v.fill, i, MarketBar(snap, o.terms.instrument, i));
    } else {
      WaitGridded(cfg, s, id, v, i, MarketBar(snap, o.terms.instrument, i), snap.timestamp);
    }
  }

  // ---- whole runs ----------------------------------------------------------------------------------------------

  lemma WorkAllGridded(cfg: Config, s: State, ids: seq<OrderId>, inst: InstrumentId, snap: Snapshot)
    requires Inv(s, {inst}) && Sound(cfg, s, true) && Gridded(cfg, s) && inst in cfg.instruments
    requires forall id | id in ids :: id in s.orders && s.orders[id].terms.instrument == inst
    requires WorkAll(cfg, s, ids, cfg.instruments[inst], snap).Ok?
    ensures Gridded(cfg, WorkAll(cfg, s, ids, cfg.instruments[inst], snap).value)
    decreases |ids|
  {
    hide Inv, Sound, Gridded, WorkOrder;
    if ids == [] {
    } else if Cancellable(s, ids[0]) {
      WorkOrderKeeps(cfg, s, ids[0], cfg.instruments[inst], snap, {inst});
      WorkOrderSound(cfg, s, ids[0], cfg.instruments[inst], snap, true, {inst});
      WorkOrderGridded(cfg, s, ids[0], snap, {inst});
      WorkAllGridded(cfg, WorkOrder(cfg, s, ids[0], cfg.instruments[inst], snap).value, ids[1..], inst, snap);
    } else {
      WorkAllGridded(cfg, s, ids[1..], inst, snap);
    }
  }

  /** Only the index, the brackets, the queue or the result changed. */
  lemma RecordsGridded(cfg: Config, s: State, t: State)
    requires Gridded(cfg, s) && t.orders == s.orders
    ensures Gridded(cfg, t)
  {
    hide InLots;
  }

  lemma WorkBookGridded(cfg: Config, s: State, inst: InstrumentId, snap: Snapshot)
    requires Inv(s, {}) && Sound(cfg, s, true) && Gridded(cfg, s) && WorkBook(cfg, s, inst, snap).Ok?
    ensures Gridded(cfg, WorkBook(cfg, s, inst, snap).value)
  {
    hide Inv, Sound, Gridded, WorkAll, MatchingOrder, Prune;
    if inst in s.books {
      var ids := MatchingOrder(s, s.books[inst]);
      BookReady(s, inst);
      WorkAllGridded(cfg, s, ids, inst, snap);
      var s1 := WorkAll(cfg, s, ids, cfg.instruments[inst], snap).value;
      RecordsGridded(cfg, s1, Prune(s1, inst));
    }
  }

  lemma WorkBooksGridded(cfg: Config, s: State, keys: seq<InstrumentId>, snap: Snapshot)
    requires Inv(s, {}) && Sound(cfg, s, true) && Gridded(cfg, s) && WorkBooks(cfg, s, keys, snap).Ok?
    ensures Gridded(cfg, WorkBooks(cfg, s, keys, snap).value)
    decreases |keys|
  {
    hide Inv, Sound, Gridded, WorkBook;
    if keys == [] {
    } else {
      WorkBookKeeps(cfg, s, keys[0], snap);
      WorkBookSound(cfg, s, keys[0], snap, true);
      WorkBookGridded(cfg, s, keys[0], snap);
      WorkBooksGridded(cfg, WorkBook(cfg, s, keys[0], snap).value, keys[1..], snap);
    }
  }

  lemma CancelEachGridded(cfg: Config, s: State, ids: seq<OrderId>)
    requires Gridded(cfg, s)
    ensures Gridded(cfg, CancelEach(s, ids))
    decreases |ids|
  {
    hide Gridded, Close, Calm;
    if ids == [] {
    } else {
      CancelGridded(cfg, s, ids[0]);
      CancelEachGridded(cfg, Cancel(s, ids[0]), ids[1..]);
    }
  }

  lemma CancelGridded(cfg: Config, s: State, id: OrderId)
    requires Gridded(cfg, s)
    ensures Gridded(cfg, Cancel(s, id))
  {
    hide Gridded, Close, Calm;
    if Cancellable(s, id) {
      CloseCalm(s, id, Cancelled);
      CalmGridded(cfg, s, Close(s, id, Cancelled));
    }
  }

  lemma StepGridded(cfg: Config, s: State, c: Command)
    requires Inv(s, {}) && Sound(cfg, s, true) && Gridded(cfg, s) && RoundOrder(cfg, c) && Step(cfg, s, c).Ok?
    ensures Gridded(cfg, Step(cfg, s, c).value)
  {
    hide Inv, Sound, RoundSize, Reserved;
    match c
    case SubmitOrder(terms, quantity, stop) =>
      SubmitEffect(cfg, s, NewOrder(terms, quantity, stop).value);
      NothingIsRound(cfg, terms.instrument);
      hide Submit;
    case CancelOrder(id) =>
      hide Cancel, Gridded;
      CancelGridded(cfg, s, id);
    case CancelAll(instrument) =>
      hide WorkingOrders, CancelEach, Gridded;
      CancelEachGridded(cfg, s, WorkingOrders(s, instrument));
    case Bar(snap) =>
      var s1 := s.(out := NO_RESULT.(rejections := s.pending), pending := []);
      hide WorkBooks, Gridded;
      ShapeKeeps(s, s1, {});
      RecordsSound(cfg, s, s1, true);
      RecordsGridded(cfg, s, s1);
      WorkBooksGridded(cfg, s1, s.bookOrder, snap);
  }

  /** While every order is submitted in whole lots, every order is sized and filled in whole lots throughout. */
  lemma {:induction false} RunGridded(cfg: Config, commands: seq<Command>)
    requires Run(cfg, commands).Ok? && forall c | c in commands :: RoundOrder(cfg, c)
    ensures Gridded(cfg, Run(cfg, commands).value)
  {
    if commands == [] {
    } else {
      var prefix, last := commands[..|commands| - 1], commands[|commands| - 1];
      assert forall c | c in commands :: Tidy(c);
      hide Inv, Sound, Step, RoundOrder, Gridded, Tidy;
      RunInvariant(cfg, prefix);
      RunSound(cfg, prefix, true);
      RunGridded(cfg, prefix);
      StepGridded(cfg, Run(cfg, prefix).value, last);
    }
  }
}
