/** The invariants carried through whole runs, and what they say about every reachable state. */
module BrokerRuns {
  import opened Types
  import opened Instruments
  import opened Orders
  import opened Execution
  import opened BrokerSpec
  import opened BrokerIndex
  import opened BrokerLedger
  import opened BrokerBrackets
  import opened BrokerOco

  /** Everything a run keeps. `tidy` says that no caller used an id reserved for bracket legs. */
  ghost predicate Sound(cfg: Config, s: State, tidy: bool) {
    && Ledger(cfg, s) && OneLook(s)
    && (tidy ==> Protective(s) && Followed(s) && Exclusive(s))
  }

  // ---- one look ------------------------------------------------------------------------------------------------

  lemma OwnLook(cfg: Config, s: State, id: OrderId, v: Verdict, i: Instrument, bar: Option<Bar>, at: Time)
    requires OneLook(s) && Cancellable(s, id) && s.orders[id].terms.id == id
    requires Lawful(cfg, s.orders[id], v, at) && Enact(cfg, s, id, v, i, bar).Ok?
    ensures
      var o := Enact(cfg, s, id, v, i, bar).value.orders[id];
      o.terms.tif.OneShot() && o.activatedAt.Some? ==> !o.IsOpen()
  {
    match v
    case Print(a, fill) =>
      hide NeverShort, OneLook, ActivateBrackets, FinishPrint;
      PrintLook(cfg, s, id, a, fill, i, bar);
    case Lapsed =>
      CloseEffect(s, id, Expired);
      hide Close, ActivateBrackets, FinishPrint, Record, NeverShort;
    case NoPrint(a) =>
      CloseEffect(Put(s, id, Ratcheted(a, bar)), id, Expired);
      hide Close, ActivateBrackets, FinishPrint, Record, NeverShort, Ratcheted;
    case _ =>
  }

  lemma PrintLook(cfg: Config, s: State, id: OrderId, a: OrderState, fill: Fill, i: Instrument, bar: Option<Bar>)
    requires id in s.orders && a.terms.id == id && Enact(cfg, s, id, Print(a, fill), i, bar).Ok?
    ensures
      var o := Enact(cfg, s, id, Print(a, fill), i, bar).value.orders[id];
      o.terms == a.terms && (a.terms.tif.OneShot() ==> !o.IsOpen())
  {
    LegIds(id);
    BookedRemainder(a, fill);
    hide StopId, TargetId, ActivateBrackets;
    var s1 := Record(cfg, s, id, a.Booked(fill), fill);
    ActivateSpares(cfg, s1, id, fill, i, id);
    var s2 := ActivateBrackets(cfg, s1, id, fill, i).value;
    FinishLook(cfg, s2, id);
    hide FinishPrint, Record;
  }

  lemma BookedRemainder(a: OrderState, fill: Fill)
    ensures a.Booked(fill).status.Filled? || a.Booked(fill).Remaining() > QUANTITY_TOLERANCE
  {
  }

  /** A partial print leaves a remainder to cancel. */
  lemma FinishLook(cfg: Config, s: State, id: OrderId)
    requires id in s.orders && (s.orders[id].status.Filled? || s.orders[id].Remaining() > QUANTITY_TOLERANCE)
    ensures FinishPrint(cfg, s, id).orders[id].terms == s.orders[id].terms
    ensures s.orders[id].terms.tif.OneShot() ==> !FinishPrint(cfg, s, id).orders[id].IsOpen()
  {
    SettleOcoEffect(s, id);
    CloseEffect(s, id, Cancelled);
    hide SettleOco, Close;
  }

  lemma EnactOneLook(cfg: Config, s: State, id: OrderId, v: Verdict, i: Instrument, bar: Option<Bar>, at: Time,
                     busy: set<InstrumentId>)
    requires Inv(s, busy) && Ledger(cfg, s) && OneLook(s) && Cancellable(s, id) && s.orders[id].terms.instrument in busy
    requires IsVerdict(s.orders[id], v, s.nextFill + 1) && Lawful(cfg, s.orders[id], v, at)
    requires Enact(cfg, s, id, v, i, bar).Ok?
    ensures OneLook(Enact(cfg, s, id, v, i, bar).value)
  {
    var t := Enact(cfg, s, id, v, i, bar).value;
    InvPaired(s, busy);
    hide Inv, Ledger, OneLook, IsVerdict, Lawful, Enact, OnlyWorked, Since;
    EnactOnlyWorked(cfg, s, id, v, i, bar, at);
    EnactKeeps(cfg, s, id, v, i, bar, busy);
    OwnLook(cfg, s, id, v, i, bar, at);
    OnlyWorkedLook(s, t, id);
  }

  lemma OnlyWorkedLook(s: State, t: State, id: OrderId)
    requires OneLook(s) && OnlyWorked(s, t, id) && Since(s, t) && id in t.orders
    requires t.orders[id].terms.tif.OneShot() && t.orders[id].activatedAt.Some? ==> !t.orders[id].IsOpen()
    ensures OneLook(t)
  {
  }

  // ---- legs after their parents --------------------------------------------------------------------------------

  lemma FollowedGrows(s: State, t: State, id: OrderId)
    requires Followed(s) && Guarded(s, id) && id in s.orders && Since(s, t)
    requires t.log == s.log || (|t.log| == |s.log| + 1 && t.log[|s.log|].orderId == id)
    ensures Followed(t)
  {
    hide RaisedByPrint, ParentId, Reserved;
    forall k | 0 <= k < |t.log| && Reserved(t.log[k].orderId)
      ensures t.log[k].orderId in t.orders
      ensures RaisedByPrint(t.log[..k], ParentId(t.log[k].orderId), t.orders[t.log[k].orderId].terms.submittedAt)
    {
      if k < |s.log| {
        assert t.log[k] == s.log[k] && t.log[..k] == s.log[..k];
      } else {
        assert t.log[..k] == s.log;
      }
    }
  }

  lemma EnactFollowed(cfg: Config, s: State, id: OrderId, v: Verdict, i: Instrument, bar: Option<Bar>, at: Time,
                      busy: set<InstrumentId>)
    requires Inv(s, busy) && Protective(s) && Followed(s) && Cancellable(s, id) && s.orders[id].terms.instrument in busy
    requires IsVerdict(s.orders[id], v, s.nextFill + 1) && Lawful(cfg, s.orders[id], v, at)
    requires Enact(cfg, s, id, v, i, bar).Ok?
    ensures Followed(Enact(cfg, s, id, v, i, bar).value)
  {
    InvPaired(s, busy);
    assert Guarded(s, id);
    hide Inv, Protective, Followed, Enact, Guarded, Since;
    EnactKeeps(cfg, s, id, v, i, bar, busy);
    EnactLog(cfg, s, id, v, i, bar);
    FollowedGrows(s, Enact(cfg, s, id, v, i, bar).value, id);
  }

  // ---- one order -----------------------------------------------------------------------------------------------

  lemma WorkOrderSound(cfg: Config, s: State, id: OrderId, i: Instrument, snap: Snapshot, tidy: bool,
                       busy: set<InstrumentId>)
    requires Inv(s, busy) && Sound(cfg, s, tidy) && Cancellable(s, id) && s.orders[id].terms.instrument in busy
    requires WorkOrder(cfg, s, id, i, snap).Ok?
    ensures Sound(cfg, WorkOrder(cfg, s, id, i, snap).value, tidy)
  {
    hide Inv, Ledger, OneLook, Protective, Followed, Exclusive, Judge, IsVerdict, Lawful, Enact;
    var o := s.orders[id];
    var bar := MarketBar(snap, o.terms.instrument, i);
    var v := Judge(cfg, o, i, snap, s.nextFill + 1, PeriodVolume(cfg, s, snap.timestamp));
    JudgeIsVerdict(cfg, o, i, snap, s.nextFill + 1, PeriodVolume(cfg, s, snap.timestamp));
    JudgeIsLawful(cfg, o, i, snap, s.nextFill + 1, PeriodVolume(cfg, s, snap.timestamp));
    InvPaired(s, busy);
    hide Keyed, Paired, Bracketed;
    EnactLedger(cfg, s, id, v, i, bar, snap.timestamp);
    EnactOneLook(cfg, s, id, v, i, bar, snap.timestamp, busy);
    if tidy {
      EnactProtective(cfg, s, id, v, i, bar, snap.timestamp);
      EnactFollowed(cfg, s, id, v, i, bar, snap.timestamp, busy);
      EnactExclusive(cfg, s, id, v, i, bar, snap.timestamp, busy);
    }
  }

  lemma WorkAllSound(cfg: Config, s: State, ids: seq<OrderId>, inst: InstrumentId, i: Instrument, snap: Snapshot,
                     tidy: bool)
    requires Inv(s, {inst}) && Sound(cfg, s, tidy) && WorkAll(cfg, s, ids, i, snap).Ok?
    requires forall id | id in ids :: id in s.orders && s.orders[id].terms.instrument == inst
    ensures Sound(cfg, WorkAll(cfg, s, ids, i, snap).value, tidy)
    decreases |ids|
  {
    hide Inv, Sound, WorkOrder;
    if ids == [] {
    } else {
      var s1 := s;
      if Cancellable(s, ids[0]) {
        WorkOrderKeeps(cfg, s, ids[0], i, snap, {inst});
        WorkOrderSound(cfg, s, ids[0], i, snap, tidy, {inst});
        s1 := WorkOrder(cfg, s, ids[0], i, snap).value;
      }
      WorkAllSound(cfg, s1, ids[1..], inst, i, snap, tidy);
    }
  }

  /** Only the index, the brackets, the queue or the result changed. */
  lemma RecordsSound(cfg: Config, s: State, t: State, tidy: bool)
    requires Sound(cfg, s, tidy) && t.orders == s.orders && t.oco == s.oco && t.log == s.log
    ensures Sound(cfg, t, tidy)
  {
    assert Ledger(cfg, t) && OneLook(t);
    if tidy {
      assert Followed(t);
      hide Ledger, OneLook, Followed;
      CalmProtective(s, t);
      ExclusiveRecords(s, t);
    }
  }

  lemma ExclusiveRecords(s: State, t: State)
    requires Exclusive(s) && t.orders == s.orders && t.oco == s.oco && t.log == s.log
    ensures Exclusive(t)
  {
    forall p: OrderId | Tame(t.log, p) ensures Rivals(t, p) {
      hide Rivals, Tame;
      RivalsStay(s, t, p);
    }
  }

  lemma WorkBookSound(cfg: Config, s: State, inst: InstrumentId, snap: Snapshot, tidy: bool)
    requires Inv(s, {}) && Sound(cfg, s, tidy) && WorkBook(cfg, s, inst, snap).Ok?
    ensures Sound(cfg, WorkBook(cfg, s, inst, snap).value, tidy)
  {
    hide Inv, Sound, WorkAll, MatchingOrder, Prune;
    if inst in s.books {
      var ids := MatchingOrder(s, s.books[inst]);
      BookReady(s, inst);
      WorkAllSound(cfg, s, ids, inst, cfg.instruments[inst], snap, tidy);
      var s1 := WorkAll(cfg, s, ids, cfg.instruments[inst], snap).value;
      RecordsSound(cfg, s1, Prune(s1, inst), tidy);
    }
  }

  lemma WorkBooksSound(cfg: Config, s: State, keys: seq<InstrumentId>, snap: Snapshot, tidy: bool)
    requires Inv(s, {}) && Sound(cfg, s, tidy) && WorkBooks(cfg, s, keys, snap).Ok?
    ensures Sound(cfg, WorkBooks(cfg, s, keys, snap).value, tidy)
    decreases |keys|
  {
    hide Inv, Sound, WorkBook;
    if keys == [] {
    } else {
      WorkBookKeeps(cfg, s, keys[0], snap);
      WorkBookSound(cfg, s, keys[0], snap, tidy);
      WorkBooksSound(cfg, WorkBook(cfg, s, keys[0], snap).value, keys[1..], snap, tidy);
    }
  }

  // ---- the caller's own calls ----------------------------------------------------------------------------------

  lemma CloseExclusive(s: State, id: OrderId, status: OrderStatus, busy: set<InstrumentId>)
    requires Inv(s, busy) && Protective(s) && Exclusive(s) && Cancellable(s, id) && status.IsTerminal()
    requires !status.Filled?
    ensures Exclusive(Close(s, id, status))
  {
    var t := Close(s, id, status);
    CloseEffect(s, id, status);
    InvPaired(s, busy);
    hide Inv, Close;
    assert LegPair(s, id);
    hide Protective;
    forall p: OrderId | Tame(t.log, p) ensures Rivals(t, p) {
      hide Rivals, Tame;
      CloseRivals(s, id, status, p);
    }
  }

  lemma CloseRivals(s: State, id: OrderId, status: OrderStatus, p: OrderId)
    requires Paired(s) && LegPair(s, id) && Rivals(s, p) && Cancellable(s, id) && status.IsTerminal() && !status.Filled?
    ensures Rivals(Close(s, id, status), p)
  {
    LegIds(p);
    CloseEffect(s, id, status);
    hide Close, Paired, Reserved;
    if id == StopId(p) || id == TargetId(p) {
      hide LegPair, ParentId, StopId, TargetId, StopLevel, TargetLevel;
      CloseLegRivals(s, Close(s, id, status), id, p);
    } else {
      if id in s.oco {
        LegNotPaired(s, id, p);
      }
      hide Rivals, LegPair, ParentId, StopId, TargetId;
      CloseOtherRivals(s, id, status, p);
    }
  }

  lemma CloseLegRivals(s: State, t: State, id: OrderId, p: OrderId)
    requires Rivals(s, p) && (id == StopId(p) || id == TargetId(p)) && id != p && id in s.orders
    requires t.orders.Keys == s.orders.Keys
    requires t.orders[id].terms == s.orders[id].terms && t.orders[id].status.IsTerminal()
    requires !t.orders[id].status.Filled?
    requires forall x | x in s.orders && x != id :: t.orders[x] == s.orders[x]
    requires t.log == s.log
    ensures Rivals(t, p)
  {
    LegIds(p);
    hide StopId, TargetId, StopLevel, TargetLevel, ParentId, Reserved;
  }

  /** Only its twin is paired with a leg. */
  lemma LegNotPaired(s: State, id: OrderId, p: OrderId)
    requires LegPair(s, id) && id != StopId(p) && id != TargetId(p) && id in s.oco
    ensures s.oco[id] != StopId(p) && s.oco[id] != TargetId(p)
  {
    var q := ParentId(id);
    if q != p {
      hide StopId, TargetId, ParentId;
      LegIdsDiffer(q, p);
    }
  }

  lemma CloseOtherRivals(s: State, id: OrderId, status: OrderStatus, p: OrderId)
    requires Paired(s) && Rivals(s, p) && Cancellable(s, id) && id != StopId(p) && id != TargetId(p)
    requires id in s.oco ==> s.oco[id] != StopId(p) && s.oco[id] != TargetId(p)
    ensures Rivals(Close(s, id, status), p)
  {
    var t := Close(s, id, status);
    CloseEffect(s, id, status);
    hide Close, Paired, Rivals, StopId, TargetId;
    if StopId(p) in s.orders {
      CloseSpares(s, id, status, StopId(p));
    }
    if TargetId(p) in s.orders {
      CloseSpares(s, id, status, TargetId(p));
    }
    if p in s.orders {
      SparedRivals(s, t, p);
    } else {
      RivalsStay(s, t, p);
    }
  }

  lemma CancelSound(cfg: Config, s: State, id: OrderId, tidy: bool)
    requires Inv(s, {}) && Sound(cfg, s, tidy)
    ensures Sound(cfg, Cancel(s, id), tidy)
  {
    if Cancellable(s, id) {
      CloseLook(s, id);
      CloseEffect(s, id, Cancelled);
      assert tidy ==> Followed(Cancel(s, id));
      hide Inv, Ledger, OneLook, Protective, Followed, Exclusive, Calm, Close;
      CloseLedger(cfg, s, id, Cancelled);
      if tidy {
        CloseCalm(s, id, Cancelled);
        CalmProtective(s, Close(s, id, Cancelled));
        CloseExclusive(s, id, Cancelled, {});
      }
    }
  }

  lemma CloseLook(s: State, id: OrderId)
    requires OneLook(s) && Cancellable(s, id)
    ensures OneLook(Close(s, id, Cancelled))
  {
    CloseEffect(s, id, Cancelled);
    hide Close;
  }

  lemma CancelEachSound(cfg: Config, s: State, ids: seq<OrderId>, tidy: bool)
    requires Inv(s, {}) && Sound(cfg, s, tidy)
    ensures Sound(cfg, CancelEach(s, ids), tidy)
    decreases |ids|
  {
    hide Inv, Sound, Cancel;
    if ids == [] {
    } else {
      CancelKeeps(s, ids[0]);
      CancelSound(cfg, s, ids[0], tidy);
      CancelEachSound(cfg, Cancel(s, ids[0]), ids[1..], tidy);
    }
  }

  lemma SubmitExclusive(cfg: Config, s: State, o: OrderState)
    requires Exclusive(s) && Protective(s) && Submit(cfg, s, o).Ok? && !Reserved(o.terms.id)
    requires o == Pristine(o.terms, o.quantity, o.stop)
    ensures Exclusive(Submit(cfg, s, o).value)
  {
    var t := Submit(cfg, s, o).value;
    SubmitEffect(cfg, s, o);
    hide Submit;
    forall p: OrderId | Tame(t.log, p) ensures Rivals(t, p) {
      LegIds(p);
      hide StopId, TargetId, ParentId, Reserved, Tame, StopLevel, TargetLevel, RaisedByPrint;
      assert Rivals(s, p) && Guarded(s, StopId(p)) && Guarded(s, TargetId(p));
    }
  }

  lemma SubmitSound(cfg: Config, s: State, o: OrderState, tidy: bool)
    requires Sound(cfg, s, tidy) && Submit(cfg, s, o).Ok? && (tidy ==> !Reserved(o.terms.id))
    requires o == Pristine(o.terms, o.quantity, o.stop)
    ensures Sound(cfg, Submit(cfg, s, o).value, tidy)
  {
    SubmitEffect(cfg, s, o);
    hide Submit;
    assert OneLook(Submit(cfg, s, o).value) && (tidy ==> Followed(Submit(cfg, s, o).value));
    hide OneLook, Ledger, Protective, Followed, Exclusive;
    SubmitLedger(cfg, s, o);
    if tidy {
      SubmitProtective(cfg, s, o);
      SubmitExclusive(cfg, s, o);
    }
  }

  predicate Tidy(c: Command) {
    c.SubmitOrder? ==> !Reserved(c.terms.id)
  }

  lemma StepSound(cfg: Config, s: State, c: Command, tidy: bool)
    requires Inv(s, {}) && Sound(cfg, s, tidy) && (tidy ==> Tidy(c)) && Step(cfg, s, c).Ok?
    ensures Sound(cfg, Step(cfg, s, c).value, tidy)
  {
    hide Inv, Sound, Reserved;
    match c
    case SubmitOrder(terms, quantity, stop) =>
      hide Submit;
      SubmitSound(cfg, s, NewOrder(terms, quantity, stop).value, tidy);
    case CancelOrder(id) =>
      hide Cancel;
      CancelSound(cfg, s, id, tidy);
    case CancelAll(instrument) =>
      hide WorkingOrders, CancelEach;
      CancelEachSound(cfg, s, WorkingOrders(s, instrument), tidy);
    case Bar(snap) =>
      var s1 := s.(out := NO_RESULT.(rejections := s.pending), pending := []);
      hide WorkBooks;
      ShapeKeeps(s, s1, {});
      RecordsSound(cfg, s, s1, tidy);
      WorkBooksSound(cfg, s1, s.bookOrder, snap, tidy);
  }

  lemma InitSound(cfg: Config, tidy: bool)
    ensures Sound(cfg, Init, tidy)
  {
  }

  lemma {:induction false} RunSound(cfg: Config, commands: seq<Command>, tidy: bool)
    requires Run(cfg, commands).Ok? && (tidy ==> forall c | c in commands :: Tidy(c))
    ensures Sound(cfg, Run(cfg, commands).value, tidy)
  {
    hide Inv, Sound, Step, Tidy;
    if commands == [] {
      InitSound(cfg, tidy);
    } else {
      var prefix := commands[..|commands| - 1];
      RunInvariant(cfg, prefix);
      RunSound(cfg, prefix, tidy);
      StepSound(cfg, Run(cfg, prefix).value, commands[|commands| - 1], tidy);
    }
  }
}
