/** A run as what it is made of: looks at one order on one bar, and changes between looks that print nothing. Whatever
    both kinds keep holds after every run. */
module BrokerLooks {
  import opened Types
  import opened Instruments
  import opened Orders
  import opened Execution
  import opened BrokerSpec
  import opened BrokerIndex
  import opened BrokerLedger
  import opened BrokerBrackets
  import opened BrokerRuns

  // ---- what a change leaves alone ------------------------------------------------------------------------------

  /** An order somebody else was looked at beside: it may be resized or cancelled. */
  predicate Bystander(o: OrderState, p: OrderState) {
    && p.terms == o.terms && p.stop == o.stop && p.activatedAt == o.activatedAt
    && p.filled == o.filled && p.avgPrice == o.avgPrice && p.commissionPaid == o.commissionPaid
    && (p.status == o.status || (o.IsOpen() && p.status.Cancelled?))
  }

  /** An order nobody has looked at yet. */
  predicate Newborn(o: OrderState) {
    && o.activatedAt.None? && o.filled == 0.0 && o.commissionPaid == 0.0
    && !o.status.Filled? && !o.status.PartiallyFilled? && !o.status.Expired?
  }

  predicate SameTotals(s: State, t: State) {
    t.log == s.log && t.period == s.period && t.periodVolume == s.periodVolume
  }

  /** Nothing printed, and all orders but one are bystanders or new. */
  ghost predicate Aside(s: State, t: State, id: OrderId) {
    && SameTotals(s, t)
    && (id in s.orders ==> id in t.orders)
    && (forall x | x in s.orders && x != id :: x in t.orders && Bystander(s.orders[x], t.orders[x]))
    && (forall x | x in t.orders && x !in s.orders :: Newborn(t.orders[x]))
  }

  /** Nothing printed, and every order is a bystander or new. */
  ghost predicate Between(s: State, t: State) {
    && SameTotals(s, t)
    && (forall x | x in s.orders :: x in t.orders && Bystander(s.orders[x], t.orders[x]))
    && (forall x | x in t.orders && x !in s.orders :: Newborn(t.orders[x]))
  }

  lemma AsideTransitive(s: State, t: State, u: State, id: OrderId)
    requires id in s.orders && Aside(s, t, id) && Aside(t, u, id)
    ensures Aside(s, u, id)
  {
  }

  lemma BetweenTransitive(s: State, t: State, u: State)
    requires Between(s, t) && Between(t, u)
    ensures Between(s, u)
  {
  }

  lemma BetweenIsAside(s: State, t: State, id: OrderId)
    requires Between(s, t)
    ensures Aside(s, t, id)
  {
  }

  lemma PutAside(s: State, id: OrderId, o: OrderState)
    requires id in s.orders
    ensures Aside(s, Put(s, id, o), id)
  {
  }

  // ---- each update ---------------------------------------------------------------------------------------------

  lemma CloseTotals(s: State, x: OrderId, status: OrderStatus)
    requires x in s.orders
    ensures SameTotals(s, Close(s, x, status))
  {
  }

  lemma CloseBetween(s: State, x: OrderId)
    requires Cancellable(s, x)
    ensures Between(s, Close(s, x, Cancelled))
  {
    CloseEffect(s, x, Cancelled);
    CloseTotals(s, x, Cancelled);
    hide Close;
  }

  lemma ExpireAside(s: State, id: OrderId)
    requires id in s.orders
    ensures Aside(s, Expire(s, id), id) && Expire(s, id).orders[id] == s.orders[id].(status := Expired)
  {
    CloseEffect(s, id, Expired);
    CloseTotals(s, id, Expired);
    hide Close;
  }

  lemma SettleBetween(s: State, id: OrderId)
    ensures Between(s, SettleOco(s, id))
  {
    SettleOcoEffect(s, id);
    if id in s.oco {
      var s1 := Unlink(s, id);
      if Cancellable(s1, s.oco[id]) {
        CloseTotals(s1, s.oco[id], Cancelled);
        hide Close;
      }
    }
  }

  lemma FinishBetween(cfg: Config, s: State, id: OrderId)
    requires Cancellable(s, id) || (id in s.orders && s.orders[id].status.Filled?)
    ensures Between(s, FinishPrint(cfg, s, id))
  {
    SettleBetween(s, id);
    if Cancellable(s, id) {
      CloseBetween(s, id);
    }
    hide SettleOco, Close;
  }

  lemma SubmitBetween(cfg: Config, s: State, o: OrderState)
    requires Submit(cfg, s, o).Ok? && o == Pristine(o.terms, o.quantity, o.stop)
    ensures Between(s, Submit(cfg, s, o).value)
  {
    SubmitEffect(cfg, s, o);
    hide IntakeRefusal;
  }

  lemma SubmitLegsBetween(cfg: Config, s: State, legs: seq<OrderState>)
    requires SubmitLegs(cfg, s, legs).Ok?
    requires forall k | 0 <= k < |legs| :: legs[k] == Pristine(legs[k].terms, legs[k].quantity, legs[k].stop)
    ensures Between(s, SubmitLegs(cfg, s, legs).value)
    decreases |legs|
  {
    hide Submit, Between;
    if legs == [] {
      Unchanged(s);
    } else {
      var s1 := Submit(cfg, s, legs[0]).value;
      SubmitBetween(cfg, s, legs[0]);
      SubmitLegsBetween(cfg, s1, legs[1..]);
      BetweenTransitive(s, s1, SubmitLegs(cfg, s, legs).value);
    }
  }

  lemma Unchanged(s: State)
    ensures Between(s, s)
  {
  }

  lemma ResizedBetween(s: State, x: OrderId, quantity: real)
    ensures Between(s, Resized(s, x, quantity))
  {
  }

  lemma RecordsBetween(s: State, t: State)
    requires t.orders == s.orders && SameTotals(s, t)
    ensures Between(s, t)
  {
  }

  lemma ActivateBetween(cfg: Config, s: State, id: OrderId, fill: Fill, i: Instrument)
    requires id in s.orders && ActivateBrackets(cfg, s, id, fill, i).Ok?
    ensures Between(s, ActivateBrackets(cfg, s, id, fill, i).value)
  {
    hide Between;
    var parent := s.orders[id];
    if id !in s.brackets {
      Unchanged(s);
    } else if Untouched(s, StopId(id)) || Untouched(s, TargetId(id)) {
      hide Untouched, Resized, StopId, TargetId;
      var s1 := Resized(s, StopId(id), parent.filled);
      ResizedBetween(s, StopId(id), parent.filled);
      ResizedBetween(s1, TargetId(id), parent.filled);
      BetweenTransitive(s, s1, Resized(s1, TargetId(id), parent.filled));
    } else {
      var legs := Legs(parent, s.brackets[id], fill, i).value;
      LegsAreLegs(parent, s.brackets[id], fill, i);
      hide Untouched, Legs, SubmitLegs, StopId, TargetId;
      SubmitLegsBetween(cfg, s, legs);
      var s1 := SubmitLegs(cfg, s, legs).value;
      RecordsBetween(s1, Pair(s1, legs));
      BetweenTransitive(s, s1, Pair(s1, legs));
    }
  }

  // ---- one look ------------------------------------------------------------------------------------------------

  /** What a look that printed leaves of its order. */
  predicate AfterPrint(o: OrderState, p: OrderState, at: Time, fill: Fill) {
    && p.terms == o.terms && p.activatedAt == Activated(o, at).activatedAt
    && p.commissionPaid == o.commissionPaid + fill.commission
    && (p.status == Activated(o, at).Booked(fill).status || p.status.Cancelled?)
    && (o.terms.trailing.None? ==> p.stop == o.stop)
  }

  /** And one that did not: the order lapsed, could not trade, or has been looked at in vain. */
  predicate AfterWait(cfg: Config, o: OrderState, p: OrderState, at: Time) {
    && p.terms == o.terms && p.commissionPaid == o.commissionPaid && p.filled == o.filled
    && (o.terms.trailing.None? ==> p.stop == o.stop)
    && (if ShouldExpire(o, at) then p == o.(status := Expired)
        else if !IsEligible(cfg.execution, o, at) then p == o
        else p.activatedAt == Activated(o, at).activatedAt
             && p.status == if o.terms.tif.OneShot() then Expired else o.status)
  }

  /** One look at an order in the book, on a bar, from a state a run can reach. */
  ghost predicate Look(cfg: Config, s: State, t: State, id: OrderId, snap: Snapshot) {
    && Keyed(s) && Ledger(cfg, s) && Cancellable(s, id) && s.orders[id].terms.instrument in cfg.instruments
    && WorkOrder(cfg, s, id, cfg.instruments[s.orders[id].terms.instrument], snap) == Ok(t)
  }

  function VerdictOf(cfg: Config, s: State, id: OrderId, snap: Snapshot): Verdict
    requires id in s.orders && s.orders[id].terms.instrument in cfg.instruments
  {
    Judge(cfg, s.orders[id], cfg.instruments[s.orders[id].terms.instrument], snap, s.nextFill + 1,
          PeriodVolume(cfg, s, snap.timestamp))
  }

  /** The state a print is recorded in, before its legs and its remainder are seen to. */
  function Printed(cfg: Config, s: State, id: OrderId, v: Verdict): State
    requires v.Print?
  {
    Record(cfg, s, id, v.order.Booked(v.fill), v.fill)
  }

  /** A look that printed: recorded, with its order as `AfterPrint` says and all others aside. */
  ghost predicate PrintLeaves(cfg: Config, s: State, t: State, id: OrderId, v: Verdict, at: Time)
    requires id in s.orders
  {
    && v.Print? && Lawful(cfg, s.orders[id], v, at)
    && Printed(cfg, s, id, v).orders == s.orders[id := v.order.Booked(v.fill)]
    && Aside(Printed(cfg, s, id, v), t, id) && AfterPrint(s.orders[id], t.orders[id], at, v.fill)
    && t.log == s.log + [v.fill] && t.period == Some(cfg.month(at))
    && t.periodVolume == PeriodVolume(cfg, s, at) + v.fill.quantity
  }

  ghost predicate WaitLeaves(cfg: Config, s: State, t: State, id: OrderId, at: Time)
    requires id in s.orders
  {
    Aside(s, t, id) && AfterWait(cfg, s.orders[id], t.orders[id], at)
  }

  /** What follows a recorded print. */
  lemma AfterRecord(cfg: Config, s: State, id: OrderId, fill: Fill, i: Instrument, bar: Option<Bar>) returns (t: State)
    requires Cancellable(s, id) || (id in s.orders && s.orders[id].status.Filled?)
    requires ActivateBrackets(cfg, s, id, fill, i).Ok?
    ensures
      var s3 := FinishPrint(cfg, ActivateBrackets(cfg, s, id, fill, i).value, id);
      t == Put(s3, id, Ratcheted(s3.orders[id], bar))
    ensures Aside(s, t, id) && t.orders[id].activatedAt == s.orders[id].activatedAt
    ensures t.orders[id].terms == s.orders[id].terms && t.orders[id].commissionPaid == s.orders[id].commissionPaid
    ensures t.orders[id].status == s.orders[id].status || t.orders[id].status.Cancelled?
    ensures s.orders[id].terms.trailing.None? ==> t.orders[id].stop == s.orders[id].stop
  {
    hide ActivateBrackets, FinishPrint, Ratcheted;
    var s2 := ActivateBrackets(cfg, s, id, fill, i).value;
    ActivateBetween(cfg, s, id, fill, i);
    StatusStays(cfg, s, id, fill, i);
    var s3 := FinishPrint(cfg, s2, id);
    FinishBetween(cfg, s2, id);
    BetweenTransitive(s, s2, s3);
    BetweenIsAside(s, s3, id);
    t := Put(s3, id, Ratcheted(s3.orders[id], bar));
    PutAside(s3, id, Ratcheted(s3.orders[id], bar));
    AsideTransitive(s, s3, t, id);
    RatchetKeepsFixed(s3.orders[id], bar);
    hide Aside;
  }

  lemma PrintEffect(cfg: Config, s: State, id: OrderId, v: Verdict, i: Instrument, bar: Option<Bar>, at: Time)
    requires Cancellable(s, id) && v.Print? && Lawful(cfg, s.orders[id], v, at)
    requires v.order == Activated(s.orders[id], at)
    requires Enact(cfg, s, id, v, i, bar).Ok?
    ensures PrintLeaves(cfg, s, Enact(cfg, s, id, v, i, bar).value, id, v, at)
  {
    var s1 := Printed(cfg, s, id, v);
    hide ActivateBrackets, FinishPrint, Ratcheted, PeriodVolume, NeverShort, Aside, Put;
    var t := AfterRecord(cfg, s1, id, v.fill, i, bar);
    AsideTotals(s1, t, id);
  }

  lemma AsideTotals(s: State, t: State, id: OrderId)
    requires Aside(s, t, id)
    ensures SameTotals(s, t)
  {
  }

  lemma RatchetKeepsFixed(o: OrderState, bar: Option<Bar>)
    ensures o.terms.trailing.None? ==> Ratcheted(o, bar) == o
  {
  }

  lemma WaitEffect(cfg: Config, s: State, id: OrderId, v: Verdict, i: Instrument, bar: Option<Bar>, at: Time)
    requires Cancellable(s, id) && !v.Print? && Enact(cfg, s, id, v, i, bar).Ok?
    requires v.Lapsed? <==> ShouldExpire(s.orders[id], at)
    requires v.Ineligible? <==> !ShouldExpire(s.orders[id], at) && !IsEligible(cfg.execution, s.orders[id], at)
    requires v.NoPrint? ==> v.order == Activated(s.orders[id], at)
    ensures WaitLeaves(cfg, s, Enact(cfg, s, id, v, i, bar).value, id, at)
  {
    hide ShouldExpire, Ratcheted, Expire, Aside;
    match v
    case Lapsed =>
      ExpireAside(s, id);
    case Ineligible =>
      Unchanged(s);
      BetweenIsAside(s, s, id);
    case NoPrint(a) =>
      var s1 := Put(s, id, Ratcheted(a, bar));
      RatchetKeepsFixed(a, bar);
      PutAside(s, id, Ratcheted(a, bar));
      ExpireAside(s1, id);
      AsideTransitive(s, s1, Expire(s1, id), id);
    case _ =>
  }

  lemma VerdictKinds(cfg: Config, o: OrderState, i: Instrument, snap: Snapshot, seqNo: nat, volume: real)
    ensures
      var v := Judge(cfg, o, i, snap, seqNo, volume);
      && (v.Lapsed? <==> ShouldExpire(o, snap.timestamp))
      && (v.Ineligible? <==> !ShouldExpire(o, snap.timestamp) && !IsEligible(cfg.execution, o, snap.timestamp))
      && (v.NoPrint? || v.Print? ==> v.order == Activated(o, snap.timestamp))
  {
    hide ShouldExpire, IsEligible, TryFill, MarketBar, Fillable, BuildFill, QuoteFor;
  }

  /** What one look comes to. */
  lemma LookEffect(cfg: Config, s: State, t: State, id: OrderId, snap: Snapshot)
    requires Look(cfg, s, t, id, snap)
    ensures
      var v := VerdictOf(cfg, s, id, snap);
      if v.Print? then PrintLeaves(cfg, s, t, id, v, snap.timestamp) else WaitLeaves(cfg, s, t, id, snap.timestamp)
  {
    hide Judge, Enact, MarketBar, PeriodVolume, Lawful, Ledger, Keyed, PrintLeaves, WaitLeaves, ShouldExpire,
         IsEligible;
    var v, o := VerdictOf(cfg, s, id, snap), s.orders[id];
    var i := cfg.instruments[o.terms.instrument];
    var volume, bar := PeriodVolume(cfg, s, snap.timestamp), MarketBar(snap, o.terms.instrument, i);
    JudgeIsLawful(cfg, o, i, snap, s.nextFill + 1, volume);
    VerdictKinds(cfg, o, i, snap, s.nextFill + 1, volume);
    if v.Print? {
      PrintEffect(cfg, s, id, v, i, bar, snap.timestamp);
    } else {
      WaitEffect(cfg, s, id, v, i, bar, snap.timestamp);
    }
  }

  // ---- induction over looks ------------------------------------------------------------------------------------

  /** Changes between looks keep it. */
  ghost predicate KeptBetween(P: State -> bool) {
    forall s, t | P(s) && Between(s, t) :: P(t)
  }

  /** Looks on this bar keep it. */
  ghost predicate KeptByLooks(cfg: Config, P: State -> bool, snap: Snapshot) {
    forall s, t, id | P(s) && Look(cfg, s, t, id, snap) :: P(t)
  }

  lemma WorkAllInduction(cfg: Config, s: State, ids: seq<OrderId>, inst: InstrumentId, snap: Snapshot, P: State -> bool)
    requires Inv(s, {inst}) && Sound(cfg, s, false) && inst in cfg.instruments
    requires forall id | id in ids :: id in s.orders && s.orders[id].terms.instrument == inst
    requires WorkAll(cfg, s, ids, cfg.instruments[inst], snap).Ok? && P(s) && KeptByLooks(cfg, P, snap)
    ensures P(WorkAll(cfg, s, ids, cfg.instruments[inst], snap).value)
    decreases |ids|
  {
    hide Inv, WorkOrder, Ledger, OneLook, Keyed, Paired, Bracketed;
    if ids == [] {
    } else if Cancellable(s, ids[0]) {
      var t := WorkOrder(cfg, s, ids[0], cfg.instruments[inst], snap).value;
      InvPaired(s, {inst});
      assert Look(cfg, s, t, ids[0], snap);
      WorkOrderKeeps(cfg, s, ids[0], cfg.instruments[inst], snap, {inst});
      WorkOrderSound(cfg, s, ids[0], cfg.instruments[inst], snap, false, {inst});
      hide Sound, Look;
      WorkAllInduction(cfg, t, ids[1..], inst, snap, P);
    } else {
      WorkAllInduction(cfg, s, ids[1..], inst, snap, P);
    }
  }

  lemma WorkBookInduction(cfg: Config, s: State, inst: InstrumentId, snap: Snapshot, P: State -> bool)
    requires Inv(s, {}) && Sound(cfg, s, false) && WorkBook(cfg, s, inst, snap).Ok?
    requires P(s) && KeptByLooks(cfg, P, snap) && KeptBetween(P)
    ensures P(WorkBook(cfg, s, inst, snap).value)
  {
    hide Inv, Sound, WorkAll, MatchingOrder, Prune, KeptByLooks;
    if inst in s.books {
      var ids := MatchingOrder(s, s.books[inst]);
      BookReady(s, inst);
      WorkAllInduction(cfg, s, ids, inst, snap, P);
      var s1 := WorkAll(cfg, s, ids, cfg.instruments[inst], snap).value;
      RecordsBetween(s1, Prune(s1, inst));
      hide Between;
    }
  }

  lemma WorkBooksInduction(cfg: Config, s: State, keys: seq<InstrumentId>, snap: Snapshot, P: State -> bool)
    requires Inv(s, {}) && Sound(cfg, s, false) && WorkBooks(cfg, s, keys, snap).Ok?
    requires P(s) && KeptByLooks(cfg, P, snap) && KeptBetween(P)
    ensures P(WorkBooks(cfg, s, keys, snap).value)
    decreases |keys|
  {
    hide Inv, Sound, WorkBook, KeptByLooks, KeptBetween;
    if keys != [] {
      WorkBookKeeps(cfg, s, keys[0], snap);
      WorkBookSound(cfg, s, keys[0], snap, false);
      WorkBookInduction(cfg, s, keys[0], snap, P);
      WorkBooksInduction(cfg, WorkBook(cfg, s, keys[0], snap).value, keys[1..], snap, P);
    }
  }

  /** What looks on a bar and the changes between them keep, the bar keeps. */
  lemma BarInduction(cfg: Config, s: State, snap: Snapshot, P: State -> bool)
    requires Inv(s, {}) && Sound(cfg, s, false) && ProcessBar(cfg, s, snap).Ok?
    requires P(s) && KeptByLooks(cfg, P, snap) && KeptBetween(P)
    ensures P(ProcessBar(cfg, s, snap).value)
  {
    var s1 := s.(out := NO_RESULT.(rejections := s.pending), pending := []);
    hide Inv, Sound, WorkBooks, KeptByLooks;
    ShapeKeeps(s, s1, {});
    RecordsSound(cfg, s, s1, false);
    RecordsBetween(s, s1);
    hide Between;
    assert P(s1);
    WorkBooksInduction(cfg, s1, s.bookOrder, snap, P);
  }

  lemma CancelBetween(s: State, id: OrderId)
    ensures Between(s, Cancel(s, id))
  {
    Unchanged(s);
    if Cancellable(s, id) {
      CloseBetween(s, id);
    }
    hide Close, Between;
  }

  lemma CancelEachBetween(s: State, ids: seq<OrderId>)
    ensures Between(s, CancelEach(s, ids))
    decreases |ids|
  {
    hide Cancel, Between;
    if ids == [] {
      Unchanged(s);
    } else {
      CancelBetween(s, ids[0]);
      CancelEachBetween(Cancel(s, ids[0]), ids[1..]);
      BetweenTransitive(s, Cancel(s, ids[0]), CancelEach(s, ids));
    }
  }

  /** Every call but a bar is a change between looks. */
  lemma CallIsBetween(cfg: Config, s: State, c: Command)
    requires !c.Bar? && Step(cfg, s, c).Ok?
    ensures Between(s, Step(cfg, s, c).value)
  {
    hide Between;
    match c
    case SubmitOrder(terms, quantity, stop) =>
      SubmitBetween(cfg, s, NewOrder(terms, quantity, stop).value);
      hide Submit;
    case CancelOrder(id) =>
      CancelBetween(s, id);
      hide Cancel;
    case CancelAll(instrument) =>
      CancelEachBetween(s, WorkingOrders(s, instrument));
      hide CancelEach, WorkingOrders;
  }

  /** What holds at a point of a run and is kept by looks on the bars that follow, and by the changes between them,
      holds
      after the run. */
  lemma {:induction false} RunInductionFrom(cfg: Config, commands: seq<Command>, k: nat, P: State -> bool)
    requires k <= |commands| && Run(cfg, commands).Ok? && Run(cfg, commands[..k]).Ok?
    requires P(Run(cfg, commands[..k]).value) && KeptBetween(P)
    requires forall snap | Command.Bar(snap) in commands :: KeptByLooks(cfg, P, snap)
    ensures P(Run(cfg, commands).value)
    decreases |commands|
  {
    if k == |commands| {
      assert commands[..k] == commands;
    } else {
      var prefix, last := commands[..|commands| - 1], commands[|commands| - 1];
      assert prefix[..k] == commands[..k];
      hide Inv, Sound, Step, KeptByLooks, KeptBetween;
      RunInvariant(cfg, prefix);
      RunSound(cfg, prefix, false);
      RunInductionFrom(cfg, prefix, k, P);
      StepInduction(cfg, Run(cfg, prefix).value, last, P);
    }
  }

  /** In particular what holds of a new broker. */
  lemma RunInduction(cfg: Config, commands: seq<Command>, P: State -> bool)
    requires Run(cfg, commands).Ok? && P(Init) && KeptBetween(P)
    requires forall snap | Command.Bar(snap) in commands :: KeptByLooks(cfg, P, snap)
    ensures P(Run(cfg, commands).value)
  {
    hide KeptByLooks, KeptBetween;
    assert commands[..0] == [];
    RunInductionFrom(cfg, commands, 0, P);
  }

  lemma StepInduction(cfg: Config, s: State, c: Command, P: State -> bool)
    requires Inv(s, {}) && Sound(cfg, s, false) && Step(cfg, s, c).Ok? && P(s) && KeptBetween(P)
    requires c.Bar? ==> KeptByLooks(cfg, P, c.snap)
    ensures P(Step(cfg, s, c).value)
  {
    hide Inv, Sound, ProcessBar, KeptByLooks;
    if c.Bar? {
      BarInduction(cfg, s, c.snap, P);
    } else {
      CallIsBetween(cfg, s, c);
      hide Between, Step;
    }
  }
}
