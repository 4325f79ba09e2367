/** One cancels the other: while no leg prints in part, at most one leg of a bracket ever fills. */
module BrokerOco {
  import opened Types
  import opened Instruments
  import opened Orders
  import opened Execution
  import opened BrokerSpec
  import opened BrokerIndex
  import opened BrokerLedger
  import opened BrokerBrackets

  // ---- what exclusivity rests on -------------------------------------------------------------------------------

  /** No print on the order is flagged partial. */
  ghost predicate Entire(log: seq<Fill>, id: OrderId) {
    forall k | 0 <= k < |log| && log[k].orderId == id :: !log[k].isPartial
  }

  ghost predicate Priced(log: seq<Fill>, id: OrderId) {
    forall k | 0 <= k < |log| && log[k].orderId == id :: log[k].price > 0.0
  }

  /** Neither leg of `p` ever printed in part; and if the entry did, then at prices above zero throughout, so that
      percentage levels are called for on its every print or on none. */
  ghost predicate Tame(log: seq<Fill>, p: OrderId) {
    Entire(log, StopId(p)) && Entire(log, TargetId(p)) && (Entire(log, p) || Priced(log, p))
  }

  lemma TamePrefix(before: seq<Fill>, after: seq<Fill>, p: OrderId)
    requires before <= after && Tame(after, p)
    ensures Tame(before, p)
  {
    assert forall k | 0 <= k < |before| :: before[k] == after[k];
  }

  lemma NeverShortIsTame(cfg: Config, s: State, p: OrderId)
    requires NeverShort(cfg) && Ledger(cfg, s)
    ensures Tame(s.log, p)
  {
    hide NeverShort;
    NeverShortEntire(cfg, s, p);
    NeverShortEntire(cfg, s, StopId(p));
    NeverShortEntire(cfg, s, TargetId(p));
  }

  lemma NeverShortEntire(cfg: Config, s: State, x: OrderId)
    requires NeverShort(cfg) && Ledger(cfg, s)
    ensures Entire(s.log, x)
  {
    hide NeverShort, Tallied;
    forall k | 0 <= k < |s.log| ensures !s.log[k].isPartial {
      assert Honours(cfg, s.log[k], s.orders[s.log[k].orderId].terms);
    }
  }

  lemma {:induction false} EntirePrints(log: seq<Fill>, id: OrderId)
    requires Entire(log, id)
    ensures Prints(log, id) == Completions(log, id)
  {
    if log != [] {
      EntirePrints(log[..|log| - 1], id);
    }
  }

  /** An order that only prints entire is filled, or has nothing filled. */
  lemma EntireIsWhole(cfg: Config, s: State, id: OrderId)
    requires Ledger(cfg, s) && id in s.orders && s.orders[id].terms.id == id && Entire(s.log, id)
    ensures !s.orders[id].status.Filled? ==> s.orders[id].filled == 0.0
    ensures Prints(s.log, id) == (if s.orders[id].status.Filled? then 1 else 0)
  {
    assert Tallied(s.orders[id], s.log);
    EntirePrints(s.log, id);
  }

  // ---- the invariant -------------------------------------------------------------------------------------------

  /** A leg that has filled closed all its parent had. */
  ghost predicate Sized(s: State, x: OrderId, p: OrderId) {
    x in s.orders && s.orders[x].status.Filled? ==> p in s.orders && s.orders[x].quantity == s.orders[p].filled
  }

  /** Two live legs are paired; once one has filled the other is out. */
  ghost predicate Opposed(s: State, x: OrderId, y: OrderId) {
    x in s.orders && y in s.orders ==>
      && (s.orders[x].IsOpen() && s.orders[y].IsOpen() ==> x in s.oco && s.oco[x] == y)
      && (s.orders[x].status.Filled? ==> !s.orders[y].IsOpen() && !s.orders[y].status.Filled?)
  }

  /** At prices above zero the spec calls for every leg there is, whatever the price. */
  ghost predicate Called(s: State, p: OrderId) {
    p in s.orders && s.orders[p].terms.bracket.Some? && Priced(s.log, p) ==>
      var spec, isLong := s.orders[p].terms.bracket.value, s.orders[p].terms.side.Buy?;
      && (StopId(p) in s.orders ==> StopLevel(spec, 1.0, isLong).Some?)
      && (TargetId(p) in s.orders ==> TargetLevel(spec, 1.0, isLong).Some?)
  }

  ghost predicate Matched(s: State, p: OrderId) {
    Opposed(s, StopId(p), TargetId(p)) && Opposed(s, TargetId(p), StopId(p)) && Called(s, p)
  }

  ghost predicate Rivals(s: State, p: OrderId) {
    Sized(s, StopId(p), p) && Sized(s, TargetId(p), p) && Matched(s, p)
  }

  ghost predicate Exclusive(s: State) {
    forall p: OrderId :: Tame(s.log, p) ==> Rivals(s, p)
  }

  /** What the worked order's state rests on. */
  ghost predicate Grounds(cfg: Config, s: State, busy: set<InstrumentId>) {
    Inv(s, busy) && Ledger(cfg, s) && Protective(s)
  }

  lemma GroundsKeyed(cfg: Config, s: State, p: OrderId, busy: set<InstrumentId>)
    requires Grounds(cfg, s, busy) && p in s.orders
    ensures s.orders[p].terms.id == p
    ensures s.orders[p].IsOpen() && s.orders[p].terms.bracket.Some? ==>
        s.brackets.Keys >= {p} && s.brackets[p] == s.orders[p].terms.bracket.value
    ensures p in s.brackets ==> s.orders[p].terms.bracket.Some?
  {
    InvPaired(s, busy);
  }

  /** A leg's parent is a bracketed entry that has filled. */
  lemma LegHasParent(cfg: Config, s: State, x: OrderId, p: OrderId, busy: set<InstrumentId>)
    requires Grounds(cfg, s, busy) && x in s.orders && (x == StopId(p) || x == TargetId(p))
    ensures ChildOf(s, x, p) && (Untouched(s, x) ==> s.orders[x].quantity == s.orders[p].filled)
  {
    LegIds(p);
    assert Guarded(s, x);
  }

  /** A bracketed order is no leg, so it is paired with nobody. */
  lemma BracketedIsUnpaired(cfg: Config, s: State, p: OrderId, busy: set<InstrumentId>)
    requires Grounds(cfg, s, busy) && p in s.orders && s.orders[p].terms.bracket.Some?
    ensures p !in s.oco
  {
    assert LegPair(s, p) && Guarded(s, p);
    hide Inv, Ledger, Protective;
    if p in s.oco {
      LegIds(ParentId(p));
    }
  }

  // ---- what a verdict does to the worked order and the log -----------------------------------------------------

  lemma EnactLog(cfg: Config, s: State, id: OrderId, v: Verdict, i: Instrument, bar: Option<Bar>)
    requires id in s.orders && Enact(cfg, s, id, v, i, bar).Ok?
    ensures Enact(cfg, s, id, v, i, bar).value.log == if v.Print? then s.log + [v.fill] else s.log
  {
    match v
    case Print(a, fill) =>
      var s1 := Record(cfg, s, id, a.Booked(fill), fill);
      ActivateRecords(cfg, s1, id, fill, i);
      hide ActivateBrackets;
      var s2 := ActivateBrackets(cfg, s1, id, fill, i).value;
      SettleOcoEffect(s2, id);
      hide SettleOco;
    case _ =>
      hide ActivateBrackets, FinishPrint, Record, Ratcheted;
  }

  lemma BookedEntire(cfg: Config, o: OrderState, a: OrderState, fill: Fill, at: Time)
    requires o.IsOpen() && Lawful(cfg, o, Print(a, fill), at)
    ensures a.Booked(fill).status.Filled? <==> !fill.isPartial
  {
    hide NeverShort;
  }

  /** How the worked order itself comes out: filled exactly when it printed entire. */
  lemma EnactOwn(cfg: Config, s: State, id: OrderId, v: Verdict, i: Instrument, bar: Option<Bar>, at: Time)
    requires Cancellable(s, id) && s.orders[id].terms.id == id
    requires Lawful(cfg, s.orders[id], v, at) && Enact(cfg, s, id, v, i, bar).Ok?
    ensures
      var o := Enact(cfg, s, id, v, i, bar).value.orders[id];
      && (o.status.Filled? <==> v.Print? && !v.fill.isPartial)
      && (!v.Print? ==> o.filled == s.orders[id].filled)
      && o.terms == s.orders[id].terms
      && (o.IsOpen() ==>
            v.Ineligible? || (v.NoPrint? && !v.order.terms.tif.OneShot()) || (v.Print? && v.fill.isPartial))
  {
    match v
    case Print(a, fill) =>
      BookedEntire(cfg, s.orders[id], a, fill, at);
      LegIds(id);
      hide Lawful;
      var s1 := Record(cfg, s, id, a.Booked(fill), fill);
      ActivateSpares(cfg, s1, id, fill, i, id);
      hide ActivateBrackets, StopId, TargetId;
      var s2 := ActivateBrackets(cfg, s1, id, fill, i).value;
      SettleOcoEffect(s2, id);
      CloseEffect(s2, id, Cancelled);
      hide SettleOco, Close;
    case Lapsed =>
      CloseEffect(s, id, Expired);
      hide Close, ActivateBrackets, FinishPrint, Record, NeverShort;
    case NoPrint(a) =>
      CloseEffect(Put(s, id, Ratcheted(a, bar)), id, Expired);
      hide Close, ActivateBrackets, FinishPrint, Record, NeverShort, Ratcheted;
    case _ =>
  }

  // ---- somebody else's work ------------------------------------------------------------------------------------

  /** A parent with legs is concerned by nobody's work but its own and theirs. */
  lemma ParentSpared(cfg: Config, s: State, id: OrderId, x: OrderId, busy: set<InstrumentId>)
    requires Grounds(cfg, s, busy) && Reserved(x) && x in s.orders && ParentId(x) != id
    ensures ParentId(x) in s.orders && !Concerned(s, id, ParentId(x))
  {
    var p := ParentId(x);
    LegIds(id);
    LegIds(p);
    assert Guarded(s, x) && Guarded(s, p) && LegPair(s, id);
    if id in s.oco {
      LegIds(ParentId(id));
    }
  }

  /** A leg is concerned only by its own work, its parent's and its twin's. */
  lemma LegSpared(s: State, id: OrderId, p: OrderId)
    requires LegPair(s, id) && id != p && id != StopId(p) && id != TargetId(p)
    ensures !Concerned(s, id, StopId(p)) && !Concerned(s, id, TargetId(p))
  {
    LegIdsDiffer(id, p);
    if id in s.oco {
      var q := ParentId(id);
      hide StopId, TargetId, ParentId;
      if q != p {
        LegIdsDiffer(q, p);
      }
    }
  }

  /** The rivals and their parent are as they were, bar the parent's stop and status. */
  ghost predicate SameRivals(s: State, t: State, p: OrderId) {
    && s.log <= t.log && (p in t.orders <==> p in s.orders)
    && (p in s.orders ==> t.orders[p].terms == s.orders[p].terms && t.orders[p].filled == s.orders[p].filled)
    && (forall x | x in {StopId(p), TargetId(p)} ::
          && (x in t.orders <==> x in s.orders) && (x in s.orders ==> t.orders[x] == s.orders[x])
          && (x in s.orders ==> (x in t.oco <==> x in s.oco) && (x in s.oco ==> t.oco[x] == s.oco[x])))
  }

  lemma RivalsStay(s: State, t: State, p: OrderId)
    requires Rivals(s, p) && SameRivals(s, t, p)
    ensures Rivals(t, p)
  {
    hide StopId, TargetId;
    assert StopId(p) in {StopId(p), TargetId(p)} && TargetId(p) in {StopId(p), TargetId(p)};
    assert forall k | 0 <= k < |s.log| :: s.log[k] == t.log[k];
  }

  lemma SparedRivals(s: State, t: State, p: OrderId)
    requires s.log <= t.log && Rivals(s, p) && p in s.orders && p in t.orders
    requires t.orders[p].terms == s.orders[p].terms && t.orders[p].filled == s.orders[p].filled
    requires StopId(p) in s.orders ==> Spared(s, t, StopId(p))
    requires TargetId(p) in s.orders ==> Spared(s, t, TargetId(p))
    requires StopId(p) in t.orders ==> StopId(p) in s.orders
    requires TargetId(p) in t.orders ==> TargetId(p) in s.orders
    ensures Rivals(t, p)
  {
    hide StopId, TargetId, Rivals;
    RivalsStay(s, t, p);
  }

  lemma NoRivals(s: State, p: OrderId)
    requires StopId(p) !in s.orders && TargetId(p) !in s.orders
    ensures Rivals(s, p)
  {
    hide StopId, TargetId;
  }

  /** Working somebody else leaves the rivals as they are. */
  lemma OthersWork(cfg: Config, s: State, t: State, id: OrderId, v: Verdict, i: Instrument, bar: Option<Bar>,
                   p: OrderId, busy: set<InstrumentId>)
    requires Grounds(cfg, s, busy) && Cancellable(s, id) && s.orders[id].terms.instrument in busy
    requires IsVerdict(s.orders[id], v, s.nextFill + 1) && Enact(cfg, s, id, v, i, bar) == Ok(t)
    requires OnlyWorked(s, t, id) && s.log <= t.log && Rivals(s, p) && id != p && id != StopId(p) && id != TargetId(p)
    ensures Rivals(t, p)
  {
    var x, y := StopId(p), TargetId(p);
    LegIds(p);
    LegIds(id);
    assert LegPair(s, id);
    LegSpared(s, id, p);
    assert x in t.orders ==> x in s.orders;
    assert y in t.orders ==> y in s.orders;
    hide Ledger, Protective, Enact, IsVerdict, OnlyWorked, Rivals, Reserved, ParentId, StopId, TargetId, Spared, Inv;
    if x in s.orders || y in s.orders {
      ParentSpared(cfg, s, id, if x in s.orders then x else y, busy);
      hide Concerned;
      EnactSpares(cfg, s, id, v, i, bar, p, busy);
      if x in s.orders {
        EnactSpares(cfg, s, id, v, i, bar, x, busy);
      }
      if y in s.orders {
        EnactSpares(cfg, s, id, v, i, bar, y, busy);
      }
      SparedRivals(s, t, p);
    } else {
      NoRivals(t, p);
    }
  }

  // ---- the pair ------------------------------------------------------------------------------------------------

  /** A leg has no bracket of its own, and is not its own sibling. */
  lemma LegIsPlain(cfg: Config, s: State, id: OrderId, busy: set<InstrumentId>)
    requires Grounds(cfg, s, busy) && Reserved(id) && id in s.orders
    ensures id !in s.brackets && s.orders[id].terms.id == id && (id in s.oco ==> s.oco[id] != id)
  {
    InvPaired(s, busy);
    assert Guarded(s, id);
    hide Inv, Ledger, Protective, Reserved;
  }

  /** A print on one of two live paired legs leaves the other open exactly when it falls short of what remained by
      more than the tolerance: then the sibling keeps its whole size, whether the rest is carried or dropped. */
  lemma SiblingSurvivesIffShort(cfg: Config, s: State, id: OrderId, a: OrderState, fill: Fill, i: Instrument,
                                bar: Option<Bar>, y: OrderId, at: Time, busy: set<InstrumentId>)
    requires Grounds(cfg, s, busy) && Cancellable(s, id) && s.orders[id].terms.instrument in busy
    requires Lawful(cfg, s.orders[id], Print(a, fill), at) && Enact(cfg, s, id, Print(a, fill), i, bar).Ok?
    requires Reserved(id) && id in s.oco && s.oco[id] == y && Cancellable(s, y)
    ensures
      var t := Enact(cfg, s, id, Print(a, fill), i, bar).value;
      && y in t.orders && (t.orders[y].IsOpen() <==> fill.quantity < s.orders[id].Remaining() - QUANTITY_TOLERANCE)
      && (t.orders[y].IsOpen() ==> t.orders[y] == s.orders[y])
  {
    var s1 := Record(cfg, s, id, a.Booked(fill), fill);
    LegIsPlain(cfg, s, id, busy);
    BookedEntire(cfg, s.orders[id], a, fill, at);
    hide Grounds, Reserved, Lawful, OrderState.Booked;
    PrintSteps(cfg, s, id, a, fill, i, bar);
    assert ActivateBrackets(cfg, s1, id, fill, i) == Ok(s1);
    FinishSettles(cfg, s1, id, y);
    hide ActivateBrackets, FinishPrint, Enact, Ratcheted;
  }

  /** What follows a print closes the sibling if it filled the order, and leaves it be otherwise. */
  lemma FinishSettles(cfg: Config, s: State, id: OrderId, y: OrderId)
    requires id in s.orders && s.orders[id].terms.id == id && id in s.oco && s.oco[id] == y
    requires y != id && Cancellable(s, y)
    ensures y in FinishPrint(cfg, s, id).orders
    ensures FinishPrint(cfg, s, id).orders[y].IsOpen() <==> !s.orders[id].status.Filled?
    ensures FinishPrint(cfg, s, id).orders[y].IsOpen() ==> FinishPrint(cfg, s, id).orders[y] == s.orders[y]
  {
    SettleOcoEffect(s, id);
    CloseEffect(s, id, Cancelled);
    hide SettleOco, Close;
  }

  /** What working leg `x` of the pair `x`, `y` comes to, once the dust has settled. */
  lemma PairAfterLeg(s: State, t: State, p: OrderId, x: OrderId, y: OrderId)
    requires x in s.orders && Sized(s, y, p) && Opposed(s, x, y) && Opposed(s, y, x)
    requires s.orders[x].IsOpen() && Spared(s, t, p) && x in t.orders
    requires t.orders[x].status.Filled? ==> t.orders[x].quantity == t.orders[p].filled
    requires y in t.orders <==> y in s.orders
    requires y in s.orders ==> Quiet(s.orders[y], t.orders[y]) && t.orders[y].quantity == s.orders[y].quantity
    requires t.orders[x].IsOpen() ==> t.oco == s.oco
    requires t.orders[x].status.Filled? && y in t.orders ==> !t.orders[y].IsOpen()
    ensures Sized(t, x, p) && Sized(t, y, p) && Opposed(t, x, y) && Opposed(t, y, x)
  {
  }

  lemma LegBystanders(s: State, t: State, id: OrderId, p: OrderId, y: OrderId)
    requires (id == StopId(p) && y == TargetId(p)) || (id == TargetId(p) && y == StopId(p))
    requires id in s.orders && OnlyWorked(s, t, id)
    ensures t.orders[id].quantity == s.orders[id].quantity && y != id && p != id
    ensures y in t.orders <==> y in s.orders
    ensures y in s.orders ==> Quiet(s.orders[y], t.orders[y]) && t.orders[y].quantity == s.orders[y].quantity
    ensures y in s.orders && t.orders[y].IsOpen() ==> s.orders[y].IsOpen()
  {
    LegIds(p);
    LegIds(id);
    hide StopId, TargetId, Reserved, ParentId;
  }

  lemma RivalsOpposed(s: State, p: OrderId)
    requires Rivals(s, p)
    ensures Opposed(s, StopId(p), TargetId(p)) && Opposed(s, TargetId(p), StopId(p))
  {
  }

  /** Working one leg, as far as the pair is concerned. */
  lemma LegWork(cfg: Config, s: State, t: State, id: OrderId, v: Verdict, i: Instrument, bar: Option<Bar>, at: Time,
                p: OrderId, y: OrderId, busy: set<InstrumentId>)
    requires Grounds(cfg, s, busy) && Cancellable(s, id) && s.orders[id].terms.instrument in busy
    requires IsVerdict(s.orders[id], v, s.nextFill + 1) && Lawful(cfg, s.orders[id], v, at)
    requires Enact(cfg, s, id, v, i, bar) == Ok(t)
    requires OnlyWorked(s, t, id) && s.log <= t.log && Tame(t.log, p) && Rivals(s, p)
    requires (id == StopId(p) && y == TargetId(p)) || (id == TargetId(p) && y == StopId(p))
    ensures Rivals(t, p)
  {
    LegIds(p);
    hide Ledger, Protective, Enact, IsVerdict, ChildOf, OnlyWorked, StopId, TargetId, Reserved, ParentId, Lawful, Quiet,
         Inv;
    hide Rivals, Entire, Opposed, Sized, Called, Priced;
    LegBystanders(s, t, id, p, y);
    TamePrefix(s.log, t.log, p);
    LegHasParent(cfg, s, id, p, busy);
    RivalsOpposed(s, p);
    ParentSpared(cfg, s, id, id, busy);
    EnactSpares(cfg, s, id, v, i, bar, p, busy);
    LegOutcome(cfg, s, t, id, v, i, bar, at, y, busy);
    hide Concerned;
    RivalsAfterLeg(s, t, p, id, y);
  }

  /** A leg that only prints entire is filled to its size, closing its twin, or has not printed. */
  lemma LegOutcome(cfg: Config, s: State, t: State, id: OrderId, v: Verdict, i: Instrument, bar: Option<Bar>, at: Time,
                   y: OrderId, busy: set<InstrumentId>)
    requires Grounds(cfg, s, busy) && Cancellable(s, id) && s.orders[id].terms.instrument in busy && Reserved(id)
    requires Lawful(cfg, s.orders[id], v, at) && Enact(cfg, s, id, v, i, bar) == Ok(t)
    requires Entire(s.log, id) && Entire(t.log, id)
    requires Opposed(s, id, y) && (y in t.orders ==> y in s.orders)
    requires y in s.orders ==> y in t.orders && (t.orders[y].IsOpen() ==> s.orders[y].IsOpen())
    ensures Untouched(s, id) && id in t.orders
    ensures t.orders[id].IsOpen() ==> t.oco == s.oco
    ensures t.orders[id].status.Filled? && y in t.orders ==> !t.orders[y].IsOpen()
  {
    GroundsKeyed(cfg, s, id, busy);
    EntireIsWhole(cfg, s, id);
    EnactOwn(cfg, s, id, v, i, bar, at);
    EnactLog(cfg, s, id, v, i, bar);
    hide Enact, Inv, Ledger, Protective, Reserved;
    if v.Print? {
      assert v.fill.orderId == id;
      assert t.log[|s.log|] == v.fill;
      if y in s.orders && s.orders[y].IsOpen() {
        SiblingSurvivesIffShort(cfg, s, id, v.order, v.fill, i, bar, y, at, busy);
      }
    } else if t.orders[id].IsOpen() {
      LegStillPaired(cfg, s, id, v, i, bar);
    }
  }

  lemma RivalsAfterLeg(s: State, t: State, p: OrderId, x: OrderId, y: OrderId)
    requires (x == StopId(p) && y == TargetId(p)) || (x == TargetId(p) && y == StopId(p))
    requires Rivals(s, p) && s.log <= t.log && Untouched(s, x) && Spared(s, t, p) && x in t.orders
    requires t.orders[x].quantity == s.orders[x].quantity == s.orders[p].filled
    requires y in t.orders <==> y in s.orders
    requires y in s.orders ==> Quiet(s.orders[y], t.orders[y]) && t.orders[y].quantity == s.orders[y].quantity
    requires t.orders[x].IsOpen() ==> t.oco == s.oco
    requires t.orders[x].status.Filled? && y in t.orders ==> !t.orders[y].IsOpen()
    ensures Rivals(t, p)
  {
    hide StopId, TargetId;
    PairAfterLeg(s, t, p, x, y);
    assert forall k | 0 <= k < |s.log| :: s.log[k] == t.log[k];
  }

  lemma LegStillPaired(cfg: Config, s: State, id: OrderId, v: Verdict, i: Instrument, bar: Option<Bar>)
    requires id in s.orders && Enact(cfg, s, id, v, i, bar).Ok?
    requires v.Ineligible? || (v.NoPrint? && !v.order.terms.tif.OneShot())
    ensures Enact(cfg, s, id, v, i, bar).value.oco == s.oco
  {
  }

  // ---- the parent ----------------------------------------------------------------------------------------------

  /** A parent that does not print changes neither its legs nor what it has filled. */
  lemma ParentWaits(cfg: Config, s: State, t: State, p: OrderId, v: Verdict, i: Instrument, bar: Option<Bar>, at: Time,
                    busy: set<InstrumentId>)
    requires Grounds(cfg, s, busy) && Cancellable(s, p) && Rivals(s, p) && !v.Print?
    requires Lawful(cfg, s.orders[p], v, at) && Enact(cfg, s, p, v, i, bar) == Ok(t)
    ensures Rivals(t, p)
  {
    LegIds(p);
    GroundsKeyed(cfg, s, p, busy);
    var x, y := StopId(p), TargetId(p);
    EnactKeys(cfg, s, p, v, i, bar);
    EnactLog(cfg, s, p, v, i, bar);
    EnactOwn(cfg, s, p, v, i, bar, at);
    hide Lawful, StopId, TargetId, Enact, Inv, Ledger, Protective, Rivals, Reserved, ParentId;
    if x in s.orders || y in s.orders {
      ParentBracketed(cfg, s, if x in s.orders then x else y, p, busy);
      BracketedIsUnpaired(cfg, s, p, busy);
      hide Grounds;
      if x in s.orders {
        WaitSpares(cfg, s, t, p, v, i, bar, x);
      }
      if y in s.orders {
        WaitSpares(cfg, s, t, p, v, i, bar, y);
      }
      hide Spared;
      SparedRivals(s, t, p);
    } else {
      NoRivals(t, p);
    }
  }

  lemma ParentBracketed(cfg: Config, s: State, x: OrderId, p: OrderId, busy: set<InstrumentId>)
    requires Grounds(cfg, s, busy) && x in s.orders && (x == StopId(p) || x == TargetId(p))
    ensures p in s.orders && s.orders[p].terms.bracket.Some? && s.orders[p].filled > 0.0
  {
    hide StopId, TargetId, Inv, Ledger, Protective;
    LegHasParent(cfg, s, x, p, busy);
  }

  lemma WaitSpares(cfg: Config, s: State, t: State, p: OrderId, v: Verdict, i: Instrument, bar: Option<Bar>, x: OrderId)
    requires p in s.orders && s.orders[p].terms.id == p && p !in s.oco && x in s.orders && x != p && !v.Print?
    requires Enact(cfg, s, p, v, i, bar) == Ok(t)
    ensures Spared(s, t, x)
  {
    hide ActivateBrackets, Record, FinishPrint, Ratcheted, Unshelve;
  }

  lemma EnactKeys(cfg: Config, s: State, id: OrderId, v: Verdict, i: Instrument, bar: Option<Bar>)
    requires id in s.orders && Enact(cfg, s, id, v, i, bar).Ok? && !v.Print?
    ensures Enact(cfg, s, id, v, i, bar).value.orders.Keys == s.orders.Keys
  {
  }

  /** Above zero a percentage level is there at every price or at none. */
  lemma LevelsSteady(spec: BracketSpec, entry: real, isLong: bool)
    requires entry > 0.0
    ensures StopLevel(spec, entry, isLong).Some? <==> StopLevel(spec, 1.0, isLong).Some?
    ensures TargetLevel(spec, entry, isLong).Some? <==> TargetLevel(spec, 1.0, isLong).Some?
  {
  }

  /** Below zero it need not be: an entry stopped out of at 100, whose average a later print takes to -500, has its
      percentage stop called for no more, so that print neither raises nor is protected. */
  lemma LevelsVanish(cfg: Config, s: State, p: OrderId, fill: Fill, i: Instrument)
    requires p in s.orders && s.orders[p].avgPrice == -500.0 && s.orders[p].terms.side.Buy?
    requires p in s.brackets && s.brackets[p] == BracketSpec(None, Some(0.1), None, None, None)
    requires StopId(p) in s.orders && s.orders[StopId(p)].status.Filled? && TargetId(p) !in s.orders
    ensures StopLevel(s.brackets[p], 100.0, true) == Some(90.0)
    ensures ActivateBrackets(cfg, s, p, fill, i) == Ok(s)
  {
  }

  lemma {:induction false} PaidAboveZero(log: seq<Fill>, id: OrderId)
    requires Priced(log, id)
    requires forall k | 0 <= k < |log| && log[k].orderId == id :: log[k].quantity > 0.0
    ensures PaidIn(log, id) >= 0.0 && (Prints(log, id) > 0 ==> PaidIn(log, id) > 0.0)
  {
    if log != [] {
      PaidAboveZero(log[..|log| - 1], id);
    }
  }

  /** Printed at prices above zero, an order's average is above zero. */
  lemma AverageAboveZero(cfg: Config, s: State, p: OrderId)
    requires Ledger(cfg, s) && p in s.orders && s.orders[p].terms.id == p && Priced(s.log, p) && Prints(s.log, p) > 0
    ensures s.orders[p].avgPrice > 0.0
  {
    forall k | 0 <= k < |s.log| && s.log[k].orderId == p ensures s.log[k].quantity > 0.0 {
      assert Honours(cfg, s.log[k], s.orders[p].terms);
    }
    PaidAboveZero(s.log, p);
    assert Tallied(s.orders[p], s.log);
    var average, sum := s.orders[p].avgPrice, FilledIn(s.log, p);
    assert average * sum > 0.0 && sum > 0.0;
  }

  /** The spec calls for the legs whose levels it gives. */
  lemma LegsByLevel(parent: OrderState, spec: BracketSpec, fill: Fill, i: Instrument)
    requires Legs(parent, spec, fill, i).Ok? && parent.avgPrice != 0.0
    ensures
      var legs := Legs(parent, spec, fill, i).value;
      && ((exists k :: 0 <= k < |legs| && legs[k].terms.id == StopId(parent.terms.id))
            <==> StopLevel(spec, parent.avgPrice, parent.terms.side.Buy?).Some?)
      && ((exists k :: 0 <= k < |legs| && legs[k].terms.id == TargetId(parent.terms.id))
            <==> TargetLevel(spec, parent.avgPrice, parent.terms.side.Buy?).Some?)
  {
    LegIds(parent.terms.id);
    hide StopLevel, TargetLevel, StopId, TargetId;
    var legs := Legs(parent, spec, fill, i).value;
    assert |legs| > 0 ==> legs[0].terms.id in {StopId(parent.terms.id), TargetId(parent.terms.id)};
    assert |legs| > 1 ==> legs[1].terms.id == TargetId(parent.terms.id);
  }

  /** Once there is a leg and none can be resized, the next print on an entry priced above zero raises. */
  lemma RaisesAgain(cfg: Config, s: State, p: OrderId, fill: Fill, i: Instrument, x: OrderId, busy: set<InstrumentId>)
    requires Inv(s, busy) && p in s.orders && s.orders[p].terms.id == p && s.orders[p].avgPrice > 0.0
    requires s.orders[p].terms.bracket.Some? && p in s.brackets && s.brackets[p] == s.orders[p].terms.bracket.value
    requires Called(s, p) && Priced(s.log, p) && !Untouched(s, StopId(p)) && !Untouched(s, TargetId(p))
    requires x in s.orders && (x == StopId(p) || x == TargetId(p))
    ensures ActivateBrackets(cfg, s, p, fill, i).Raised?
  {
    var parent, spec := s.orders[p], s.brackets[p];
    if ActivateBrackets(cfg, s, p, fill, i).Ok? {
      var legs := Legs(parent, spec, fill, i).value;
      hide Inv;
      SubmitLegsEffect(cfg, s, legs, busy);
      forall k | 0 <= k < |legs| ensures legs[k].terms.id !in s.orders {
        assert legs[k] in legs;
      }
      LevelsSteady(spec, parent.avgPrice, parent.terms.side.Buy?);
      LegsByLevel(parent, spec, fill, i);
      hide Legs, SubmitLegs, StopLevel, TargetLevel, StopId, TargetId;
    }
  }

  lemma ResizeRivals(s: State, p: OrderId, quantity: real)
    requires Matched(s, p) && p in s.orders && (Untouched(s, StopId(p)) || Untouched(s, TargetId(p)))
    ensures Rivals(Resized(Resized(s, StopId(p), quantity), TargetId(p), quantity), p)
  {
    LegIds(p);
    hide StopId, TargetId, Reserved, ParentId, StopLevel, TargetLevel;
  }

  lemma FreshLeg(cfg: Config, s: State, legs: seq<OrderState>, parent: OrderState, at: Time, x: OrderId)
    requires SubmitLegs(cfg, s, legs).Ok? && x !in s.orders && x in SubmitLegs(cfg, s, legs).value.orders
    requires forall k | 0 <= k < |legs| :: IsLegOf(legs[k], parent, at)
    ensures !SubmitLegs(cfg, s, legs).value.orders[x].status.Filled?
    ensures exists k :: 0 <= k < |legs| && legs[k].terms.id == x
  {
    hide SubmitLegs, StopId, TargetId;
    SubmitLegsNew(cfg, s, legs, x);
  }

  lemma PairedLegs(t: State, legs: seq<OrderState>, p: OrderId)
    requires p in t.orders && |legs| <= 2
    requires |legs| == 2 ==> legs[0].terms.id == StopId(p) && legs[1].terms.id == TargetId(p)
    requires forall x | x in {StopId(p), TargetId(p)} && x in t.orders ::
               !t.orders[x].status.Filled? && exists k :: 0 <= k < |legs| && legs[k].terms.id == x
    requires Called(t, p)
    ensures Rivals(Pair(t, legs), p)
  {
    LegIds(p);
    hide StopId, TargetId, StopLevel, TargetLevel;
    var x, y := StopId(p), TargetId(p);
    assert x in {x, y} && y in {x, y};
    if x in t.orders && y in t.orders {
      assert |legs| == 2;
    }
  }

  /** The first print of an entry raises its legs together, unfilled and paired. */
  lemma FreshPair(cfg: Config, s: State, p: OrderId, fill: Fill, i: Instrument)
    requires p in s.orders && s.orders[p].terms.id == p
    requires (p in s.brackets ==> s.orders[p].terms.bracket == Some(s.brackets[p]))
    requires Priced(s.log, p) ==> s.orders[p].avgPrice > 0.0
    requires StopId(p) !in s.orders && TargetId(p) !in s.orders && ActivateBrackets(cfg, s, p, fill, i).Ok?
    ensures Rivals(ActivateBrackets(cfg, s, p, fill, i).value, p)
  {
    LegIds(p);
    if p in s.brackets {
      var parent, spec := s.orders[p], s.brackets[p];
      var legs := Legs(parent, spec, fill, i).value;
      LegsAreLegs(parent, spec, fill, i);
      var t := SubmitLegs(cfg, s, legs).value;
      hide StopId, TargetId, Legs, SubmitLegs, Rivals, StopLevel, TargetLevel;
      SubmitLegsStatus(cfg, s, legs);
      SubmitLegsLog(cfg, s, legs);
      if StopId(p) in t.orders {
        FreshLeg(cfg, s, legs, parent, fill.timestamp, StopId(p));
      }
      if TargetId(p) in t.orders {
        FreshLeg(cfg, s, legs, parent, fill.timestamp, TargetId(p));
      }
      hide IsLegOf;
      if Priced(s.log, p) {
        LegsByLevel(parent, spec, fill, i);
        LevelsSteady(spec, parent.avgPrice, parent.terms.side.Buy?);
      }
      PairedLegs(t, legs, p);
    } else {
      NoRivals(s, p);
    }
  }

  /** Seeing to the legs after a print keeps them rivals. */
  lemma ActivateRivals(cfg: Config, s: State, p: OrderId, fill: Fill, i: Instrument, busy: set<InstrumentId>)
    requires Inv(s, busy) && p in s.orders && s.orders[p].terms.id == p
    requires (p in s.brackets ==> s.orders[p].terms.bracket == Some(s.brackets[p]))
    requires Priced(s.log, p) ==> s.orders[p].avgPrice > 0.0
    requires StopId(p) in s.orders || TargetId(p) in s.orders ==> p in s.brackets && Priced(s.log, p)
    requires Matched(s, p) && ActivateBrackets(cfg, s, p, fill, i).Ok?
    ensures Rivals(ActivateBrackets(cfg, s, p, fill, i).value, p)
  {
    hide Inv, Priced, StopId, TargetId;
    if StopId(p) !in s.orders && TargetId(p) !in s.orders {
      FreshPair(cfg, s, p, fill, i);
    } else if Untouched(s, StopId(p)) || Untouched(s, TargetId(p)) {
      hide Rivals, Matched;
      ResizeRivals(s, p, s.orders[p].filled);
    } else {
      hide ActivateBrackets;
      RaisesAgain(cfg, s, p, fill, i, if StopId(p) in s.orders then StopId(p) else TargetId(p), busy);
      assert false;
    }
  }

  lemma FinishRivals(cfg: Config, s: State, p: OrderId)
    requires Rivals(s, p) && p in s.orders && s.orders[p].terms.id == p
    requires (StopId(p) in s.orders || TargetId(p) in s.orders ==> p !in s.oco)
    ensures Rivals(FinishPrint(cfg, s, p), p)
  {
    LegIds(p);
    SettleOcoEffect(s, p);
    CloseEffect(s, p, Cancelled);
    var t := FinishPrint(cfg, s, p);
    hide StopId, TargetId, Rivals, Reserved, ParentId, SettleOco;
    if StopId(p) in s.orders || TargetId(p) in s.orders {
      hide Unshelve;
      assert t.oco == s.oco;
      hide Close;
      SparedRivals(s, t, p);
    } else {
      hide Close;
      NoRivals(t, p);
    }
  }

  lemma RatchetRivals(s: State, p: OrderId, bar: Option<Bar>)
    requires Rivals(s, p) && p in s.orders && s.orders[p].terms.id == p
    ensures Rivals(Put(s, p, Ratcheted(s.orders[p], bar)), p)
  {
    LegIds(p);
    hide StopId, TargetId, Rivals, Reserved, ParentId, Ratcheted;
    SparedRivals(s, Put(s, p, Ratcheted(s.orders[p], bar)), p);
  }

  /** A parent's print, booked: its legs are as they were, and there are none unless its every price is above zero. */
  lemma BookedRivals(cfg: Config, s: State, p: OrderId, a: OrderState, fill: Fill, at: Time, busy: set<InstrumentId>)
    requires Grounds(cfg, s, busy) && Cancellable(s, p) && s.orders[p].terms.instrument in busy && Rivals(s, p)
    requires Lawful(cfg, s.orders[p], Print(a, fill), at) && IsVerdict(s.orders[p], Print(a, fill), s.nextFill + 1)
    requires Tame(s.log + [fill], p)
    ensures
      var s1 := Record(cfg, s, p, a.Booked(fill), fill);
      && Inv(s1, busy) && Ledger(cfg, s1) && Matched(s1, p) && s1.orders[p].terms == s.orders[p].terms
      && s1.orders[p].terms.id == p
      && (p in s1.brackets ==> p !in s1.oco && s1.orders[p].terms.bracket == Some(s1.brackets[p]))
      && (Priced(s1.log, p) ==> s1.orders[p].avgPrice > 0.0)
      && (StopId(p) in s1.orders || TargetId(p) in s1.orders ==> p in s1.brackets && Priced(s1.log, p))
  {
    var s1 := Record(cfg, s, p, a.Booked(fill), fill);
    InvPaired(s, busy);
    RecordKeeps(cfg, s, p, a, fill, busy);
    RecordLedger(cfg, s, p, a, fill, at);
    SumsAppend(s.log, fill, p);
    LegIds(p);
    hide Inv, Ledger, Protective, Lawful, IsVerdict, StopId, TargetId, Rivals, Matched, Reserved, ParentId, Entire,
         Priced;
    if Priced(s1.log, p) {
      AverageAboveZero(cfg, s1, p);
    }
    BookedSame(cfg, s, p, a, fill);
    GroundsKeyed(cfg, s, p, busy);
    if p in s.brackets {
      BracketedIsUnpaired(cfg, s, p, busy);
    }
    OpenWithLegs(cfg, s, s1.log, p, busy);
  }

  /** An entry that still prints beside its legs has printed in part, and so at prices above zero. */
  lemma OpenWithLegs(cfg: Config, s: State, log: seq<Fill>, p: OrderId, busy: set<InstrumentId>)
    requires Grounds(cfg, s, busy) && Cancellable(s, p) && s.log <= log && Tame(log, p)
    ensures StopId(p) in s.orders || TargetId(p) in s.orders ==> p in s.brackets && Priced(log, p)
  {
    GroundsKeyed(cfg, s, p, busy);
    hide Inv, Ledger, Protective, StopId, TargetId, Entire, Priced;
    if StopId(p) in s.orders || TargetId(p) in s.orders {
      ParentBracketed(cfg, s, if StopId(p) in s.orders then StopId(p) else TargetId(p), p, busy);
      if Entire(log, p) {
        EntirePrefix(s.log, log, p);
        EntireIsWhole(cfg, s, p);
        assert false;
      }
    }
  }

  lemma EntirePrefix(before: seq<Fill>, after: seq<Fill>, id: OrderId)
    requires before <= after && Entire(after, id)
    ensures Entire(before, id)
  {
    assert forall k | 0 <= k < |before| :: before[k] == after[k];
  }

  lemma BookedSame(cfg: Config, s: State, p: OrderId, a: OrderState, fill: Fill)
    requires Rivals(s, p) && Cancellable(s, p) && a.terms == s.orders[p].terms && fill.orderId == p
    ensures Matched(Record(cfg, s, p, a.Booked(fill), fill), p)
  {
    LegIds(p);
    hide StopId, TargetId, StopLevel, TargetLevel, Reserved, ParentId;
    var t := Record(cfg, s, p, a.Booked(fill), fill);
    assert forall k | 0 <= k < |s.log| :: s.log[k] == t.log[k];
  }

  /** A parent's own print: its legs are raised, resized, or the call raises. */
  lemma ParentPrints(cfg: Config, s: State, t: State, p: OrderId, a: OrderState, fill: Fill, i: Instrument,
                     bar: Option<Bar>, at: Time, busy: set<InstrumentId>)
    requires Grounds(cfg, s, busy) && Cancellable(s, p) && s.orders[p].terms.instrument in busy && Rivals(s, p)
    requires Lawful(cfg, s.orders[p], Print(a, fill), at) && IsVerdict(s.orders[p], Print(a, fill), s.nextFill + 1)
    requires Enact(cfg, s, p, Print(a, fill), i, bar) == Ok(t) && Tame(s.log + [fill], p)
    ensures Rivals(t, p)
  {
    assert p in s.orders;
    hide *;
    BookedRivals(cfg, s, p, a, fill, at, busy);
    PrintSteps(cfg, s, p, a, fill, i, bar);
    AftermathRivals(cfg, Record(cfg, s, p, a.Booked(fill), fill), p, fill, i, bar, busy);
  }

  lemma PrintSteps(cfg: Config, s: State, id: OrderId, a: OrderState, fill: Fill, i: Instrument, bar: Option<Bar>)
    requires id in s.orders && Enact(cfg, s, id, Print(a, fill), i, bar).Ok?
    ensures
      var s1 := Record(cfg, s, id, a.Booked(fill), fill);
      && id in s1.orders && ActivateBrackets(cfg, s1, id, fill, i).Ok?
      && var s3 := FinishPrint(cfg, ActivateBrackets(cfg, s1, id, fill, i).value, id);
         id in s3.orders && Enact(cfg, s, id, Print(a, fill), i, bar) == Ok(Put(s3, id, Ratcheted(s3.orders[id], bar)))
  {
    hide ActivateBrackets, FinishPrint, Ratcheted, OrderState.Booked;
  }

  lemma AftermathRivals(cfg: Config, s: State, p: OrderId, fill: Fill, i: Instrument, bar: Option<Bar>,
                        busy: set<InstrumentId>)
    requires Inv(s, busy) && p in s.orders && s.orders[p].terms.id == p && Matched(s, p)
    requires p in s.brackets ==> p !in s.oco && s.orders[p].terms.bracket == Some(s.brackets[p])
    requires Priced(s.log, p) ==> s.orders[p].avgPrice > 0.0
    requires StopId(p) in s.orders || TargetId(p) in s.orders ==> p in s.brackets && Priced(s.log, p)
    requires ActivateBrackets(cfg, s, p, fill, i).Ok?
    ensures
      var s3 := FinishPrint(cfg, ActivateBrackets(cfg, s, p, fill, i).value, p);
      Rivals(Put(s3, p, Ratcheted(s3.orders[p], bar)), p)
  {
    LegIds(p);
    hide Inv, Rivals, Matched, StopId, TargetId, Reserved, ParentId, ActivateBrackets, FinishPrint, Ratcheted, Priced;
    var s2 := ActivateBrackets(cfg, s, p, fill, i).value;
    ActivateRivals(cfg, s, p, fill, i, busy);
    ActivateSpares(cfg, s, p, fill, i, p);
    if p !in s.brackets {
      LegsNeedBracket(cfg, s, p, fill, i);
    }
    FinishRivals(cfg, s2, p);
    FinishTerms(cfg, s2, p);
    RatchetRivals(FinishPrint(cfg, s2, p), p, bar);
  }

  lemma FinishTerms(cfg: Config, s: State, id: OrderId)
    requires id in s.orders && s.orders[id].terms.id == id
    ensures id in FinishPrint(cfg, s, id).orders && FinishPrint(cfg, s, id).orders[id].terms == s.orders[id].terms
  {
    SettleOcoEffect(s, id);
    CloseEffect(s, id, Cancelled);
    hide SettleOco, Close;
  }

  lemma LegsNeedBracket(cfg: Config, s: State, p: OrderId, fill: Fill, i: Instrument)
    requires p in s.orders && p !in s.brackets && ActivateBrackets(cfg, s, p, fill, i).Ok?
    ensures ActivateBrackets(cfg, s, p, fill, i).value == s
  {
  }

  /** Carrying out any verdict keeps every bracket exclusive. */
  lemma EnactExclusive(cfg: Config, s: State, id: OrderId, v: Verdict, i: Instrument, bar: Option<Bar>, at: Time,
                       busy: set<InstrumentId>)
    requires Grounds(cfg, s, busy) && Exclusive(s) && Cancellable(s, id) && s.orders[id].terms.instrument in busy
    requires IsVerdict(s.orders[id], v, s.nextFill + 1) && Lawful(cfg, s.orders[id], v, at)
    requires Enact(cfg, s, id, v, i, bar).Ok?
    ensures Exclusive(Enact(cfg, s, id, v, i, bar).value)
  {
    var t := Enact(cfg, s, id, v, i, bar).value;
    InvPaired(s, busy);
    hide Inv, Ledger, Protective, Enact, IsVerdict, Lawful, Tame, Rivals;
    EnactOnlyWorked(cfg, s, id, v, i, bar, at);
    EnactLog(cfg, s, id, v, i, bar);
    forall p: OrderId | Tame(t.log, p) ensures Rivals(t, p) {
      TamePrefix(s.log, t.log, p);
      hide OnlyWorked, StopId, TargetId;
      if id == p {
        if v.Print? {
          ParentPrints(cfg, s, t, p, v.order, v.fill, i, bar, at, busy);
        } else {
          ParentWaits(cfg, s, t, p, v, i, bar, at, busy);
        }
      } else if id == StopId(p) {
        LegWork(cfg, s, t, id, v, i, bar, at, p, TargetId(p), busy);
      } else if id == TargetId(p) {
        LegWork(cfg, s, t, id, v, i, bar, at, p, StopId(p), busy);
      } else {
        OthersWork(cfg, s, t, id, v, i, bar, p, busy);
      }
    }
  }
}
