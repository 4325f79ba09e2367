/** Bracket legs over whole runs: their ids, and that each protects what its parent has filled. */
module BrokerBrackets {
  import opened Types
  import opened Instruments
  import opened Orders
  import opened Execution
  import opened BrokerSpec
  import opened BrokerIndex
  import opened BrokerLedger

  // ---- leg ids -------------------------------------------------------------------------------------------------

  /** The suffixes the broker keeps for its own legs. */
  predicate Reserved(id: OrderId) {
    |id| >= 3 && (id[|id| - 3..] == STOP_SUFFIX || id[|id| - 3..] == TARGET_SUFFIX)
  }

  function ParentId(leg: OrderId): OrderId {
    if |leg| >= 3 then leg[..|leg| - 3] else leg
  }

  lemma LegIds(parent: OrderId)
    ensures Reserved(StopId(parent)) && Reserved(TargetId(parent))
    ensures ParentId(StopId(parent)) == parent && ParentId(TargetId(parent)) == parent
    ensures StopId(parent) != TargetId(parent) && StopId(parent) != parent && TargetId(parent) != parent
  {
    var s, t := StopId(parent), TargetId(parent);
    assert s[|s| - 3..] == STOP_SUFFIX && t[|t| - 3..] == TARGET_SUFFIX;
    assert s[|s| - 2] == 'S' && t[|t| - 2] == 'T';
    assert |s| == |parent| + 3 && |t| == |parent| + 3;
  }

  lemma LegIdsDiffer(p: OrderId, q: OrderId)
    requires p != q
    ensures StopId(p) != StopId(q) && StopId(p) != TargetId(q) && TargetId(p) != StopId(q) && TargetId(p) != TargetId(q)
  {
    LegIds(p);
    LegIds(q);
  }

  lemma ReservedIds(leg: OrderId)
    requires Reserved(leg)
    ensures leg == StopId(ParentId(leg)) || leg == TargetId(ParentId(leg))
  {
    assert leg == leg[..|leg| - 3] + leg[|leg| - 3..];
  }

  // ---- what working one order can touch ------------------------------------------------------------------------

  /** Orders the working of `id` may touch: itself, its legs and its sibling. */
  predicate Concerned(s: State, id: OrderId, x: OrderId) {
    x == id || x == StopId(id) || x == TargetId(id) || (id in s.oco && s.oco[id] == x)
  }

  /** Everybody else keeps their order and their pairing. */
  ghost predicate Spared(s: State, t: State, x: OrderId) {
    && x in s.orders && x in t.orders && t.orders[x] == s.orders[x]
    && (x in t.oco <==> x in s.oco) && (x in s.oco ==> t.oco[x] == s.oco[x])
  }

  lemma SparedTransitive(s: State, t: State, u: State, x: OrderId)
    requires Spared(s, t, x) && Spared(t, u, x)
    ensures Spared(s, u, x)
  {
  }

  lemma CloseSpares(s: State, id: OrderId, status: OrderStatus, x: OrderId)
    requires Paired(s) && id in s.orders && x in s.orders && x != id && (id in s.oco ==> s.oco[id] != x)
    ensures Spared(s, Close(s, id, status), x)
  {
  }

  lemma SettleOcoSpares(s: State, id: OrderId, x: OrderId)
    requires Paired(s) && id in s.orders && x in s.orders && !Concerned(s, id, x)
    ensures Spared(s, SettleOco(s, id), x)
  {
    if id in s.oco {
      var s1 := Unlink(s, id);
      assert Spared(s, s1, x);
      assert Paired(s1);
      if Cancellable(s1, s.oco[id]) {
        CloseSpares(s1, s.oco[id], Cancelled, x);
      }
    }
  }

  lemma SubmitSpares(cfg: Config, s: State, o: OrderState, x: OrderId)
    requires Submit(cfg, s, o).Ok? && x in s.orders
    ensures Spared(s, Submit(cfg, s, o).value, x)
  {
    SubmitEffect(cfg, s, o);
  }

  lemma SubmitLegsSpares(cfg: Config, s: State, legs: seq<OrderState>, x: OrderId)
    requires SubmitLegs(cfg, s, legs).Ok? && x in s.orders
    ensures Spared(s, SubmitLegs(cfg, s, legs).value, x)
    decreases |legs|
  {
    hide Submit;
    if legs == [] {
    } else {
      SubmitSpares(cfg, s, legs[0], x);
      SubmitLegsSpares(cfg, Submit(cfg, s, legs[0]).value, legs[1..], x);
    }
  }

  lemma ActivateSpares(cfg: Config, s: State, id: OrderId, fill: Fill, i: Instrument, x: OrderId)
    requires id in s.orders && s.orders[id].terms.id == id && x in s.orders && x != StopId(id) && x != TargetId(id)
    requires ActivateBrackets(cfg, s, id, fill, i).Ok?
    ensures Spared(s, ActivateBrackets(cfg, s, id, fill, i).value, x)
  {
    var parent := s.orders[id];
    if id in s.brackets && !(Untouched(s, StopId(id)) || Untouched(s, TargetId(id))) {
      LegsAreLegs(parent, s.brackets[id], fill, i);
      var legs := Legs(parent, s.brackets[id], fill, i).value;
      hide Legs;
      SubmitLegsSpares(cfg, s, legs, x);
    }
  }

  lemma FinishSpares(cfg: Config, s: State, id: OrderId, x: OrderId)
    requires Paired(s) && id in s.orders && x in s.orders && !Concerned(s, id, x)
    ensures Spared(s, FinishPrint(cfg, s, id), x)
  {
    hide Paired, Close, SettleOco;
    if s.orders[id].status.Filled? {
      SettleOcoSpares(s, id, x);
    } else if FinishPrint(cfg, s, id) != s {
      CloseSpares(s, id, Cancelled, x);
    }
  }

  /** Working an order leaves everyone it does not concern exactly as they were. */
  lemma EnactSpares(cfg: Config, s: State, id: OrderId, v: Verdict, i: Instrument, bar: Option<Bar>, x: OrderId,
                    busy: set<InstrumentId>)
    requires Inv(s, busy) && Cancellable(s, id) && s.orders[id].terms.instrument in busy
    requires IsVerdict(s.orders[id], v, s.nextFill + 1) && Enact(cfg, s, id, v, i, bar).Ok?
    requires x in s.orders && !Concerned(s, id, x)
    ensures Spared(s, Enact(cfg, s, id, v, i, bar).value, x)
  {
    hide ActivateBrackets, FinishPrint, Record;
    match v
    case Lapsed =>
      hide Inv, Paired, Close;
      InvPaired(s, busy);
      CloseSpares(s, id, Expired, x);
    case NoPrint(a) =>
      hide Inv, Paired, Close;
      var s1 := Put(s, id, Ratcheted(a, bar));
      NoPrintKeeps(s, id, a, bar, busy);
      InvPaired(s1, busy);
      CloseSpares(s1, id, Expired, x);
    case Print(a, fill) =>
      hide Inv, Enact;
      PrintSpares(cfg, s, id, a, fill, i, bar, x, busy);
    case _ =>
  }

  lemma PrintSpares(cfg: Config, s: State, id: OrderId, a: OrderState, fill: Fill, i: Instrument, bar: Option<Bar>,
                    x: OrderId, busy: set<InstrumentId>)
    requires Inv(s, busy) && Cancellable(s, id) && s.orders[id].terms.instrument in busy
    requires IsVerdict(s.orders[id], Print(a, fill), s.nextFill + 1) && Enact(cfg, s, id, Print(a, fill), i, bar).Ok?
    requires x in s.orders && !Concerned(s, id, x)
    ensures Spared(s, Enact(cfg, s, id, Print(a, fill), i, bar).value, x)
  {
    assert Keyed(s);
    hide Inv;
    var s1 := Record(cfg, s, id, a.Booked(fill), fill);
    RecordKeeps(cfg, s, id, a, fill, busy);
    var s2 := ActivateBrackets(cfg, s1, id, fill, i).value;
    ActivateKeeps(cfg, s1, id, fill, i, busy);
    ActivateSpares(cfg, s1, id, fill, i, x);
    LegIds(id);
    ActivateSpares(cfg, s1, id, fill, i, id);
    assert Paired(s2) by { InvPaired(s2, busy); }
    hide ActivateBrackets, Paired;
    FinishSpares(cfg, s2, id, x);
    SparedTransitive(s1, s2, FinishPrint(cfg, s2, id), x);
  }

  lemma InvPaired(s: State, busy: set<InstrumentId>)
    requires Inv(s, busy)
    ensures Paired(s) && Keyed(s) && Bracketed(s)
  {
  }

  // ---- the worked order, the bystanders and the new legs -------------------------------------------------------

  /** Working `id` resizes or cancels others at most, and adds nothing but its own fresh legs. */
  ghost predicate OnlyWorked(s: State, t: State, id: OrderId) {
    && (forall x | x in s.orders ::
          && x in t.orders
          && (x != id ==> Quiet(s.orders[x], t.orders[x])
                          && t.orders[x].stop == s.orders[x].stop && t.orders[x].activatedAt == s.orders[x].activatedAt)
          && (x != StopId(id) && x != TargetId(id) ==> t.orders[x].quantity == s.orders[x].quantity))
    && (forall x | x in t.orders && x !in s.orders ::
          (x == StopId(id) || x == TargetId(id)) && Blank(t.orders[x]))
  }

  /** Never looked at, never filled. */
  predicate Blank(o: OrderState) {
    o.activatedAt.None? && o.filled == 0.0 && !o.status.Filled? && !o.status.PartiallyFilled?
  }

  lemma OnlyWorkedTransitive(s: State, t: State, u: State, id: OrderId)
    requires id in s.orders && OnlyWorked(s, t, id) && OnlyWorked(t, u, id)
    ensures OnlyWorked(s, u, id)
  {
  }

  lemma PutOnlyWorked(s: State, t: State, id: OrderId)
    requires id in s.orders && id in t.orders && t.orders == s.orders[id := t.orders[id]]
    requires t.orders[id].quantity == s.orders[id].quantity
    ensures OnlyWorked(s, t, id)
  {
  }

  lemma SubmitLegsNew(cfg: Config, s: State, legs: seq<OrderState>, x: OrderId)
    requires SubmitLegs(cfg, s, legs).Ok? && x in SubmitLegs(cfg, s, legs).value.orders && x !in s.orders
    ensures
      var t := SubmitLegs(cfg, s, legs).value;
      exists k | 0 <= k < |legs| ::
        legs[k].terms.id == x
        && (t.orders[x] == legs[k].(status := Accepted) || t.orders[x] == legs[k].(status := Rejected))
    decreases |legs|
  {
    hide Submit;
    if legs != [] {
      SubmitEffect(cfg, s, legs[0]);
      var s1 := Submit(cfg, s, legs[0]).value;
      if x in s1.orders {
        SubmitLegsStatus(cfg, s1, legs[1..]);
        assert legs[0].terms.id == x;
      } else {
        SubmitLegsNew(cfg, s1, legs[1..], x);
        var t := SubmitLegs(cfg, s1, legs[1..]).value;
        var k :| 0 <= k < |legs[1..]| && legs[1..][k].terms.id == x
          && (t.orders[x] == legs[1..][k].(status := Accepted) || t.orders[x] == legs[1..][k].(status := Rejected));
        assert legs[k + 1] == legs[1..][k];
      }
    }
  }

  lemma ResizedOnlyWorked(s: State, x: OrderId, quantity: real, id: OrderId)
    requires quantity > QUANTITY_TOLERANCE && x != id && (x == StopId(id) || x == TargetId(id))
    ensures OnlyWorked(s, Resized(s, x, quantity), id)
  {
  }

  lemma SubmitLegsOnlyWorked(cfg: Config, s: State, legs: seq<OrderState>, id: OrderId)
    requires id in s.orders && SubmitLegs(cfg, s, legs).Ok?
    requires forall k | 0 <= k < |legs| ::
        IsLegOf(legs[k], s.orders[id], legs[k].terms.submittedAt) && s.orders[id].terms.id == id
    ensures OnlyWorked(s, SubmitLegs(cfg, s, legs).value, id)
  {
    hide SubmitLegs, StopId, TargetId;
    var t := SubmitLegs(cfg, s, legs).value;
    SubmitLegsStatus(cfg, s, legs);
    forall x | x in t.orders && x !in s.orders ensures (x == StopId(id) || x == TargetId(id)) && Blank(t.orders[x]) {
      SubmitLegsNew(cfg, s, legs, x);
    }
  }

  lemma ActivateOnlyWorked(cfg: Config, s: State, id: OrderId, fill: Fill, i: Instrument)
    requires id in s.orders && s.orders[id].terms.id == id && s.orders[id].filled > QUANTITY_TOLERANCE
    requires ActivateBrackets(cfg, s, id, fill, i).Ok?
    ensures OnlyWorked(s, ActivateBrackets(cfg, s, id, fill, i).value, id)
  {
    var parent := s.orders[id];
    LegIds(id);
    hide StopId, TargetId, SubmitLegs, OnlyWorked, Reserved, ParentId, Legs;
    if id !in s.brackets {
      PutOnlyWorked(s, s, id);
    } else if Untouched(s, StopId(id)) || Untouched(s, TargetId(id)) {
      hide Untouched, Resized;
      var s1 := Resized(s, StopId(id), parent.filled);
      ResizedOnlyWorked(s, StopId(id), parent.filled, id);
      ResizedOnlyWorked(s1, TargetId(id), parent.filled, id);
      OnlyWorkedTransitive(s, s1, Resized(s1, TargetId(id), parent.filled), id);
    } else {
      hide Untouched;
      SpawnOnlyWorked(cfg, s, id, fill, i);
    }
  }

  lemma SpawnOnlyWorked(cfg: Config, s: State, id: OrderId, fill: Fill, i: Instrument)
    requires id in s.orders && s.orders[id].terms.id == id && id in s.brackets
    requires Legs(s.orders[id], s.brackets[id], fill, i).Ok?
    requires SubmitLegs(cfg, s, Legs(s.orders[id], s.brackets[id], fill, i).value).Ok?
    ensures
      var legs := Legs(s.orders[id], s.brackets[id], fill, i).value;
      OnlyWorked(s, Pair(SubmitLegs(cfg, s, legs).value, legs), id)
  {
    var legs := Legs(s.orders[id], s.brackets[id], fill, i).value;
    LegsAreLegs(s.orders[id], s.brackets[id], fill, i);
    hide StopId, TargetId, Legs, SubmitLegs;
    SubmitLegsOnlyWorked(cfg, s, legs, id);
    var s1 := SubmitLegs(cfg, s, legs).value;
    assert id in s1.orders && s1.orders[id := s1.orders[id]] == s1.orders;
    hide OnlyWorked, IsLegOf;
    PutOnlyWorked(s1, Pair(s1, legs), id);
    OnlyWorkedTransitive(s, s1, Pair(s1, legs), id);
  }

  lemma FinishOnlyWorked(cfg: Config, s: State, id: OrderId)
    requires id in s.orders
    ensures OnlyWorked(s, FinishPrint(cfg, s, id), id)
  {
    if s.orders[id].status.Filled? {
      SettleOcoEffect(s, id);
      hide SettleOco;
    } else if FinishPrint(cfg, s, id) != s {
      CloseEffect(s, id, Cancelled);
      hide Close;
    }
  }

  lemma ExpireOnlyWorked(s: State, id: OrderId)
    requires id in s.orders
    ensures OnlyWorked(s, Expire(s, id), id)
  {
    hide Close, OnlyWorked;
    CloseEffect(s, id, Expired);
    PutOnlyWorked(s, Expire(s, id), id);
  }

  lemma EnactOnlyWorked(cfg: Config, s: State, id: OrderId, v: Verdict, i: Instrument, bar: Option<Bar>, at: Time)
    requires Ledger(cfg, s) && Keyed(s) && Cancellable(s, id)
    requires Lawful(cfg, s.orders[id], v, at) && Enact(cfg, s, id, v, i, bar).Ok?
    ensures OnlyWorked(s, Enact(cfg, s, id, v, i, bar).value, id)
  {
    hide ActivateBrackets, FinishPrint, Record, Expire, Ledger, OnlyWorked, Ratcheted;
    match v
    case Lapsed => ExpireOnlyWorked(s, id);
    case Ineligible => PutOnlyWorked(s, s, id);
    case NoPrint(a) =>
      var s1 := Put(s, id, Ratcheted(a, bar));
      PutOnlyWorked(s, s1, id);
      ExpireOnlyWorked(s1, id);
      OnlyWorkedTransitive(s, s1, Expire(s1, id), id);
    case Print(a, fill) => PrintOnlyWorked(cfg, s, id, a, fill, i, bar, at);
    case _ =>
  }

  lemma PrintOnlyWorked(cfg: Config, s: State, id: OrderId, a: OrderState, fill: Fill, i: Instrument, bar: Option<Bar>,
                        at: Time)
    requires Ledger(cfg, s) && Keyed(s) && Cancellable(s, id)
    requires Lawful(cfg, s.orders[id], Print(a, fill), at) && Enact(cfg, s, id, Print(a, fill), i, bar).Ok?
    ensures OnlyWorked(s, Enact(cfg, s, id, Print(a, fill), i, bar).value, id)
  {
    var s1 := Record(cfg, s, id, a.Booked(fill), fill);
    assert s1.orders == s.orders[id := a.Booked(fill)] && a.terms == s.orders[id].terms
    && a.quantity == s.orders[id].quantity;
    FilledIsNotNegative(cfg, s, id);
    BookedIsPositive(cfg, s.orders[id], a, fill, at);
    hide Ledger, OnlyWorked, Ratcheted, Lawful, Record, FinishPrint, ActivateBrackets;
    PutOnlyWorked(s, s1, id);
    var s2 := ActivateBrackets(cfg, s1, id, fill, i).value;
    ActivateOnlyWorked(cfg, s1, id, fill, i);
    var s3 := FinishPrint(cfg, s2, id);
    FinishOnlyWorked(cfg, s2, id);
    var s4 := Put(s3, id, Ratcheted(s3.orders[id], bar));
    PutOnlyWorked(s3, s4, id);
    OnlyWorkedTransitive(s, s1, s2, id);
    OnlyWorkedTransitive(s, s2, s3, id);
    OnlyWorkedTransitive(s, s3, s4, id);
  }

  // ---- the legs of a bracket -----------------------------------------------------------------------------------

  /** The moment a leg was raised is the moment of a print on its parent. */
  ghost predicate RaisedByPrint(log: seq<Fill>, parent: OrderId, at: Time) {
    exists k :: 0 <= k < |log| && log[k].orderId == parent && log[k].timestamp == at
  }

  /** A leg belongs to a bracketed parent that has filled, on the other side of the same instrument. */
  ghost predicate ChildOf(s: State, x: OrderId, p: OrderId) {
    && x in s.orders && p in s.orders
    && s.orders[p].terms.bracket.Some? && s.orders[p].filled > 0.0
    && var c := s.orders[x].terms;
       && c.instrument == s.orders[p].terms.instrument && c.side == s.orders[p].terms.side.Opposite()
       && c.tif.Gtc? && c.expiresAt.None? && c.bracket.None?
       && (if x == StopId(p) then c.kind.Stop? else c.kind.Limit?)
       && RaisedByPrint(s.log, p, c.submittedAt)
  }

  /** A leg prints only after the print on its parent that raised it. */
  ghost predicate Followed(s: State) {
    forall k | 0 <= k < |s.log| && Reserved(s.log[k].orderId) ::
      var x := s.log[k].orderId;
      x in s.orders && RaisedByPrint(s.log[..k], ParentId(x), s.orders[x].terms.submittedAt)
  }

  /** A leg is never larger than what its parent has filled, and untouched it protects exactly that. */
  ghost predicate Guarded(s: State, x: OrderId) {
    Reserved(x) && x in s.orders ==>
      && ChildOf(s, x, ParentId(x)) && s.orders[x].quantity <= s.orders[ParentId(x)].filled
      && (Untouched(s, x) ==> s.orders[x].quantity == s.orders[ParentId(x)].filled)
  }

  /** Pairs join the two legs of one parent. */
  ghost predicate LegPair(s: State, a: OrderId) {
    a in s.oco ==>
      var p := ParentId(a);
      (a == StopId(p) && s.oco[a] == TargetId(p)) || (a == TargetId(p) && s.oco[a] == StopId(p))
  }

  ghost predicate Protective(s: State) {
    (forall x: OrderId :: Guarded(s, x)) && (forall a: OrderId :: LegPair(s, a))
  }

  /** Nothing a bracket looks at changed. */
  ghost predicate Calm(s: State, t: State) {
    && s.orders.Keys == t.orders.Keys && s.log == t.log
    && (forall x | x in s.orders ::
          && t.orders[x].terms == s.orders[x].terms && t.orders[x].filled == s.orders[x].filled
          && t.orders[x].quantity == s.orders[x].quantity && (Untouched(t, x) ==> Untouched(s, x)))
    && (forall a | a in t.oco :: a in s.oco && t.oco[a] == s.oco[a])
  }

  lemma CalmProtective(s: State, t: State)
    requires Calm(s, t) && Protective(s)
    ensures Protective(t)
  {
    forall x: OrderId ensures Guarded(t, x) {
      assert Guarded(s, x);
    }
    forall a: OrderId ensures LegPair(t, a) {
      assert LegPair(s, a);
    }
  }

  lemma CloseCalm(s: State, id: OrderId, status: OrderStatus)
    requires Cancellable(s, id) && status.IsTerminal()
    ensures Calm(s, Close(s, id, status))
  {
  }

  lemma SettleOcoCalm(s: State, id: OrderId)
    ensures Calm(s, SettleOco(s, id))
  {
    if id in s.oco {
      var s1 := Unlink(s, id);
      if Cancellable(s1, s.oco[id]) {
        CloseCalm(s1, s.oco[id], Cancelled);
        hide Close;
      }
    }
  }

  lemma FinishCalm(cfg: Config, s: State, id: OrderId)
    requires id in s.orders && (s.orders[id].IsOpen() || s.orders[id].status.Filled?)
    ensures Calm(s, FinishPrint(cfg, s, id))
  {
    hide Calm;
    if s.orders[id].status.Filled? {
      SettleOcoCalm(s, id);
    } else if FinishPrint(cfg, s, id) != s {
      CloseCalm(s, id, Cancelled);
      hide Close;
      CalmRecords(s, Close(s, id, Cancelled), CancelRemainder(s, id));
    } else {
      CalmSelf(s);
    }
  }

  lemma CalmRecords(s: State, t: State, u: State)
    requires Calm(s, t) && u.orders == t.orders && u.log == t.log && u.oco == t.oco
    ensures Calm(s, u)
  {
  }

  lemma CalmSelf(s: State)
    ensures Calm(s, s)
  {
  }

  lemma PutCalm(s: State, id: OrderId, o: OrderState)
    requires id in s.orders && o == s.orders[id].(stop := o.stop, activatedAt := o.activatedAt)
    ensures Calm(s, Put(s, id, o))
  {
  }

  /** A caller's own order never looks like a leg. */
  lemma SubmitProtective(cfg: Config, s: State, o: OrderState)
    requires Protective(s) && Submit(cfg, s, o).Ok? && !Reserved(o.terms.id)
    ensures Protective(Submit(cfg, s, o).value)
  {
    var t := Submit(cfg, s, o).value;
    SubmitEffect(cfg, s, o);
    hide Submit;
    forall x: OrderId ensures Guarded(t, x) {
      assert Guarded(s, x);
    }
    forall a: OrderId ensures LegPair(t, a) {
      assert LegPair(s, a);
    }
  }

  lemma RaisedGrows(log: seq<Fill>, fill: Fill, parent: OrderId, at: Time)
    requires RaisedByPrint(log, parent, at)
    ensures RaisedByPrint(log + [fill], parent, at)
  {
    var k :| 0 <= k < |log| && log[k].orderId == parent && log[k].timestamp == at;
    assert (log + [fill])[k] == log[k];
  }

  /** After a print has been booked on `id`: the state its brackets are activated in. */
  ghost predicate Booked(s: State, s1: State, id: OrderId, fill: Fill) {
    && Cancellable(s, id) && Bracketed(s) && Keyed(s)
    && id in s1.orders && s1.orders == s.orders[id := s1.orders[id]] && s1.brackets == s.brackets
    && s1.log == s.log + [fill] && fill.orderId == id
    && s1.orders[id].terms == s.orders[id].terms && s1.orders[id].quantity == s.orders[id].quantity
    && s1.orders[id].filled > QUANTITY_TOLERANCE && s1.orders[id].filled >= s.orders[id].filled
  }

  /** A leg that was there before, whose order and parent changed at most in size, is still a leg. */
  lemma OldLegStaysChild(s: State, t: State, fill: Fill, x: OrderId, p: OrderId)
    requires ChildOf(s, x, p) && t.log == s.log + [fill] && x in t.orders && p in t.orders
    requires t.orders[x].terms == s.orders[x].terms && t.orders[p].terms == s.orders[p].terms
    requires t.orders[p].filled > 0.0
    ensures ChildOf(t, x, p)
  {
    RaisedGrows(s.log, fill, p, s.orders[x].terms.submittedAt);
  }

  lemma OwnLegGuarded(cfg: Config, s: State, s1: State, id: OrderId, fill: Fill, i: Instrument, x: OrderId)
    requires Booked(s, s1, id, fill) && Guarded(s, x)
    requires ActivateBrackets(cfg, s1, id, fill, i).Ok? && x in ActivateBrackets(cfg, s1, id, fill, i).value.orders
    requires Reserved(x) && ParentId(x) == id
    ensures Guarded(ActivateBrackets(cfg, s1, id, fill, i).value, x)
  {
    LegIds(id);
    ReservedIds(x);
    hide StopId, TargetId, Reserved, ParentId;
    if id !in s1.brackets {
      assert false;
    } else if Untouched(s1, StopId(id)) || Untouched(s1, TargetId(id)) {
      hide Guarded, ChildOf;
      ResizedLegGuarded(s, s1, id, fill, x);
    } else {
      hide Guarded, ChildOf;
      NewLegsGuarded(cfg, s, s1, id, fill, i, x);
    }
  }

  lemma ResizedLegGuarded(s: State, s1: State, id: OrderId, fill: Fill, x: OrderId)
    requires Booked(s, s1, id, fill) && Guarded(s, x) && x in s1.orders && Reserved(x) && ParentId(x) == id
    requires x == StopId(id) || x == TargetId(id)
    ensures Guarded(Resized(Resized(s1, StopId(id), s1.orders[id].filled), TargetId(id), s1.orders[id].filled), x)
  {
    LegIds(id);
    hide StopId, TargetId, Reserved, ParentId, RaisedByPrint, Bracketed;
    var quantity := s1.orders[id].filled;
    OldLegStaysChild(s, Resized(Resized(s1, StopId(id), quantity), TargetId(id), quantity), fill, x, id);
  }

  lemma NewLegsGuarded(cfg: Config, s: State, s1: State, id: OrderId, fill: Fill, i: Instrument, x: OrderId)
    requires Booked(s, s1, id, fill) && Guarded(s, x) && id in s1.brackets && s1.orders[id].terms.bracket.Some?
    requires !Untouched(s1, StopId(id)) && !Untouched(s1, TargetId(id))
    requires ActivateBrackets(cfg, s1, id, fill, i).Ok? && x in ActivateBrackets(cfg, s1, id, fill, i).value.orders
    requires Reserved(x) && ParentId(x) == id
    ensures Guarded(ActivateBrackets(cfg, s1, id, fill, i).value, x)
  {
    LegIds(id);
    ReservedIds(x);
    hide StopId, TargetId, Reserved, ParentId, Bracketed, SubmitLegs, Legs;
    var parent := s1.orders[id];
    var legs := Legs(parent, s1.brackets[id], fill, i).value;
    var t := ActivateBrackets(cfg, s1, id, fill, i).value;
    SubmitLegsStatus(cfg, s1, legs);
    SubmitLegsLog(cfg, s1, legs);
    if x in s1.orders {
      hide ChildOf;
      OldLegStaysChild(s, t, fill, x, id);
    } else {
      LegsAreLegs(parent, s1.brackets[id], fill, i);
      SubmitLegsNew(cfg, s1, legs, x);
      hide ChildOf;
      FreshLegChild(s, t, fill, x, id);
    }
  }

  lemma FreshLegChild(s: State, t: State, fill: Fill, x: OrderId, id: OrderId)
    requires id in t.orders && x in t.orders && t.log == s.log + [fill] && fill.orderId == id
    requires t.orders[id].terms.id == id && t.orders[id].terms.bracket.Some? && t.orders[id].filled > 0.0
    requires IsLegOf(t.orders[x].(status := PendingNew), t.orders[id], fill.timestamp) && t.orders[x].terms.id == x
    ensures ChildOf(t, x, id)
  {
    hide StopId, TargetId, RaisedByPrint;
    RaisedNow(s.log, fill);
  }

  lemma RaisedNow(log: seq<Fill>, fill: Fill)
    ensures RaisedByPrint(log + [fill], fill.orderId, fill.timestamp)
  {
    assert (log + [fill])[|log|] == fill;
  }

  lemma SubmitLegsLog(cfg: Config, s: State, legs: seq<OrderState>)
    requires SubmitLegs(cfg, s, legs).Ok?
    ensures SubmitLegs(cfg, s, legs).value.log == s.log && SubmitLegs(cfg, s, legs).value.oco == s.oco
    decreases |legs|
  {
    hide Submit;
    if legs == [] {
    } else {
      SubmitEffect(cfg, s, legs[0]);
      SubmitLegsLog(cfg, Submit(cfg, s, legs[0]).value, legs[1..]);
    }
  }

  lemma OtherLegGuarded(cfg: Config, s: State, s1: State, id: OrderId, fill: Fill, i: Instrument, x: OrderId)
    requires Booked(s, s1, id, fill) && Protective(s)
    requires ActivateBrackets(cfg, s1, id, fill, i).Ok? && x in ActivateBrackets(cfg, s1, id, fill, i).value.orders
    requires Reserved(x) && ParentId(x) != id
    ensures Guarded(ActivateBrackets(cfg, s1, id, fill, i).value, x)
  {
    var t := ActivateBrackets(cfg, s1, id, fill, i).value;
    var p := ParentId(x);
    LegIds(id);
    ReservedIds(x);
    assert Guarded(s, x) && Guarded(s, p);
    hide StopId, TargetId, Reserved, ParentId, Protective, ActivateBrackets, RaisedByPrint;
    ActivateOnlyWorked(cfg, s1, id, fill, i);
    ActivateRecords(cfg, s1, id, fill, i);
    assert x in s1.orders;
    hide OnlyWorked;
    assert p != StopId(id) && p != TargetId(id);
    ActivateSpares(cfg, s1, id, fill, i, p);
    ActivateSpares(cfg, s1, id, fill, i, x);
    hide ChildOf, Bracketed;
    OtherLegStays(s, t, fill, x, p);
  }

  lemma OtherLegStays(s: State, t: State, fill: Fill, x: OrderId, p: OrderId)
    requires p == ParentId(x) && ChildOf(s, x, p) && s.orders[x].quantity <= s.orders[p].filled
    requires Untouched(s, x) ==> s.orders[x].quantity == s.orders[p].filled
    requires t.log == s.log + [fill] && x in t.orders && p in t.orders && t.orders[p] == s.orders[p]
    requires t.orders[x].terms == s.orders[x].terms && t.orders[x].quantity == s.orders[x].quantity
    requires t.orders[x] == s.orders[x] || t.orders[x].filled > 0.0
    ensures Guarded(t, x)
  {
    hide RaisedByPrint, ParentId, StopId;
    OldLegStaysChild(s, t, fill, x, p);
  }

  lemma ActivateRecords(cfg: Config, s: State, id: OrderId, fill: Fill, i: Instrument)
    requires id in s.orders && ActivateBrackets(cfg, s, id, fill, i).Ok?
    ensures ActivateBrackets(cfg, s, id, fill, i).value.log == s.log
  {
    if id in s.brackets && !(Untouched(s, StopId(id)) || Untouched(s, TargetId(id))) {
      SubmitLegsLog(cfg, s, Legs(s.orders[id], s.brackets[id], fill, i).value);
    }
  }

  lemma ActivatePairs(cfg: Config, s: State, id: OrderId, fill: Fill, i: Instrument, a: OrderId)
    requires id in s.orders && s.orders[id].terms.id == id && LegPair(s, a) && ActivateBrackets(cfg, s, id, fill, i).Ok?
    ensures LegPair(ActivateBrackets(cfg, s, id, fill, i).value, a)
  {
    if id in s.brackets && !(Untouched(s, StopId(id)) || Untouched(s, TargetId(id))) {
      LegIds(id);
      LegsAreLegs(s.orders[id], s.brackets[id], fill, i);
      SubmitLegsLog(cfg, s, Legs(s.orders[id], s.brackets[id], fill, i).value);
      hide Legs, SubmitLegs;
    }
  }

  /** Booking a print and seeing to its legs keeps every bracket protective. */
  lemma ActivateProtective(cfg: Config, s: State, s1: State, id: OrderId, fill: Fill, i: Instrument)
    requires Booked(s, s1, id, fill) && s1.oco == s.oco && Protective(s) && ActivateBrackets(cfg, s1, id, fill, i).Ok?
    ensures Protective(ActivateBrackets(cfg, s1, id, fill, i).value)
  {
    hide ActivateBrackets;
    var t := ActivateBrackets(cfg, s1, id, fill, i).value;
    forall x: OrderId ensures Guarded(t, x) {
      if Reserved(x) && x in t.orders {
        if ParentId(x) == id {
          assert Guarded(s, x);
          OwnLegGuarded(cfg, s, s1, id, fill, i, x);
        } else {
          OtherLegGuarded(cfg, s, s1, id, fill, i, x);
        }
      }
    }
    forall a: OrderId ensures LegPair(t, a) {
      assert LegPair(s, a);
      ActivatePairs(cfg, s1, id, fill, i, a);
    }
  }

  lemma PrintProtective(cfg: Config, s: State, id: OrderId, a: OrderState, fill: Fill, i: Instrument, bar: Option<Bar>,
                        at: Time)
    requires Protective(s) && Ledger(cfg, s) && Bracketed(s) && Keyed(s) && Cancellable(s, id)
    requires Lawful(cfg, s.orders[id], Print(a, fill), at) && Enact(cfg, s, id, Print(a, fill), i, bar).Ok?
    ensures Protective(Enact(cfg, s, id, Print(a, fill), i, bar).value)
  {
    hide Protective, Bracketed, Calm;
    FilledIsNotNegative(cfg, s, id);
    hide Ledger;
    var s1 := Record(cfg, s, id, a.Booked(fill), fill);
    BookedIsPositive(cfg, s.orders[id], a, fill, at);
    var s2 := ActivateBrackets(cfg, s1, id, fill, i).value;
    ActivateProtective(cfg, s, s1, id, fill, i);
    StatusStays(cfg, s1, id, fill, i);
    hide Lawful, ActivateBrackets;
    var s3 := FinishPrint(cfg, s2, id);
    FinishCalm(cfg, s2, id);
    CalmProtective(s2, s3);
    hide FinishPrint;
    var s4 := Put(s3, id, Ratcheted(s3.orders[id], bar));
    PutCalm(s3, id, Ratcheted(s3.orders[id], bar));
    CalmProtective(s3, s4);
  }

  lemma BookedIsPositive(cfg: Config, o: OrderState, a: OrderState, fill: Fill, at: Time)
    requires o.IsOpen() && 0.0 <= o.filled <= o.quantity && o.quantity > QUANTITY_TOLERANCE
    requires Lawful(cfg, o, Print(a, fill), at)
    ensures a.Booked(fill).filled > QUANTITY_TOLERANCE && a.Booked(fill).filled >= o.filled
    ensures a.terms == o.terms && a.Booked(fill).quantity == o.quantity && fill.orderId == o.terms.id
    ensures a.Booked(fill).IsOpen() || a.Booked(fill).status.Filled?
  {
  }

  lemma EnactProtective(cfg: Config, s: State, id: OrderId, v: Verdict, i: Instrument, bar: Option<Bar>, at: Time)
    requires Protective(s) && Ledger(cfg, s) && Bracketed(s) && Keyed(s) && Cancellable(s, id)
    requires Lawful(cfg, s.orders[id], v, at) && Enact(cfg, s, id, v, i, bar).Ok?
    ensures Protective(Enact(cfg, s, id, v, i, bar).value)
  {
    hide ActivateBrackets, FinishPrint, Record;
    match v
    case Lapsed =>
      hide Protective, Ledger, Bracketed, Close, Calm;
      ExpireCalm(s, id);
      CalmProtective(s, Expire(s, id));
    case NoPrint(a) =>
      hide Protective, Ledger, Bracketed, Close, Calm;
      var s1 := Put(s, id, Ratcheted(a, bar));
      PutCalm(s, id, Ratcheted(a, bar));
      CalmProtective(s, s1);
      ExpireCalm(s1, id);
      CalmProtective(s1, Expire(s1, id));
    case Print(a, fill) =>
      hide Protective, Ledger, Bracketed, Enact;
      PrintProtective(cfg, s, id, a, fill, i, bar, at);
    case _ =>
  }

  lemma ExpireCalm(s: State, id: OrderId)
    requires Cancellable(s, id)
    ensures Calm(s, Expire(s, id))
  {
    hide Close, Calm;
    CloseCalm(s, id, Expired);
    CalmRecords(s, Close(s, id, Expired), Expire(s, id));
  }
}
