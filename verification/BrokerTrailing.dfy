/** Trailing stops: the level an order carries is the running extreme of the bars it could have traded on. */
module BrokerTrailing {
  import opened Types
  import opened Money
  import opened Instruments
  import opened Orders
  import opened Execution
  import opened BrokerSpec
  import opened BrokerIndex
  import opened BrokerLedger
  import opened BrokerBrackets
  import opened BrokerRuns
  import opened BrokerBars

  /** The level after one bar: ratcheted by the bar's extreme, if the order could have traded on it. */
  function NextLevel(cfg: Config, terms: OrderTerms, level: real, snap: Snapshot): real
    requires terms.trailing.Some?
  {
    if terms.instrument !in cfg.instruments then level
    else
      var bar := MarketBar(snap, terms.instrument, cfg.instruments[terms.instrument]);
      var mayTrade := if cfg.execution.SameBarClose? then snap.timestamp >= terms.submittedAt
                      else snap.timestamp > terms.submittedAt;
      if bar.None? || !mayTrade then level
      else if terms.side.Sell? then Max(level, bar.value.high * (1.0 - terms.trailing.value))
      else Min(level, bar.value.low * (1.0 + terms.trailing.value))
  }

  /** The running extreme over a stretch of calls. */
  function Level(cfg: Config, terms: OrderTerms, level: real, commands: seq<Command>): real
    requires terms.trailing.Some?
  {
    if commands == [] then level
    else
      var before := Level(cfg, terms, level, commands[..|commands| - 1]);
      match commands[|commands| - 1]
      case Bar(snap) => NextLevel(cfg, terms, before, snap)
      case _ => before
  }

  /** It only ever tightens: up for a sell stop, down for a buy stop. */
  lemma {:induction false} LevelTightens(cfg: Config, terms: OrderTerms, level: real, commands: seq<Command>, k: nat)
    requires terms.trailing.Some? && k <= |commands|
    ensures
      var earlier, later := Level(cfg, terms, level, commands[..k]), Level(cfg, terms, level, commands);
      if terms.side.Sell? then earlier <= later else later <= earlier
    decreases |commands|
  {
    if k == |commands| {
      assert commands[..k] == commands;
    } else {
      assert commands[..|commands| - 1][..k] == commands[..k];
      LevelTightens(cfg, terms, level, commands[..|commands| - 1], k);
    }
  }

  // ---- where the level starts ----------------------------------------------------------------------------------

  /** How far a level is on the side where a position of this side gains, from its entry. */
  function Gain(side: Side, entry: real, level: real): real {
    if side.Buy? then level - entry else entry - level
  }

  /** Where a spec puts the stop of an entry, before rounding: at its price; else its fraction of the entry, or else
      the trailing one, on the losing side. */
  predicate StopStands(spec: BracketSpec, side: Side, entry: real, level: real) {
    if spec.stopLossPrice.Some? then level == spec.stopLossPrice.value
    else if spec.stopLossPct.Some? then Gain(side, entry, level) == -Scaled(entry, spec.stopLossPct.value)
    else spec.trailingPct.Some? && Gain(side, entry, level) == -Scaled(entry, spec.trailingPct.value)
  }

  /** And the target: at its price, or else its fraction of the entry on the gaining side. */
  predicate TargetStands(spec: BracketSpec, side: Side, entry: real, level: real) {
    if spec.takeProfitPrice.Some? then level == spec.takeProfitPrice.value
    else spec.takeProfitPct.Some? && Gain(side, entry, level) == Scaled(entry, spec.takeProfitPct.value)
  }

  lemma PartOf(entry: real, fraction: real)
    ensures Scaled(entry, 1.0 - fraction) == entry - Scaled(entry, fraction)
    ensures Scaled(entry, 1.0 + fraction) == entry + Scaled(entry, fraction)
  {
  }

  lemma StopIff(spec: BracketSpec, side: Side, entry: real)
    ensures forall level ::
        StopLevel(spec, entry, side.Buy?) == Some(level) <==> level > 0.0 && StopStands(spec, side, entry, level)
  {
    hide Scaled;
    if spec.stopLossPrice.None? && spec.stopLossPct.Some? {
      PartOf(entry, spec.stopLossPct.value);
    } else if spec.stopLossPrice.None? && spec.trailingPct.Some? {
      PartOf(entry, spec.trailingPct.value);
    }
  }

  lemma TargetIff(spec: BracketSpec, side: Side, entry: real)
    ensures forall level ::
        TargetLevel(spec, entry, side.Buy?) == Some(level) <==> level > 0.0 && TargetStands(spec, side, entry, level)
  {
    hide Scaled;
    if spec.takeProfitPrice.None? && spec.takeProfitPct.Some? {
      PartOf(entry, spec.takeProfitPct.value);
    }
  }

  /** A spec calls for a leg exactly at the positive level where the leg stands. */
  lemma LevelsIff(spec: BracketSpec, side: Side, entry: real)
    ensures forall level ::
        StopLevel(spec, entry, side.Buy?) == Some(level) <==> level > 0.0 && StopStands(spec, side, entry, level)
    ensures forall level ::
        TargetLevel(spec, entry, side.Buy?) == Some(level) <==> level > 0.0 && TargetStands(spec, side, entry, level)
  {
    StopIff(spec, side, entry);
    TargetIff(spec, side, entry);
  }

  /** So by fractions between nothing and all of an entry above zero, the stop loses, the target gains, and neither is
      wanting. */
  lemma LegsStraddle(spec: BracketSpec, side: Side, entry: real, stop: real, target: real)
    requires entry > 0.0 && 0.0 < stop < 1.0 && 0.0 < target < 1.0
    requires spec.stopLossPrice.None? && spec.takeProfitPrice.None? && spec.takeProfitPct == Some(target)
    requires spec.stopLossPct == Some(stop) || (spec.stopLossPct.None? && spec.trailingPct == Some(stop))
    ensures
      var s, t := StopLevel(spec, entry, side.Buy?), TargetLevel(spec, entry, side.Buy?);
      s.Some? && t.Some? && if side.Buy? then s.value < entry < t.value else t.value < entry < s.value
  {
    hide Scaled;
    PartOf(entry, stop);
    PartOf(entry, target);
    PartIsProper(entry, stop);
    PartIsProper(entry, target);
  }

  lemma PartIsProper(entry: real, fraction: real)
    requires entry > 0.0 && 0.0 < fraction < 1.0
    ensures 0.0 < Scaled(entry, fraction) < entry
  {
    PartOf(entry, fraction);
    ScaledPositive(entry, fraction);
    ScaledPositive(entry, 1.0 - fraction);
    hide Scaled;
  }

  lemma ScaledPositive(price: real, factor: real)
    requires price > 0.0 && factor > 0.0
    ensures Scaled(price, factor) > 0.0
  {
  }

  /** The prices a leg carries when its parent's print raises it. */
  ghost predicate LevelsOf(leg: OrderState, parent: OrderState, spec: BracketSpec, fill: Fill, i: Instrument) {
    var side, entry := parent.terms.side, EntryPrice(parent, fill);
    && (leg.terms.id == StopId(parent.terms.id) ==>
          && leg.terms.trailing == spec.trailingPct
          && exists level :: level > 0.0 && StopStands(spec, side, entry, level)
                             && leg.stop == Some(RoundPrice(level, i.tick)))
    && (leg.terms.id == TargetId(parent.terms.id) ==>
          exists level :: level > 0.0 && TargetStands(spec, side, entry, level)
                          && leg.terms.limit == Some(RoundPrice(level, i.tick)))
  }

  lemma LegLevels(parent: OrderState, spec: BracketSpec, fill: Fill, i: Instrument, k: nat)
    requires Legs(parent, spec, fill, i).Ok? && k < |Legs(parent, spec, fill, i).value|
    ensures LevelsOf(Legs(parent, spec, fill, i).value[k], parent, spec, fill, i)
  {
    LegIds(parent.terms.id);
    LevelsIff(spec, parent.terms.side, EntryPrice(parent, fill));
    hide StopLevel, TargetLevel, StopStands, TargetStands, StopId, TargetId, RoundPrice, EntryPrice;
  }

  /** A leg that a print raises starts where the bracket says for the parent's average, on the tick grid: that is the
      level a trailing stop ratchets from. */
  lemma RaisedAtBracketLevel(cfg: Config, s: State, id: OrderId, fill: Fill, i: Instrument)
    requires id in s.orders && s.orders[id].terms.id == id && id in s.brackets
    requires ActivateBrackets(cfg, s, id, fill, i).Ok?
    ensures
      var t := ActivateBrackets(cfg, s, id, fill, i).value;
      var side, entry := s.orders[id].terms.side, EntryPrice(s.orders[id], fill);
      && (StopId(id) in t.orders && StopId(id) !in s.orders ==>
            && t.orders[StopId(id)].terms.trailing == s.brackets[id].trailingPct
            && exists level :: level > 0.0 && StopStands(s.brackets[id], side, entry, level)
                               && LevelIs(t, StopId(id), RoundPrice(level, i.tick)))
      && (TargetId(id) in t.orders && TargetId(id) !in s.orders ==>
            exists level :: level > 0.0 && TargetStands(s.brackets[id], side, entry, level)
                            && t.orders[TargetId(id)].terms.limit == Some(RoundPrice(level, i.tick)))
  {
    var t := ActivateBrackets(cfg, s, id, fill, i).value;
    if !Untouched(s, StopId(id)) && !Untouched(s, TargetId(id)) {
      var legs := Legs(s.orders[id], s.brackets[id], fill, i).value;
      hide Legs, SubmitLegs, StopStands, TargetStands, StopId, TargetId, RoundPrice, EntryPrice;
      forall x | x in t.orders && x !in s.orders
        ensures exists k ::
            0 <= k < |legs| && legs[k].terms.id == x && t.orders[x] == legs[k].(status := t.orders[x].status)
      {
        SubmitLegsNew(cfg, s, legs, x);
      }
      forall k | 0 <= k < |legs| ensures LevelsOf(legs[k], s.orders[id], s.brackets[id], fill, i) {
        LegLevels(s.orders[id], s.brackets[id], fill, i, k);
      }
    }
  }

  /** A trailing stop order that is still open. */
  predicate Trails(s: State, id: OrderId) {
    Cancellable(s, id) && s.orders[id].terms.trailing.Some? && s.orders[id].stop.Some?
  }

  predicate LevelIs(s: State, id: OrderId, level: real) {
    id in s.orders && s.orders[id].stop == Some(level)
  }

  lemma PrintTrails(cfg: Config, s: State, id: OrderId, a: OrderState, fill: Fill, i: Instrument, bar: Option<Bar>)
    requires id in s.orders && a.terms.id == id && Enact(cfg, s, id, Print(a, fill), i, bar).Ok?
    requires Enact(cfg, s, id, Print(a, fill), i, bar).value.orders[id].IsOpen()
    ensures Enact(cfg, s, id, Print(a, fill), i, bar).value.orders[id].stop
              == Ratcheted(a.(status := PartiallyFilled), bar).stop
  {
    LegIds(id);
    hide StopId, TargetId, ActivateBrackets, Ratcheted;
    var s1 := Record(cfg, s, id, a.Booked(fill), fill);
    ActivateSpares(cfg, s1, id, fill, i, id);
    var s2 := ActivateBrackets(cfg, s1, id, fill, i).value;
    SettleOcoEffect(s2, id);
    CloseEffect(s2, id, Cancelled);
    hide SettleOco, Close;
    RatchetReads(FinishPrint(cfg, s2, id).orders[id], a.(status := PartiallyFilled), bar);
  }

  /** The ratchet looks only at the terms, the stop and whether the order is open. */
  lemma RatchetReads(a: OrderState, b: OrderState, bar: Option<Bar>)
    requires a.terms == b.terms && a.stop == b.stop && a.IsOpen() == b.IsOpen()
    ensures Ratcheted(a, bar).stop == Ratcheted(b, bar).stop
  {
    hide TrailedStop;
  }

  /** Carrying out a verdict reached on an order that could have traded ratchets it; not looking leaves it. */
  lemma EnactTrails(cfg: Config, s: State, id: OrderId, v: Verdict, i: Instrument, bar: Option<Bar>, level: real)
    requires Trails(s, id) && s.orders[id].terms.id == id && Enact(cfg, s, id, v, i, bar).Ok?
    requires v.NoPrint? || v.Print? ==>
               && v.order == s.orders[id].(activatedAt := v.order.activatedAt)
               && (forall status: OrderStatus | status.IsOpen() ::
                     Ratcheted(v.order.(status := status), bar).stop == Some(level))
    requires v.Ineligible? ==> s.orders[id].stop == Some(level)
    requires Cancellable(Enact(cfg, s, id, v, i, bar).value, id)
    ensures LevelIs(Enact(cfg, s, id, v, i, bar).value, id, level)
  {
    hide Ratcheted, Record, ActivateBrackets, FinishPrint;
    match v
    case Print(a, fill) =>
      hide Enact;
      PrintTrails(cfg, s, id, a, fill, i, bar);
    case Lapsed =>
      CloseEffect(s, id, Expired);
      hide Close;
    case NoPrint(a) =>
      CloseEffect(Put(s, id, Ratcheted(a, bar)), id, Expired);
      hide Close;
      assert a.(status := a.status) == a;
    case _ =>
  }

  lemma WorkOrderTrails(cfg: Config, s: State, id: OrderId, i: Instrument, snap: Snapshot)
    requires Trails(s, id) && Keyed(s) && s.orders[id].terms.instrument in cfg.instruments
    requires i == cfg.instruments[s.orders[id].terms.instrument] && WorkOrder(cfg, s, id, i, snap).Ok?
    requires Cancellable(WorkOrder(cfg, s, id, i, snap).value, id)
    ensures LevelIs(WorkOrder(cfg, s, id, i, snap).value, id,
                    NextLevel(cfg, s.orders[id].terms, s.orders[id].stop.value, snap))
  {
    hide Enact, Judge, Ratcheted, LevelIs;
    var o := s.orders[id];
    var bar := MarketBar(snap, o.terms.instrument, i);
    var volume := PeriodVolume(cfg, s, snap.timestamp);
    var v := Judge(cfg, o, i, snap, s.nextFill + 1, volume);
    JudgeTrails(cfg, o, i, snap, s.nextFill + 1, volume);
    JudgeIsLawful(cfg, o, i, snap, s.nextFill + 1, volume);
    if v.NoPrint? || v.Print? {
      forall status: OrderStatus | status.IsOpen()
        ensures Ratcheted(v.order.(status := status), bar).stop == Some(NextLevel(cfg, o.terms, o.stop.value, snap))
      {
        RatchetedLevel(cfg, v.order.(status := status), i, snap);
      }
    }
    EnactTrails(cfg, s, id, v, i, bar, NextLevel(cfg, o.terms, o.stop.value, snap));
  }

  lemma RatchetedLevel(cfg: Config, a: OrderState, i: Instrument, snap: Snapshot)
    requires IsEligible(cfg.execution, a, snap.timestamp) && a.terms.trailing.Some? && a.stop.Some?
    requires a.terms.instrument in cfg.instruments && i == cfg.instruments[a.terms.instrument]
    ensures Ratcheted(a, MarketBar(snap, a.terms.instrument, i)).stop
              == Some(NextLevel(cfg, a.terms, a.stop.value, snap))
  {
    var bar := MarketBar(snap, a.terms.instrument, i);
    var level := NextLevel(cfg, a.terms, a.stop.value, snap);
    var r := Ratcheted(a, bar);
    if bar.Some? {
      if a.terms.side.Sell? {
        assert level == Max(a.stop.value, bar.value.high * (1.0 - a.terms.trailing.value)) == r.stop.value;
      } else {
        assert level == Min(a.stop.value, bar.value.low * (1.0 + a.terms.trailing.value)) == r.stop.value;
      }
    }
  }

  /** An order is looked at exactly when it could have traded. */
  lemma JudgeTrails(cfg: Config, o: OrderState, i: Instrument, snap: Snapshot, seqNo: nat, volume: real)
    ensures
      var v := Judge(cfg, o, i, snap, seqNo, volume);
      && (v.Ineligible? ==> !IsEligible(cfg.execution, o, snap.timestamp))
      && (v.NoPrint? || v.Print? ==> IsEligible(cfg.execution, o, snap.timestamp))
  {
    hide TryFill, Fillable, BuildFill, MarketBar, ShouldExpire;
  }

  lemma OtherWorkTrails(cfg: Config, s: State, id: OrderId, i: Instrument, snap: Snapshot, x: OrderId)
    requires Ledger(cfg, s) && Keyed(s) && Cancellable(s, id) && x in s.orders && x != id
    requires WorkOrder(cfg, s, id, i, snap).Ok?
    ensures x in WorkOrder(cfg, s, id, i, snap).value.orders
    ensures WorkOrder(cfg, s, id, i, snap).value.orders[x].stop == s.orders[x].stop
  {
    hide Ledger, Judge, Lawful, Enact, Quiet, Blank, StopId, TargetId;
    var o := s.orders[id];
    var volume := PeriodVolume(cfg, s, snap.timestamp);
    JudgeIsLawful(cfg, o, i, snap, s.nextFill + 1, volume);
    EnactOnlyWorked(cfg, s, id, Judge(cfg, o, i, snap, s.nextFill + 1, volume), i,
                    MarketBar(snap, o.terms.instrument, i), snap.timestamp);
  }

  lemma NextLevelTwice(cfg: Config, terms: OrderTerms, level: real, snap: Snapshot)
    requires terms.trailing.Some?
    ensures NextLevel(cfg, terms, NextLevel(cfg, terms, level, snap), snap) == NextLevel(cfg, terms, level, snap)
  {
  }

  /** Where the level stands after working a list that may or may not come to the order. */
  function Worked(cfg: Config, s: State, id: OrderId, snap: Snapshot, reached: bool): real
    requires Trails(s, id)
  {
    if reached then NextLevel(cfg, s.orders[id].terms, s.orders[id].stop.value, snap) else s.orders[id].stop.value
  }

  /** An order that is open later was open before, on the same terms. */
  lemma OpenBefore(s: State, t: State, id: OrderId)
    requires Since(s, t) && id in s.orders && Cancellable(t, id)
    ensures Cancellable(s, id) && t.orders[id].terms == s.orders[id].terms
  {
  }

  lemma WorkAllTrails(cfg: Config, s: State, ids: seq<OrderId>, inst: InstrumentId, i: Instrument, snap: Snapshot,
                      x: OrderId)
    requires Inv(s, {inst}) && Sound(cfg, s, false) && Trails(s, x) && WorkAll(cfg, s, ids, i, snap).Ok?
    requires forall id | id in ids :: id in s.orders && s.orders[id].terms.instrument == inst
    requires inst in cfg.instruments && i == cfg.instruments[inst]
    requires Cancellable(WorkAll(cfg, s, ids, i, snap).value, x)
    ensures LevelIs(WorkAll(cfg, s, ids, i, snap).value, x, Worked(cfg, s, x, snap, x in ids))
    decreases |ids|
  {
    hide Inv, WorkOrder, NextLevel, Ledger, OneLook;
    if ids == [] {
    } else {
      var s1 := s;
      if Cancellable(s, ids[0]) {
        s1 := WorkOrder(cfg, s, ids[0], i, snap).value;
        InvPaired(s, {inst});
        WorkOrderKeeps(cfg, s, ids[0], i, snap, {inst});
        WorkOrderSound(cfg, s, ids[0], i, snap, false, {inst});
        WorkAllKeeps(cfg, s1, ids[1..], inst, i, snap);
        OpenBefore(s1, WorkAll(cfg, s1, ids[1..], i, snap).value, x);
        hide Keyed, Paired, Bracketed;
        if ids[0] == x {
          WorkOrderTrails(cfg, s, x, i, snap);
          NextLevelTwice(cfg, s.orders[x].terms, s.orders[x].stop.value, snap);
        } else {
          OtherWorkTrails(cfg, s, ids[0], i, snap, x);
        }
      }
      hide Since, Sound;
      WorkAllTrails(cfg, s1, ids[1..], inst, i, snap, x);
      assert x in ids <==> x == ids[0] || x in ids[1..];
    }
  }

  lemma WorkBookTrails(cfg: Config, s: State, inst: InstrumentId, snap: Snapshot, x: OrderId)
    requires Inv(s, {}) && Sound(cfg, s, false) && Trails(s, x) && WorkBook(cfg, s, inst, snap).Ok?
    requires Cancellable(WorkBook(cfg, s, inst, snap).value, x)
    ensures LevelIs(WorkBook(cfg, s, inst, snap).value, x,
                    Worked(cfg, s, x, snap, inst == s.orders[x].terms.instrument))
  {
    hide Inv, Sound, NextLevel, WorkAll, MatchingOrder, Prune;
    OpenIsShelved(s, x);
    if inst in s.books {
      BookReady(s, inst);
      MatchingOrderMembers(s, s.books[inst]);
      WorkAllTrails(cfg, s, MatchingOrder(s, s.books[inst]), inst, cfg.instruments[inst], snap, x);
    }
  }

  lemma WorkBooksTrails(cfg: Config, s: State, keys: seq<InstrumentId>, snap: Snapshot, x: OrderId)
    requires Inv(s, {}) && Sound(cfg, s, false) && Trails(s, x) && WorkBooks(cfg, s, keys, snap).Ok?
    requires Cancellable(WorkBooks(cfg, s, keys, snap).value, x)
    ensures LevelIs(WorkBooks(cfg, s, keys, snap).value, x,
                    Worked(cfg, s, x, snap, s.orders[x].terms.instrument in keys))
    decreases |keys|
  {
    hide Inv, Sound, NextLevel, WorkBook;
    if keys == [] {
    } else {
      var s1 := WorkBook(cfg, s, keys[0], snap).value;
      WorkBookKeeps(cfg, s, keys[0], snap);
      WorkBookSound(cfg, s, keys[0], snap, false);
      WorkBooksKeeps(cfg, s1, keys[1..], snap);
      OpenBefore(s1, WorkBooks(cfg, s1, keys[1..], snap).value, x);
      OpenBefore(s, s1, x);
      hide Since;
      WorkBookTrails(cfg, s, keys[0], snap, x);
      NextLevelTwice(cfg, s.orders[x].terms, s.orders[x].stop.value, snap);
      WorkBooksTrails(cfg, s1, keys[1..], snap, x);
    }
  }

  lemma CancelTrails(s: State, id: OrderId, x: OrderId)
    requires x in s.orders
    ensures x in Cancel(s, id).orders && Cancel(s, id).orders[x].stop == s.orders[x].stop
  {
    if Cancellable(s, id) {
      CloseEffect(s, id, Cancelled);
      hide Close;
    }
  }

  lemma CancelEachTrails(s: State, ids: seq<OrderId>, x: OrderId)
    requires x in s.orders
    ensures x in CancelEach(s, ids).orders && CancelEach(s, ids).orders[x].stop == s.orders[x].stop
    decreases |ids|
  {
    hide Cancel;
    if ids == [] {
    } else {
      CancelTrails(s, ids[0], x);
      CancelEachTrails(Cancel(s, ids[0]), ids[1..], x);
    }
  }

  /** One call moves an open trailing stop exactly as its bar says. */
  lemma StepTrails(cfg: Config, s: State, c: Command, x: OrderId)
    requires Inv(s, {}) && Sound(cfg, s, false) && Trails(s, x) && Step(cfg, s, c).Ok?
    requires Cancellable(Step(cfg, s, c).value, x)
    ensures
      var level := s.orders[x].stop.value;
      LevelIs(Step(cfg, s, c).value, x, if c.Bar? then NextLevel(cfg, s.orders[x].terms, level, c.snap) else level)
  {
    hide Inv, Sound, NextLevel;
    match c
    case SubmitOrder(terms, quantity, stop) =>
      SubmitSpares(cfg, s, NewOrder(terms, quantity, stop).value, x);
      hide Submit;
    case CancelOrder(id) =>
      CancelTrails(s, id, x);
      hide Cancel;
    case CancelAll(instrument) =>
      CancelEachTrails(s, WorkingOrders(s, instrument), x);
      hide CancelEach, WorkingOrders;
    case Bar(snap) =>
      var s1 := s.(out := NO_RESULT.(rejections := s.pending), pending := []);
      OpenIsShelved(s, x);
      hide WorkBooks;
      ShapeKeeps(s, s1, {});
      RecordsSound(cfg, s, s1, false);
      WorkBooksTrails(cfg, s1, s.bookOrder, snap, x);
  }

  /** A trailing stop that is still open carries the running extreme of every bar it could have traded on since any
      earlier moment it was in the book; the level a bar is tested against is therefore that of the bars before it. */
  lemma {:induction false} TrailingLevelIsTheRunningExtreme(cfg: Config, commands: seq<Command>, k: nat, x: OrderId)
    requires k <= |commands| && Run(cfg, commands).Ok? && Run(cfg, commands[..k]).Ok?
    requires Trails(Run(cfg, commands[..k]).value, x) && Cancellable(Run(cfg, commands).value, x)
    ensures
      var o := Run(cfg, commands[..k]).value.orders[x];
      LevelIs(Run(cfg, commands).value, x, Level(cfg, o.terms, o.stop.value, commands[k..]))
    decreases |commands|
  {
    var n := |commands|;
    if k == n {
      assert commands[..k] == commands && commands[k..] == [];
    } else {
      hide Run, Level, Step, Inv, Sound, NextLevel, Since;
      var prefix := commands[..n - 1];
      assert prefix[..k] == commands[..k];
      RunLast(cfg, commands);
      var s := Run(cfg, prefix).value;
      RunInvariant(cfg, prefix);
      RunSound(cfg, prefix, false);
      RunSince(cfg, prefix, k);
      StepKeeps(cfg, s, commands[n - 1]);
      OpenBefore(s, Run(cfg, commands).value, x);
      OpenBefore(Run(cfg, commands[..k]).value, s, x);
      TrailingLevelIsTheRunningExtreme(cfg, prefix, k, x);
      StepTrails(cfg, s, commands[n - 1], x);
      var o := Run(cfg, commands[..k]).value.orders[x];
      LevelStep(cfg, o.terms, o.stop.value, commands, k);
    }
  }

  lemma RunLast(cfg: Config, commands: seq<Command>)
    requires commands != [] && Run(cfg, commands).Ok?
    ensures
      var before := Run(cfg, commands[..|commands| - 1]);
      before.Ok? && Run(cfg, commands) == Step(cfg, before.value, commands[|commands| - 1])
  {
    hide Step;
  }

  lemma LevelStep(cfg: Config, terms: OrderTerms, level: real, commands: seq<Command>, k: nat)
    requires terms.trailing.Some? && k < |commands|
    ensures
      var before := Level(cfg, terms, level, commands[..|commands| - 1][k..]);
      var last := commands[|commands| - 1];
      Level(cfg, terms, level, commands[k..]) == if last.Bar? then NextLevel(cfg, terms, before, last.snap) else before
  {
    var rest := commands[k..];
    assert rest[..|rest| - 1] == commands[..|commands| - 1][k..];
    hide NextLevel;
  }
}
