/** Where the legs of a bracket start: at the levels of its spec for what the entry has paid on average. */
module BrokerLevels {
  import opened Types
  import opened Money
  import opened Instruments
  import opened Orders
  import opened Execution
  import opened BrokerSpec
  import opened BrokerIndex
  import opened BrokerLedger
  import opened BrokerBrackets
  import opened BrokerRuns
  import opened BrokerTrailing

  /** What an order paid on average over a stretch of fills, or their last price while that is zero. */
  function EntryMean(log: seq<Fill>, p: OrderId): real
    requires log != []
  {
    var paid, size := PaidIn(log, p), FilledIn(log, p);
    if paid != 0.0 && size != 0.0 then paid / size else log[|log| - 1].price
  }

  /** A leg stands at its bracket's level for what the parent paid over these fills, the last of them the parent's. */
  ghost predicate StandsAt(cfg: Config, s: State, p: OrderId, x: OrderId, log: seq<Fill>) {
    && x in s.orders && p in s.orders && s.orders[p].terms.instrument in cfg.instruments
    && s.orders[x].terms.instrument == s.orders[p].terms.instrument
    && s.orders[p].terms.bracket.Some? && log != [] && log[|log| - 1].orderId == p
    && var spec, tick := s.orders[p].terms.bracket.value, cfg.instruments[s.orders[p].terms.instrument].tick;
       var side, entry := s.orders[p].terms.side, EntryMean(log, p);
       && (x == StopId(p) ==>
             && s.orders[x].terms.trailing == spec.trailingPct
             && exists level :: level > 0.0 && StopStands(spec, side, entry, level)
                                && LevelIs(s, x, RoundPrice(level, tick)))
       && (x == TargetId(p) ==>
             exists level :: level > 0.0 && TargetStands(spec, side, entry, level)
                             && s.orders[x].terms.limit == Some(RoundPrice(level, tick)))
  }

  /** One of the parent's prints after the first `base` fills raised the leg where it stands. */
  ghost predicate Started(cfg: Config, s: State, base: nat, p: OrderId, x: OrderId) {
    exists n :: base < n <= |s.log| && StandsAt(cfg, s, p, x, s.log[..n])
  }

  /** The leg is where it was, and the records go on from where they were. */
  predicate StaysPut(s: State, t: State, p: OrderId, x: OrderId) {
    && s.log <= t.log && x in s.orders && x in t.orders && p in s.orders && p in t.orders
    && t.orders[x].terms == s.orders[x].terms && t.orders[x].stop == s.orders[x].stop
    && t.orders[p].terms == s.orders[p].terms
  }

  lemma StartedStays(cfg: Config, s: State, t: State, base: nat, p: OrderId, x: OrderId)
    requires Started(cfg, s, base, p, x) && StaysPut(s, t, p, x)
    ensures Started(cfg, t, base, p, x)
  {
    var n :| base < n <= |s.log| && StandsAt(cfg, s, p, x, s.log[..n]);
    assert t.log[..n] == s.log[..n];
    hide EntryMean, StopStands, TargetStands, RoundPrice, StopId, TargetId;
    assert StandsAt(cfg, t, p, x, t.log[..n]);
  }

  /** An order's books give the price its legs are raised off. */
  lemma EntryIsTheMean(cfg: Config, s: State, p: OrderId, fill: Fill)
    requires Ledger(cfg, s) && Keyed(s) && p in s.orders && s.log != [] && s.log[|s.log| - 1] == fill
    requires fill.orderId == p
    ensures EntryPrice(s.orders[p], fill) == EntryMean(s.log, p)
  {
    assert Tallied(s.orders[p], s.log);
    assert Prints(s.log, p) > 0;
    hide FilledIn, PaidIn, Ledger;
    MeanOf(s.orders[p].avgPrice, FilledIn(s.log, p), PaidIn(s.log, p));
  }

  lemma MeanOf(average: real, size: real, paid: real)
    requires average * size == paid && size > 0.0
    ensures paid / size == average && (paid == 0.0 <==> average == 0.0)
  {
    assert paid / size == average;
  }

  lemma FinishStaysPut(cfg: Config, s: State, p: OrderId, bar: Option<Bar>, x: OrderId)
    requires p in s.orders && x in s.orders && x != p
    ensures
      var s3 := FinishPrint(cfg, s, p);
      StaysPut(s, Put(s3, p, Ratcheted(s3.orders[p], bar)), p, x)
  {
    SettleOcoEffect(s, p);
    CloseEffect(s, p, Cancelled);
    hide SettleOco, Close;
  }

  /** Legs raised off booked prints start at the bracket's levels for what the parent has paid on average by then. */
  lemma ActivateStarts(cfg: Config, s: State, p: OrderId, fill: Fill, i: Instrument, x: OrderId)
    requires Ledger(cfg, s) && Keyed(s) && p in s.orders && s.log != [] && s.log[|s.log| - 1] == fill
    requires fill.orderId == p && (p in s.brackets ==> s.orders[p].terms.bracket == Some(s.brackets[p]))
    requires s.orders[p].terms.instrument in cfg.instruments && i == cfg.instruments[s.orders[p].terms.instrument]
    requires ActivateBrackets(cfg, s, p, fill, i).Ok?
    requires (x == StopId(p) || x == TargetId(p)) && x !in s.orders
    requires x in ActivateBrackets(cfg, s, p, fill, i).value.orders
    ensures Started(cfg, ActivateBrackets(cfg, s, p, fill, i).value, |s.log| - 1, p, x)
  {
    var t := ActivateBrackets(cfg, s, p, fill, i).value;
    hide Ledger, ActivateBrackets, StopId, TargetId, RoundPrice, StopStands, TargetStands, EntryPrice, EntryMean;
    EntryIsTheMean(cfg, s, p, fill);
    if p !in s.brackets {
      ActivatesNothing(cfg, s, p, fill, i);
      assert false;
    }
    RaisedAtBracketLevel(cfg, s, p, fill, i);
    RaisedBeside(cfg, s, p, fill, i, x);
    ActivateRecords(cfg, s, p, fill, i);
    assert t.log[..|t.log|] == s.log;
    assert StandsAt(cfg, t, p, x, t.log[..|t.log|]);
  }

  lemma EntryBooks(cfg: Config, s: State, p: OrderId, a: OrderState, fill: Fill, at: Time)
    requires Keyed(s) && Bracketed(s) && Ledger(cfg, s) && Cancellable(s, p)
    requires Lawful(cfg, s.orders[p], Print(a, fill), at)
    ensures
      var t := Record(cfg, s, p, a.Booked(fill), fill);
      && Ledger(cfg, t) && Keyed(t) && t.log == s.log + [fill] && fill.orderId == p
      && t.orders.Keys == s.orders.Keys && t.orders[p].terms == s.orders[p].terms
      && (p in t.brackets ==> t.orders[p].terms.bracket == Some(t.brackets[p]))
  {
    RecordLedger(cfg, s, p, a, fill, at);
    hide Ledger;
  }

  lemma PrintStarts(cfg: Config, s: State, p: OrderId, a: OrderState, fill: Fill, i: Instrument, bar: Option<Bar>,
                    at: Time, x: OrderId)
    requires Keyed(s) && Bracketed(s) && Ledger(cfg, s) && Cancellable(s, p)
    requires s.orders[p].terms.instrument in cfg.instruments && i == cfg.instruments[s.orders[p].terms.instrument]
    requires Lawful(cfg, s.orders[p], Print(a, fill), at) && Enact(cfg, s, p, Print(a, fill), i, bar).Ok?
    requires (x == StopId(p) || x == TargetId(p)) && x !in s.orders
    requires x in Enact(cfg, s, p, Print(a, fill), i, bar).value.orders
    ensures Started(cfg, Enact(cfg, s, p, Print(a, fill), i, bar).value, |s.log|, p, x)
  {
    hide Ledger, Bracketed, ActivateBrackets, FinishPrint, Ratcheted, Record, StopId, TargetId, Reserved, ParentId,
         Started, Lawful, StaysPut, OrderState.Booked;
    var s1 := Record(cfg, s, p, a.Booked(fill), fill);
    EntryBooks(cfg, s, p, a, fill, at);
    LegIds(p);
    var s2 := ActivateBrackets(cfg, s1, p, fill, i).value;
    FinishStaysPut(cfg, s2, p, bar, x);
    ActivateStarts(cfg, s1, p, fill, i, x);
    var s3 := FinishPrint(cfg, s2, p);
    StartedStays(cfg, s2, Put(s3, p, Ratcheted(s3.orders[p], bar)), |s.log|, p, x);
  }

  lemma RaisedBeside(cfg: Config, s: State, p: OrderId, fill: Fill, i: Instrument, x: OrderId)
    requires p in s.orders && s.orders[p].terms.id == p && ActivateBrackets(cfg, s, p, fill, i).Ok?
    requires x !in s.orders && x in ActivateBrackets(cfg, s, p, fill, i).value.orders
    ensures
      ActivateBrackets(cfg, s, p, fill, i).value.orders[x].terms.instrument == s.orders[p].terms.instrument
  {
    if p in s.brackets && !Untouched(s, StopId(p)) && !Untouched(s, TargetId(p)) {
      var legs := Legs(s.orders[p], s.brackets[p], fill, i).value;
      LegsAreLegs(s.orders[p], s.brackets[p], fill, i);
      hide Legs, SubmitLegs, StopId, TargetId;
      SubmitLegsNew(cfg, s, legs, x);
    }
  }

  lemma ActivatesNothing(cfg: Config, s: State, p: OrderId, fill: Fill, i: Instrument)
    requires p in s.orders && p !in s.brackets
    ensures ActivateBrackets(cfg, s, p, fill, i) == Ok(s)
  {
  }

  lemma ActivateRecords(cfg: Config, s: State, p: OrderId, fill: Fill, i: Instrument)
    requires p in s.orders && s.orders[p].terms.id == p && ActivateBrackets(cfg, s, p, fill, i).Ok?
    ensures
      var t := ActivateBrackets(cfg, s, p, fill, i).value;
      t.log == s.log && p in t.orders && t.orders[p].terms == s.orders[p].terms
  {
    LegIds(p);
    ActivateSpares(cfg, s, p, fill, i, p);
    hide StopId, TargetId, Legs;
    if p in s.brackets && !Untouched(s, StopId(p)) && !Untouched(s, TargetId(p)) {
      SubmitLegsLog(cfg, s, Legs(s.orders[p], s.brackets[p], fill, i).value);
    }
  }

  // ---- over a bar ----------------------------------------------------------------------------------------------

  predicate IsLegId(x: OrderId, p: OrderId) {
    x == StopId(p) || x == TargetId(p)
  }

  /** Only an order's own print adds its legs. */
  lemma WorkOrderStarts(cfg: Config, s: State, id: OrderId, i: Instrument, snap: Snapshot, p: OrderId, x: OrderId)
    requires Keyed(s) && Bracketed(s) && Ledger(cfg, s) && Cancellable(s, id)
    requires s.orders[id].terms.instrument in cfg.instruments && i == cfg.instruments[s.orders[id].terms.instrument]
    requires WorkOrder(cfg, s, id, i, snap).Ok? && IsLegId(x, p) && x !in s.orders
    requires x in WorkOrder(cfg, s, id, i, snap).value.orders
    ensures id == p && p in WorkOrder(cfg, s, id, i, snap).value.orders
    ensures Started(cfg, WorkOrder(cfg, s, id, i, snap).value, |s.log|, p, x)
  {
    hide Ledger, Bracketed, Judge, Lawful, Enact, Started, Quiet, Blank, StopId, TargetId, IsVerdict;
    var o := s.orders[id];
    var volume := PeriodVolume(cfg, s, snap.timestamp);
    var v := Judge(cfg, o, i, snap, s.nextFill + 1, volume);
    var bar := MarketBar(snap, o.terms.instrument, i);
    JudgeIsLawful(cfg, o, i, snap, s.nextFill + 1, volume);
    JudgeIsVerdict(cfg, o, i, snap, s.nextFill + 1, volume);
    EnactOnlyWorked(cfg, s, id, v, i, bar, snap.timestamp);
    if id != p {
      LegIdsDiffer(p, id);
      assert false;
    }
    if v.Print? {
      PrintStarts(cfg, s, p, v.order, v.fill, i, bar, snap.timestamp, x);
    } else {
      NoPrintAddsNothing(cfg, s, id, v, i, bar);
    }
  }

  lemma NoPrintAddsNothing(cfg: Config, s: State, id: OrderId, v: Verdict, i: Instrument, bar: Option<Bar>)
    requires id in s.orders && !v.Print? && Enact(cfg, s, id, v, i, bar).Ok?
    ensures Enact(cfg, s, id, v, i, bar).value.orders.Keys == s.orders.Keys
  {
    CloseEffect(s, id, Expired);
    if v.NoPrint? {
      CloseEffect(Put(s, id, Ratcheted(v.order, bar)), id, Expired);
    }
    hide Close;
  }

  /** Working another order leaves a leg where it stands. */
  lemma OtherWorkStays(cfg: Config, s: State, id: OrderId, i: Instrument, snap: Snapshot, p: OrderId, x: OrderId,
                       busy: set<InstrumentId>)
    requires Inv(s, busy) && Ledger(cfg, s) && Cancellable(s, id) && s.orders[id].terms.instrument in busy
    requires WorkOrder(cfg, s, id, i, snap).Ok? && x in s.orders && p in s.orders && x != id
    ensures StaysPut(s, WorkOrder(cfg, s, id, i, snap).value, p, x)
  {
    WorkOrderKeeps(cfg, s, id, i, snap, busy);
    OtherWorkTrails(cfg, s, id, i, snap, x);
    hide Inv, Ledger, WorkOrder;
  }

  /** Either the leg is not there yet, or it was raised in this book after the first `base` fills and stands where it
      started. */
  ghost predicate Fresh(cfg: Config, s: State, inst: InstrumentId, base: nat, p: OrderId, x: OrderId) {
    && base <= |s.log|
    && (x in s.orders ==> p in s.orders && s.orders[p].terms.instrument == inst && Started(cfg, s, base, p, x))
  }

  lemma OneWorkStarts(cfg: Config, s: State, id: OrderId, inst: InstrumentId, i: Instrument, snap: Snapshot,
                      base: nat, p: OrderId, x: OrderId)
    requires Inv(s, {inst}) && Sound(cfg, s, false) && Cancellable(s, id) && WorkOrder(cfg, s, id, i, snap).Ok?
    requires s.orders[id].terms.instrument == inst
    requires inst in cfg.instruments && i == cfg.instruments[inst]
    requires IsLegId(x, p) && x != id && Fresh(cfg, s, inst, base, p, x)
    ensures Fresh(cfg, WorkOrder(cfg, s, id, i, snap).value, inst, base, p, x)
  {
    var t := WorkOrder(cfg, s, id, i, snap).value;
    InvPaired(s, {inst});
    WorkOrderKeeps(cfg, s, id, i, snap, {inst});
    hide Inv, WorkOrder, Ledger, OneLook, StandsAt, IsLegId, Keyed, Bracketed, Paired;
    if x in s.orders {
      OtherWorkStays(cfg, s, id, i, snap, p, x, {inst});
      StartedStays(cfg, s, t, base, p, x);
    } else if x in t.orders {
      WorkOrderStarts(cfg, s, id, i, snap, p, x);
      assert |s.log| >= base;
    }
  }

  lemma WorkAllStarts(cfg: Config, s: State, ids: seq<OrderId>, inst: InstrumentId, i: Instrument, snap: Snapshot,
                      base: nat, p: OrderId, x: OrderId)
    requires Inv(s, {inst}) && Sound(cfg, s, false) && WorkAll(cfg, s, ids, i, snap).Ok?
    requires forall id | id in ids :: id in s.orders && s.orders[id].terms.instrument == inst
    requires inst in cfg.instruments && i == cfg.instruments[inst]
    requires IsLegId(x, p) && x !in ids && Fresh(cfg, s, inst, base, p, x)
    ensures Fresh(cfg, WorkAll(cfg, s, ids, i, snap).value, inst, base, p, x)
    decreases |ids|
  {
    hide Inv, WorkOrder, Ledger, OneLook, Fresh, IsLegId;
    if ids != [] {
      var s1 := s;
      if Cancellable(s, ids[0]) {
        s1 := WorkOrder(cfg, s, ids[0], i, snap).value;
        WorkOrderKeeps(cfg, s, ids[0], i, snap, {inst});
        WorkOrderSound(cfg, s, ids[0], i, snap, false, {inst});
        OneWorkStarts(cfg, s, ids[0], inst, i, snap, base, p, x);
      }
      hide Sound;
      WorkAllStarts(cfg, s1, ids[1..], inst, i, snap, base, p, x);
    }
  }

  /** A book worked while the leg is not in it. */
  lemma WorkBookStarts(cfg: Config, s: State, inst: InstrumentId, snap: Snapshot, base: nat, p: OrderId, x: OrderId)
    requires Inv(s, {}) && Sound(cfg, s, false) && WorkBook(cfg, s, inst, snap).Ok?
    requires IsLegId(x, p) && x !in s.orders && base <= |s.log|
    ensures Fresh(cfg, WorkBook(cfg, s, inst, snap).value, inst, base, p, x)
  {
    hide Inv, Sound, WorkAll, MatchingOrder, Prune, StandsAt, IsLegId;
    if inst in s.books {
      var ids, i := MatchingOrder(s, s.books[inst]), cfg.instruments[inst];
      BookReady(s, inst);
      WorkAllStarts(cfg, s, ids, inst, i, snap, base, p, x);
      var t := WorkAll(cfg, s, ids, i, snap).value;
      if x in t.orders {
        StartedStays(cfg, t, Prune(t, inst), base, p, x);
      }
    }
  }

  /** An order in no book yet to be worked is left as it is. */
  lemma OtherBookStays(cfg: Config, s: State, inst: InstrumentId, snap: Snapshot, p: OrderId, x: OrderId)
    requires Inv(s, {}) && Sound(cfg, s, false) && WorkBook(cfg, s, inst, snap).Ok?
    requires x in s.orders && p in s.orders && s.orders[x].terms.instrument != inst
    ensures StaysPut(s, WorkBook(cfg, s, inst, snap).value, p, x)
  {
    WorkBookKeeps(cfg, s, inst, snap);
    hide Inv, Sound, WorkAll, MatchingOrder, Prune;
    if inst in s.books {
      BookReady(s, inst);
      WorkAllSpares(cfg, s, MatchingOrder(s, s.books[inst]), inst, cfg.instruments[inst], snap, x);
    }
  }

  lemma WorkAllSpares(cfg: Config, s: State, ids: seq<OrderId>, inst: InstrumentId, i: Instrument, snap: Snapshot,
                      x: OrderId)
    requires Inv(s, {inst}) && Sound(cfg, s, false) && WorkAll(cfg, s, ids, i, snap).Ok?
    requires forall id | id in ids :: id in s.orders && s.orders[id].terms.instrument == inst
    requires x in s.orders && x !in ids
    ensures x in WorkAll(cfg, s, ids, i, snap).value.orders
    ensures WorkAll(cfg, s, ids, i, snap).value.orders[x].stop == s.orders[x].stop
    decreases |ids|
  {
    hide Inv, WorkOrder, Ledger, OneLook;
    if ids != [] {
      var s1 := s;
      if Cancellable(s, ids[0]) {
        s1 := WorkOrder(cfg, s, ids[0], i, snap).value;
        WorkOrderKeeps(cfg, s, ids[0], i, snap, {inst});
        WorkOrderSound(cfg, s, ids[0], i, snap, false, {inst});
        InvPaired(s, {inst});
        OtherWorkTrails(cfg, s, ids[0], i, snap, x);
        hide Keyed, Paired, Bracketed;
      }
      hide Sound;
      WorkAllSpares(cfg, s1, ids[1..], inst, i, snap, x);
    }
  }

  /** Over the books of a bar: the leg's own book raises it, and the rest leave it. */
  lemma WorkBooksStarts(cfg: Config, s: State, keys: seq<InstrumentId>, snap: Snapshot, base: nat, p: OrderId,
                        x: OrderId)
    requires Inv(s, {}) && Sound(cfg, s, false) && WorkBooks(cfg, s, keys, snap).Ok? && NoDups(keys)
    requires IsLegId(x, p) && base <= |s.log|
    requires x in s.orders ==> p in s.orders && Started(cfg, s, base, p, x) && s.orders[x].terms.instrument !in keys
    ensures
      var t := WorkBooks(cfg, s, keys, snap).value;
      x in t.orders ==> p in t.orders && Started(cfg, t, base, p, x)
    decreases |keys|
  {
    hide Inv, Sound, WorkBook, StandsAt, IsLegId;
    if keys != [] {
      var s1 := WorkBook(cfg, s, keys[0], snap).value;
      WorkBookKeeps(cfg, s, keys[0], snap);
      WorkBookSound(cfg, s, keys[0], snap, false);
      if x in s.orders {
        OtherBookStays(cfg, s, keys[0], snap, p, x);
        StartedStays(cfg, s, s1, base, p, x);
      } else {
        WorkBookStarts(cfg, s, keys[0], snap, base, p, x);
        if x in s1.orders {
          StartedBeside(cfg, s1, base, p, x);
        }
      }
      hide Since, Started;
      WorkBooksStarts(cfg, s1, keys[1..], snap, base, p, x);
    }
  }

  lemma StartedBeside(cfg: Config, s: State, base: nat, p: OrderId, x: OrderId)
    requires Started(cfg, s, base, p, x)
    ensures x in s.orders && p in s.orders && s.orders[x].terms.instrument == s.orders[p].terms.instrument
  {
  }

  // ---- over a run ----------------------------------------------------------------------------------------------

  /** After whatever bar of a run a leg is first in the book, it stands at its bracket's level, on the tick grid, for
      what its parent had paid on average by one of that bar's prints. */
  lemma LegStartsAtItsLevel(cfg: Config, commands: seq<Command>, snap: Snapshot, p: OrderId, x: OrderId)
    requires Run(cfg, commands + [Command.Bar(snap)]).Ok? && Run(cfg, commands).Ok?
    requires x == StopId(p) || x == TargetId(p)
    requires x !in Run(cfg, commands).value.orders && x in Run(cfg, commands + [Command.Bar(snap)]).value.orders
    ensures
      Started(cfg, Run(cfg, commands + [Command.Bar(snap)]).value, |Run(cfg, commands).value.log|, p, x)
  {
    RunAppend(cfg, commands, Command.Bar(snap));
    RunInvariant(cfg, commands);
    RunSound(cfg, commands, false);
    var s := Run(cfg, commands).value;
    var s1 := s.(out := NO_RESULT.(rejections := s.pending), pending := []);
    assert NoDups(s.bookOrder);
    hide Run, Inv, Sound, WorkBooks, Started;
    ShapeKeeps(s, s1, {});
    RecordsSound(cfg, s, s1, false);
    WorkBooksStarts(cfg, s1, s.bookOrder, snap, |s.log|, p, x);
  }

  /** A trailing leg, from the bar that raises it to wherever it is still open: the running extreme starts from the
      bracket's level for what the parent had paid on average. */
  lemma TrailingLegRunsFromItsBracket(cfg: Config, commands: seq<Command>, k: nat, p: OrderId)
    returns (paid: seq<Fill>, level: real)
    requires k < |commands| && commands[k].Bar? && Run(cfg, commands).Ok?
    requires Run(cfg, commands[..k]).Ok? && Run(cfg, commands[..k + 1]).Ok?
    requires StopId(p) !in Run(cfg, commands[..k]).value.orders
    requires Trails(Run(cfg, commands[..k + 1]).value, StopId(p)) && Cancellable(Run(cfg, commands).value, StopId(p))
    ensures
      var first := Run(cfg, commands[..k + 1]).value;
      && |Run(cfg, commands[..k]).value.log| < |paid| && paid <= first.log
      && paid[|paid| - 1].orderId == p && p in first.orders
      && first.orders[p].terms.bracket.Some? && first.orders[p].terms.instrument in cfg.instruments
      && var terms, spec := first.orders[p].terms, first.orders[p].terms.bracket.value;
         var leg, tick := first.orders[StopId(p)].terms, cfg.instruments[terms.instrument].tick;
         && level > 0.0 && StopStands(spec, terms.side, EntryMean(paid, p), level) && leg.trailing == spec.trailingPct
         && LevelIs(Run(cfg, commands).value, StopId(p), Level(cfg, leg, RoundPrice(level, tick), commands[k + 1..]))
  {
    var before, first := Run(cfg, commands[..k]).value, Run(cfg, commands[..k + 1]).value;
    assert commands[..k + 1] == commands[..k] + [Command.Bar(commands[k].snap)];
    hide Run, Level, StopStands, TargetStands, EntryMean, StopId, TargetId, RoundPrice;
    LegStartsAtItsLevel(cfg, commands[..k], commands[k].snap, p, StopId(p));
    TrailingLevelIsTheRunningExtreme(cfg, commands, k + 1, StopId(p));
    hide Cancellable, Trails, Started;
    paid := PaidFor(cfg, first, |before.log|, p, StopId(p));
    var terms := first.orders[p].terms;
    level :| level > 0.0 && StopStands(terms.bracket.value, terms.side, EntryMean(paid, p), level)
      && LevelIs(first, StopId(p), RoundPrice(level, cfg.instruments[terms.instrument].tick));
  }

  lemma PaidFor(cfg: Config, s: State, base: nat, p: OrderId, x: OrderId) returns (paid: seq<Fill>)
    requires Started(cfg, s, base, p, x)
    ensures base < |paid| && paid <= s.log && StandsAt(cfg, s, p, x, paid)
  {
    var n :| base < n <= |s.log| && StandsAt(cfg, s, p, x, s.log[..n]);
    paid := s.log[..n];
  }
}
