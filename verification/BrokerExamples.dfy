/** Runs in which the broker does less than promised, each a concrete input for a limit stated elsewhere. */
module BrokerExamples {
  import opened Types
  import opened Money
  import opened Instruments
  import opened Orders
  import opened Execution
  import opened BrokerSpec
  import opened BrokerIndex
  import opened BrokerLedger
  import opened BrokerBrackets
  import opened BrokerTheorems
  import opened BrokerBars
  import opened BrokerRaises
  import Pricing

  // ---- one share, one bracketed entry, liquidity capped at the bar's volume ------------------------------------

  const SHARE := "X"
  const ENTRY := "E"
  const SPEC := BracketSpec(Some(90.0), None, Some(110.0), None, None)

  function Share(lot: real): Instrument
    requires lot > 0.0
  {
    RawInstrument(1.0, 1.0, lot, true, true, Shares(None))
  }

  function Setup(carry: bool, lot: real): Config
    requires lot > 0.0
  {
    Config(NextBarOpen(false), map[SHARE := Share(lot)], carry, true,
           (r: LiquidityRequest) => r.bar.volume,
           (r: PriceRequest) => Ok(PricedFill(r.reference, r.reference, 0.0, None)),
           (r: CostRequest) => Costs(0.0, 0.0),
           (at: Time) => 0)
  }

  const ENTRY_TERMS :=
    OrderTerms(ENTRY, SHARE, Buy, Market, 0, None, None, Gtc, None, false, Some(SPEC), None)

  function Flat(price: real, volume: Volume): Bar {
    RawBar(price, price, price, price, volume, None)
  }

  function At(time: Time, price: real, volume: Volume): Snapshot {
    Snapshot(time, false, map[SHARE := Flat(price, volume)], map[])
  }

  lemma FlatSettles(price: real, terms: OrderTerms, volume: Volume)
    requires price >= 1.0 && price == price.Floor as real && terms.Accepts(price)
    ensures Pricing.SettlePrice(price, terms, 1.0, Flat(price, volume), None) == price
  {
    WholeTick(price, Up);
    WholeTick(price, Down);
    hide RoundToTick;
  }

  lemma WholeTick(price: real, mode: Rounding)
    requires price == price.Floor as real && !mode.Nearest?
    ensures RoundToTick(price, 1.0, mode) == price
  {
    assert price / 1.0 == price;
    var ratio := price - TICK_EPSILON;
    assert mode.Up? ==> TickCount(price, mode) == price.Floor;
    assert mode.Down? ==> TickCount(price, mode) == price.Floor;
  }

  lemma UpToVolume(carry: bool, lot: real, o: OrderState, reference: real, bar: Bar)
    requires lot > 0.0 && !o.terms.tif.Fok? && o.filled <= o.quantity
    ensures
      Fillable(Setup(carry, lot), o, Share(lot), reference, bar)
        == if bar.volume >= o.quantity - o.filled then o.quantity - o.filled else RoundQuantity(bar.volume, lot)
  {
    hide RoundQuantity;
  }

  /** What an order gets from a bar that trades. */
  predicate Gets(v: Verdict, o: OrderState, at: Time, price: real, quantity: real) {
    && v.Print? && v.order == Activated(o, at)
    && v.fill.orderId == o.terms.id && v.fill.quantity == quantity && v.fill.price == price && v.fill.timestamp == at
    && v.fill.isPartial == (quantity < o.quantity - o.filled - QUANTITY_TOLERANCE)
  }

  lemma BarPrint(carry: bool, lot: real, o: OrderState, snap: Snapshot, bar: Bar, reference: real, seqNo: nat,
                 traded: real, price: real, quantity: real)
    requires lot > 0.0 && snap.bars == map[SHARE := bar]
    requires o.terms.instrument == SHARE && o.terms.tif.Gtc? && o.terms.expiresAt.None?
    requires o.IsOpen() && snap.timestamp > o.terms.submittedAt && o.filled <= o.quantity
    requires TryFill(NextBarOpen(false), Activated(o, snap.timestamp), Some(bar), snap.sessionClose) == Some(reference)
    requires Pricing.SettlePrice(reference, o.terms, 1.0, bar, None) == price && o.terms.Accepts(price)
    requires quantity
             == if bar.volume >= o.quantity - o.filled then o.quantity - o.filled else RoundQuantity(bar.volume, lot)
    requires QUANTITY_TOLERANCE < quantity <= o.quantity - o.filled
    ensures Gets(Judge(Setup(carry, lot), o, Share(lot), snap, seqNo, traded), o, snap.timestamp, price, quantity)
  {
    var cfg, a := Setup(carry, lot), Activated(o, snap.timestamp);
    hide RoundQuantity, TryFill, Pricing.SettlePrice;
    assert MarketBar(snap, SHARE, Share(lot)) == Some(bar);
    assert QuoteFor(snap, SHARE, Share(lot)) == None;
    UpToVolume(carry, lot, a, reference, bar);
    hide Fillable, MarketBar, QuoteFor;
  }

  lemma FlatPrint(carry: bool, lot: real, o: OrderState, at: Time, price: real, volume: Volume, seqNo: nat,
                  traded: real, quantity: real)
    requires lot > 0.0 && price >= 1.0 && price == price.Floor as real && o.terms.Accepts(price)
    requires o.terms.instrument == SHARE && o.terms.tif.Gtc? && o.terms.expiresAt.None? && !o.terms.kind.MarketOnClose?
    requires o.IsOpen() && at > o.terms.submittedAt && o.filled <= o.quantity
    requires TriggeredPrice(Activated(o, at), Flat(price, volume), price, false) == Some(price)
    requires quantity == if volume >= o.quantity - o.filled then o.quantity - o.filled else RoundQuantity(volume, lot)
    requires QUANTITY_TOLERANCE < quantity <= o.quantity - o.filled
    ensures Gets(Judge(Setup(carry, lot), o, Share(lot), At(at, price, volume), seqNo, traded), o, at, price, quantity)
  {
    var snap, bar := At(at, price, volume), Flat(price, volume);
    hide RoundQuantity, TriggeredPrice, Gets, Judge;
    FlatSettles(price, o.terms, volume);
    BarPrint(carry, lot, o, snap, bar, price, seqNo, traded, price, quantity);
  }

  // ---- the entry fills and is protected ------------------------------------------------------------------------

  const STOP := StopId(ENTRY)
  const TARGET := TargetId(ENTRY)

  const ENTRY_COMMAND := SubmitOrder(ENTRY_TERMS, 10.0, None)

  const WORKING := State(
    map[ENTRY := Pristine(ENTRY_TERMS, 10.0, None).(status := Accepted)], [ENTRY], map[SHARE := [ENTRY]], [SHARE],
    map[ENTRY := SPEC], map[], [], 0, None, 0.0, NO_RESULT, [])

  lemma EntryWorks(carry: bool)
    ensures Run(Setup(carry, 1.0), [ENTRY_COMMAND]) == Ok(WORKING)
  {
    var cfg := Setup(carry, 1.0);
    var o := Pristine(ENTRY_TERMS, 10.0, None);
    assert RoundQuantity(10.0, 1.0) > 0.0;
    assert IntakeRefusal(cfg, o) == None;
    hide RoundQuantity;
    var one := [ENTRY_COMMAND];
    assert one[..0] == [];
    var s := Admit(Init, o);
    assert s.orders == map[ENTRY := o.(status := Accepted)] && s.books[SHARE] == [ENTRY];
    assert s.books == map[SHARE := [ENTRY]] && s.brackets == map[ENTRY := SPEC];
    assert s.submitted == [ENTRY] && s.bookOrder == [SHARE];
    assert s == WORKING;
  }

  function StopLeg(at: Time, quantity: real): OrderState {
    Pristine(OrderTerms(STOP, SHARE, Sell, Stop, at, Some(ENTRY), None, Gtc, None, true, None, None), quantity,
             Some(90.0))
  }

  function TargetLeg(at: Time, quantity: real): OrderState {
    Pristine(OrderTerms(TARGET, SHARE, Sell, Limit, at, Some(ENTRY), Some(110.0), Gtc, None, true, None, None),
             quantity, None)
  }

  lemma EntryLegs(parent: OrderState, fill: Fill)
    requires parent.terms == ENTRY_TERMS
    ensures Legs(parent, SPEC, fill, Share(1.0))
              == Ok([StopLeg(fill.timestamp, parent.filled), TargetLeg(fill.timestamp, parent.filled)])
  {
    assert RoundPrice(90.0, 1.0) == 90.0 && RoundPrice(110.0, 1.0) == 110.0;
    var at := fill.timestamp;
    hide RoundPrice, StopId, TargetId;
    assert Leg(parent, STOP, Stop, None, Some(RoundPrice(90.0, 1.0)), None, at) == Ok(StopLeg(at, parent.filled));
    assert Leg(parent, TARGET, Limit, Some(RoundPrice(110.0, 1.0)), None, None, at) == Ok(TargetLeg(at, parent.filled));
    var entry := EntryPrice(parent, fill);
    assert StopLevel(SPEC, entry, true) == Some(90.0) && TargetLevel(SPEC, entry, true) == Some(110.0);
    hide Leg, StopLevel, TargetLevel;
    var sl, tp := StopLeg(at, parent.filled), TargetLeg(at, parent.filled);
    assert [sl] + [tp] == [sl, tp];
  }

  /** The entry has filled `quantity` of its ten, and both legs stand at that size. */
  ghost predicate Guarding(s: State, quantity: real, at: Time) {
    var done := quantity == 10.0;
    && s.orders.Keys == {ENTRY, STOP, TARGET}
    && s.orders[ENTRY].terms == ENTRY_TERMS && s.orders[ENTRY].quantity == 10.0 && s.orders[ENTRY].filled == quantity
    && s.orders[ENTRY].status == (if done then Filled else PartiallyFilled)
    && s.orders[STOP] == StopLeg(at, quantity).(status := Accepted)
    && s.orders[TARGET] == TargetLeg(at, quantity).(status := Accepted)
    && s.books == map[SHARE := if done then [STOP, TARGET] else [ENTRY, STOP, TARGET]] && s.bookOrder == [SHARE]
    && s.brackets == (if done then map[] else map[ENTRY := SPEC])
    && s.oco == map[STOP := TARGET, TARGET := STOP]
  }

  /** A bar over the one book there is. */
  lemma OneBook(cfg: Config, s: State, snap: Snapshot)
    requires s.bookOrder == [SHARE] && SHARE in s.books && SHARE in cfg.instruments
    ensures
      var s1 := s.(out := NO_RESULT.(rejections := s.pending), pending := []);
      var r := WorkAll(cfg, s1, MatchingOrder(s1, s.books[SHARE]), cfg.instruments[SHARE], snap);
      ProcessBar(cfg, s, snap) == if r.Ok? then Ok(Prune(r.value, SHARE)) else r
  {
    hide WorkAll, MatchingOrder, Prune;
    var s1 := s.(out := NO_RESULT.(rejections := s.pending), pending := []);
    assert s.bookOrder[1..] == [];
    assert forall t: State :: WorkBooks(cfg, t, [], snap) == Ok(t);
  }

  /** Both legs admitted and paired. */
  function WithLegs(s: State, sl: OrderState, tp: OrderState): State {
    Pair(Admit(Admit(s, sl), tp), [sl, tp])
  }

  lemma LegsJoin(cfg: Config, s: State, fill: Fill)
    requires cfg.instruments == map[SHARE := Share(1.0)] && ENTRY in s.orders && s.orders[ENTRY].terms == ENTRY_TERMS
    requires ENTRY in s.brackets && s.brackets[ENTRY] == SPEC && STOP !in s.orders && TARGET !in s.orders
    requires s.orders[ENTRY].filled >= 1.0
    ensures
      var q := s.orders[ENTRY].filled;
      ActivateBrackets(cfg, s, ENTRY, fill, Share(1.0))
        == Ok(WithLegs(s, StopLeg(fill.timestamp, q), TargetLeg(fill.timestamp, q)))
  {
    LegIds(ENTRY);
    var q := s.orders[ENTRY].filled;
    var sl, tp := StopLeg(fill.timestamp, q), TargetLeg(fill.timestamp, q);
    EntryLegs(s.orders[ENTRY], fill);
    assert RoundQuantity(q, 1.0) >= 1.0 by {
      assert q / 1.0 == q;
    }
    assert IntakeRefusal(cfg, sl) == None && IntakeRefusal(cfg, tp) == None;
    hide Legs, RoundQuantity, StopId, TargetId, IntakeRefusal, Reserved, ParentId;
    var legs := [sl, tp];
    assert legs[1..] == [tp] && [tp][1..] == [];
    assert Submit(cfg, s, sl) == Ok(Admit(s, sl));
    assert Submit(cfg, Admit(s, sl), tp) == Ok(Admit(Admit(s, sl), tp));
    hide Submit, Admit;
    assert SubmitLegs(cfg, Admit(Admit(s, sl), tp), []) == Ok(Admit(Admit(s, sl), tp));
    assert SubmitLegs(cfg, Admit(s, sl), [tp]) == Ok(Admit(Admit(s, sl), tp));
    assert SubmitLegs(cfg, s, legs) == Ok(Admit(Admit(s, sl), tp));
  }

  /** Enough of the first bar for all ten, or for four of them. */
  function FirstVolume(quantity: real): Volume {
    if quantity == 10.0 then 100.0 else 4.0
  }

  /** The entry's state once it has printed, before its legs are seen to. */
  ghost predicate EntryBooked(s: State, quantity: real) {
    && s.orders.Keys == {ENTRY} && s.orders[ENTRY].terms == ENTRY_TERMS
    && s.orders[ENTRY].quantity == 10.0 && s.orders[ENTRY].filled == quantity
    && s.orders[ENTRY].status == (if quantity == 10.0 then Filled else PartiallyFilled)
    && s.books == map[SHARE := [ENTRY]] && s.bookOrder == [SHARE] && s.brackets == map[ENTRY := SPEC] && s.oco == map[]
  }

  lemma EntryIsBooked(cfg: Config, s: State, v: Verdict, quantity: real)
    requires quantity == 10.0 || quantity == 4.0
    requires s == WORKING.(out := s.out) && Gets(v, s.orders[ENTRY], 1, 100.0, quantity)
    ensures EntryBooked(Record(cfg, s, ENTRY, v.order.Booked(v.fill), v.fill), quantity)
  {
  }

  lemma EntryVerdict(carry: bool, s: State, quantity: real, traded: real)
    requires quantity == 10.0 || quantity == 4.0
    requires s == WORKING.(out := s.out)
    ensures Gets(Judge(Setup(carry, 1.0), s.orders[ENTRY], Share(1.0), At(1, 100.0, FirstVolume(quantity)), 1, traded),
                 s.orders[ENTRY], 1, 100.0, quantity)
  {
    assert RoundQuantity(4.0, 1.0) == 4.0;
    FlatPrint(carry, 1.0, s.orders[ENTRY], 1, 100.0, FirstVolume(quantity), 1, traded, quantity);
    hide Gets, Judge;
  }

  lemma LegsStand(s: State, quantity: real)
    requires EntryBooked(s, quantity)
    ensures
      var t := WithLegs(s, StopLeg(1, quantity), TargetLeg(1, quantity));
      && t.orders == s.orders[STOP := StopLeg(1, quantity).(status := Accepted)]
                             [TARGET := TargetLeg(1, quantity).(status := Accepted)]
      && t.books == map[SHARE := [ENTRY, STOP, TARGET]] && t.bookOrder == [SHARE] && t.brackets == map[ENTRY := SPEC]
      && t.oco == map[STOP := TARGET, TARGET := STOP]
  {
    LegIds(ENTRY);
    hide StopId, TargetId, Reserved, ParentId;
    var t := WithLegs(s, StopLeg(1, quantity), TargetLeg(1, quantity));
    assert t.books[SHARE] == [ENTRY, STOP, TARGET];
  }

  /** Nothing is left to do for an entry with its legs raised. */
  lemma EntryRests(cfg: Config, s: State, bar: Option<Bar>)
    requires ENTRY in s.orders && s.orders[ENTRY].terms == ENTRY_TERMS && ENTRY !in s.oco
    requires s.orders[ENTRY].status.Filled? || cfg.carryRemainder
    ensures FinishPrint(cfg, s, ENTRY) == s && Ratcheted(s.orders[ENTRY], bar) == s.orders[ENTRY]
    ensures Put(s, ENTRY, s.orders[ENTRY]) == s
  {
    assert s.orders[ENTRY := s.orders[ENTRY]] == s.orders;
  }

  /** Working the entry on the first bar. */
  lemma EntryPrints(carry: bool, s: State, quantity: real) returns (s1: State)
    requires quantity == 10.0 || (quantity == 4.0 && carry)
    requires s == WORKING.(out := s.out)
    ensures EntryBooked(s1, quantity)
    ensures WorkOrder(Setup(carry, 1.0), s, ENTRY, Share(1.0), At(1, 100.0, FirstVolume(quantity)))
              == Ok(WithLegs(s1, StopLeg(1, quantity), TargetLeg(1, quantity)))
  {
    var cfg, snap, o := Setup(carry, 1.0), At(1, 100.0, FirstVolume(quantity)), s.orders[ENTRY];
    var traded := PeriodVolume(cfg, s, 1);
    var v := Judge(cfg, o, Share(1.0), snap, 1, traded);
    var bar := MarketBar(snap, SHARE, Share(1.0));
    EntryVerdict(carry, s, quantity, traded);
    EntryIsBooked(cfg, s, v, quantity);
    s1 := Record(cfg, s, ENTRY, v.order.Booked(v.fill), v.fill);
    LegIds(ENTRY);
    LegsJoin(cfg, s1, v.fill);
    LegsStand(s1, quantity);
    hide Judge, MarketBar, StopId, TargetId, Reserved, ParentId, Record, WithLegs, Enact, ActivateBrackets, FinishPrint,
         Ratcheted, Put, PeriodVolume, FirstVolume;
    var s2 := WithLegs(s1, StopLeg(1, quantity), TargetLeg(1, quantity));
    EntryRests(cfg, s2, bar);
    EnactPrint(cfg, s, ENTRY, v, Share(1.0), bar, s2);
  }

  lemma EnactPrint(cfg: Config, s: State, id: OrderId, v: Verdict, i: Instrument, bar: Option<Bar>, s2: State)
    requires id in s.orders && v.Print? && id in s2.orders
    requires id in Record(cfg, s, id, v.order.Booked(v.fill), v.fill).orders
    requires ActivateBrackets(cfg, Record(cfg, s, id, v.order.Booked(v.fill), v.fill), id, v.fill, i) == Ok(s2)
    ensures
      var s3 := FinishPrint(cfg, s2, id);
      Enact(cfg, s, id, v, i, bar) == Ok(Put(s3, id, Ratcheted(s3.orders[id], bar)))
  {
    hide ActivateBrackets, FinishPrint, Ratcheted, OrderState.Booked;
  }

  lemma KeepTail<T>(xs: seq<T>, x: T, chosen: set<T>)
    ensures Keep(xs + [x], chosen) == if x in chosen then Keep(xs, chosen) + [x] else Keep(xs, chosen)
  {
    KeepAppend(xs, x, chosen);
  }

  lemma KeepThree(x: OrderId, y: OrderId, z: OrderId, chosen: set<OrderId>)
    ensures Keep([x, y, z], chosen)
              == (if x in chosen then [x] else []) + (if y in chosen then [y] else [])
                 + (if z in chosen then [z] else [])
  {
    assert Keep<OrderId>([], chosen) == [];
    hide Keep;
    assert [x, y, z] == ([] + [x] + [y]) + [z];
    KeepTail([], x, chosen);
    KeepTail([] + [x], y, chosen);
    KeepTail([] + [x] + [y], z, chosen);
  }

  lemma LegsKept(t: State, done: bool)
    requires t.books == map[SHARE := [ENTRY, STOP, TARGET]] && t.bookOrder == [SHARE]
    requires t.brackets == map[ENTRY := SPEC]
    requires t.orders.Keys == {ENTRY, STOP, TARGET} && t.orders[STOP].IsOpen() && t.orders[TARGET].IsOpen()
    requires t.orders[ENTRY].IsOpen() <==> !done
    ensures Prune(t, SHARE) == t.(books := map[SHARE := if done then [STOP, TARGET] else [ENTRY, STOP, TARGET]],
                                  brackets := if done then map[] else map[ENTRY := SPEC])
  {
    LegIds(ENTRY);
    hide Keep, StopId, TargetId, Reserved, ParentId;
    KeepThree(ENTRY, STOP, TARGET, t.Open());
    var kept := Keep(t.books[SHARE], t.Open());
    assert kept == if done then [STOP, TARGET] else [ENTRY, STOP, TARGET];
    var gone := (set id | id in t.books[SHARE]) - t.Open();
    assert gone == if done then {ENTRY} else {};
    assert t.brackets - gone == if done then map[] else map[ENTRY := SPEC];
  }

  /** Pruning a book after the entry and its legs stand. */
  lemma LegsPruned(s: State, quantity: real)
    requires EntryBooked(s, quantity) && (quantity == 10.0 || quantity == 4.0)
    ensures Guarding(Prune(WithLegs(s, StopLeg(1, quantity), TargetLeg(1, quantity)), SHARE), quantity, 1)
  {
    var t := WithLegs(s, StopLeg(1, quantity), TargetLeg(1, quantity));
    LegIds(ENTRY);
    LegsStand(s, quantity);
    assert t.orders[ENTRY] == s.orders[ENTRY];
    hide StopId, TargetId, Reserved, ParentId, WithLegs, Keep, StopLeg, TargetLeg;
    LegsKept(t, quantity == 10.0);
  }

  lemma OneOrder(cfg: Config, s: State, id: OrderId, snap: Snapshot, i: Instrument)
    requires Cancellable(s, id)
    ensures WorkAll(cfg, s, MatchingOrder(s, [id]), i, snap) == WorkOrder(cfg, s, id, i, snap)
  {
    hide WorkOrder;
    var book := [id];
    assert book == [] + [id];
    KeepTail([], id, s.Stops());
    KeepTail([], id, (set x | x in book) - s.Stops());
    assert Keep<OrderId>([], s.Stops()) == [] && Keep<OrderId>([], (set x | x in book) - s.Stops()) == [];
    hide Keep;
    assert MatchingOrder(s, book) == [id];
    hide MatchingOrder;
    assert book[1..] == [];
    assert forall t: State :: WorkAll(cfg, t, [], i, snap) == Ok(t);
  }

  function FirstBar(quantity: real): Command {
    Command.Bar(At(1, 100.0, FirstVolume(quantity)))
  }

  lemma FirstBarWorks(carry: bool, quantity: real)
    requires quantity == 10.0 || (quantity == 4.0 && carry)
    ensures
      var r := ProcessBar(Setup(carry, 1.0), WORKING, At(1, 100.0, FirstVolume(quantity)));
      r.Ok? && Guarding(r.value, quantity, 1)
  {
    var cfg, snap := Setup(carry, 1.0), At(1, 100.0, FirstVolume(quantity));
    var s := WORKING.(out := NO_RESULT.(rejections := WORKING.pending), pending := []);
    assert Cancellable(s, ENTRY) && cfg.instruments[SHARE] == Share(1.0);
    assert WORKING.books[SHARE] == [ENTRY] && WORKING.bookOrder == [SHARE];
    assert s == WORKING.(out := s.out);
    hide *;
    OneBook(cfg, WORKING, snap);
    OneOrder(cfg, s, ENTRY, snap, Share(1.0));
    var s1 := EntryPrints(carry, s, quantity);
    LegsPruned(s1, quantity);
  }

  lemma EntryGuarded(carry: bool, quantity: real)
    requires quantity == 10.0 || (quantity == 4.0 && carry)
    ensures
      var r := Run(Setup(carry, 1.0), [ENTRY_COMMAND, FirstBar(quantity)]);
      r.Ok? && Guarding(r.value, quantity, 1)
  {
    EntryWorks(carry);
    RunAppend(Setup(carry, 1.0), [ENTRY_COMMAND], FirstBar(quantity));
    assert [ENTRY_COMMAND] + [FirstBar(quantity)] == [ENTRY_COMMAND, FirstBar(quantity)];
    hide Run, Guarding, FirstVolume, ProcessBar, Setup, At;
    FirstBarWorks(carry, quantity);
  }

  // ---- a leg prints in part, and its sibling in full -----------------------------------------------------------

  lemma StopVerdict(carry: bool, o: OrderState, seqNo: nat, traded: real)
    requires o == StopLeg(1, 10.0).(status := Accepted)
    ensures Gets(Judge(Setup(carry, 1.0), o, Share(1.0), At(2, 85.0, 4.0), seqNo, traded), o, 2, 85.0, 4.0)
  {
    assert RoundQuantity(4.0, 1.0) == 4.0;
    FlatPrint(carry, 1.0, o, 2, 85.0, 4.0, seqNo, traded, 4.0);
    hide Gets, Judge;
  }

  lemma TargetVerdict(carry: bool, o: OrderState, seqNo: nat, traded: real)
    requires o == TargetLeg(1, 10.0).(status := Accepted, activatedAt := Some(2))
    ensures Gets(Judge(Setup(carry, 1.0), o, Share(1.0), At(3, 120.0, 100.0), seqNo, traded), o, 3, 120.0, 10.0)
  {
    FlatPrint(carry, 1.0, o, 3, 120.0, 100.0, seqNo, traded, 10.0);
    hide Gets, Judge;
  }

  /** A flat bar that does not reach an order leaves it as it is, but for its activation. */
  lemma OutOfReach(carry: bool, s: State, id: OrderId, at: Time, price: real, volume: Volume)
    requires id in s.orders && s.orders[id].terms.instrument == SHARE && s.orders[id].terms.tif.Gtc?
    requires s.orders[id].terms.expiresAt.None? && s.orders[id].terms.trailing.None?
    requires !s.orders[id].terms.kind.MarketOnClose?
    requires s.orders[id].IsOpen() && at > s.orders[id].terms.submittedAt
    requires TriggeredPrice(Activated(s.orders[id], at), Flat(price, volume), price, false) == None
    ensures WorkOrder(Setup(carry, 1.0), s, id, Share(1.0), At(at, price, volume))
              == Ok(Put(s, id, Activated(s.orders[id], at)))
  {
    hide TriggeredPrice, Record, ActivateBrackets, FinishPrint, Fillable, BuildFill;
  }

  /** What the stop's partial print leaves: the rest of it carried or dropped, the target as it was. */
  ghost predicate Torn(s: State, carry: bool) {
    && s.orders.Keys == {ENTRY, STOP, TARGET} && s.orders[ENTRY].filled == 10.0
    && s.orders[STOP].filled == 4.0 && s.orders[STOP].status == (if carry then PartiallyFilled else Cancelled)
    && s.orders[STOP] == StopLeg(1, 10.0).(
         status := s.orders[STOP].status, filled := 4.0, activatedAt := Some(2),
         avgPrice := s.orders[STOP].avgPrice, commissionPaid := s.orders[STOP].commissionPaid)
    && s.books == map[SHARE := if carry then [STOP, TARGET] else [TARGET]] && s.bookOrder == [SHARE]
    && s.brackets == map[]
  }

  lemma StopIsBooked(cfg: Config, s: State, v: Verdict)
    requires Guarding(s, 10.0, 1) && Gets(v, s.orders[STOP], 2, 85.0, 4.0)
    ensures
      var t := Record(cfg, s, STOP, v.order.Booked(v.fill), v.fill);
      && Torn(t, true) && t.orders == s.orders[STOP := t.orders[STOP]] && t.oco == s.oco
  {
    LegIds(ENTRY);
    hide StopId, TargetId, Reserved, ParentId;
  }

  /** What follows the print: nothing if the remainder is carried, else the leg is cancelled and leaves its book. */
  lemma StopRests(cfg: Config, s: State, bar: Option<Bar>)
    requires Torn(s, true)
    ensures
      var t := FinishPrint(cfg, s, STOP);
      && Torn(t, cfg.carryRemainder) && t.orders == s.orders[STOP := t.orders[STOP]]
      && Put(t, STOP, Ratcheted(t.orders[STOP], bar)) == t
  {
    LegIds(ENTRY);
    var t := FinishPrint(cfg, s, STOP);
    hide StopId, TargetId, Reserved, ParentId;
    if cfg.carryRemainder {
      assert s.orders[STOP := s.orders[STOP]] == s.orders;
    } else {
      assert Without([STOP, TARGET], STOP) == [TARGET] by {
        WithoutAppend([STOP], TARGET, STOP);
        assert [STOP] + [TARGET] == [STOP, TARGET];
      }
      hide Without;
      assert t.orders[STOP := t.orders[STOP]] == t.orders;
    }
  }

  lemma StopPrintsPart(carry: bool, s: State) returns (t: State)
    requires Guarding(s, 10.0, 1)
    ensures WorkOrder(Setup(carry, 1.0), s, STOP, Share(1.0), At(2, 85.0, 4.0)) == Ok(t)
    ensures Torn(t, carry) && t.orders == s.orders[STOP := t.orders[STOP]]
  {
    var cfg, snap := Setup(carry, 1.0), At(2, 85.0, 4.0);
    var traded := PeriodVolume(cfg, s, 2);
    var v := Judge(cfg, s.orders[STOP], Share(1.0), snap, s.nextFill + 1, traded);
    var bar := MarketBar(snap, SHARE, Share(1.0));
    assert snap.timestamp == 2 && cfg.carryRemainder == carry;
    hide Judge, PeriodVolume, MarketBar, Share, Setup, WorkOrder, Enact, Record, FinishPrint, Ratcheted, Put,
         ActivateBrackets, StopId, TargetId, Torn;
    StopVerdict(carry, s.orders[STOP], s.nextFill + 1, traded);
    StopIsBooked(cfg, s, v);
    WorkIsEnact(cfg, s, STOP, SHARE, Share(1.0), snap);
    var s1 := Record(cfg, s, STOP, v.order.Booked(v.fill), v.fill);
    hide OrderState.Booked, Guarding;
    t := StopAftermath(cfg, s, s1, v, bar);
  }

  lemma StopAftermath(cfg: Config, s: State, s1: State, v: Verdict, bar: Option<Bar>) returns (t: State)
    requires STOP in s.orders && v.Print? && s1 == Record(cfg, s, STOP, v.order.Booked(v.fill), v.fill)
    requires Torn(s1, true) && s1.orders == s.orders[STOP := s1.orders[STOP]]
    ensures Enact(cfg, s, STOP, v, Share(1.0), bar) == Ok(t)
    ensures Torn(t, cfg.carryRemainder) && t.orders == s.orders[STOP := t.orders[STOP]]
  {
    hide Enact, Record, FinishPrint, Ratcheted, Put, ActivateBrackets, StopId, TargetId;
    NoBracket(cfg, s1, STOP, v.fill, Share(1.0));
    StopRests(cfg, s1, bar);
    EnactPrint(cfg, s, STOP, v, Share(1.0), bar, s1);
    t := FinishPrint(cfg, s1, STOP);
    OneChange(s.orders, s1.orders, t.orders, STOP);
  }

  lemma WorkIsEnact(cfg: Config, s: State, id: OrderId, inst: InstrumentId, i: Instrument, snap: Snapshot)
    requires id in s.orders && s.orders[id].terms.instrument == inst
    ensures WorkOrder(cfg, s, id, i, snap)
              == Enact(cfg, s, id,
                       Judge(cfg, s.orders[id], i, snap, s.nextFill + 1, PeriodVolume(cfg, s, snap.timestamp)), i,
                       MarketBar(snap, inst, i))
  {
    hide Judge, Enact, MarketBar, PeriodVolume;
  }

  lemma OneChange<K, V>(a: map<K, V>, b: map<K, V>, c: map<K, V>, k: K)
    requires k in b && k in c && b == a[k := b[k]] && c == b[k := c[k]]
    ensures c == a[k := c[k]]
  {
  }

  lemma KeepTwo(x: OrderId, y: OrderId, chosen: set<OrderId>)
    ensures Keep([x, y], chosen) == (if x in chosen then [x] else []) + (if y in chosen then [y] else [])
  {
    assert Keep<OrderId>([], chosen) == [];
    hide Keep;
    assert [x, y] == ([] + [x]) + [y];
    KeepTail([], x, chosen);
    KeepTail([] + [x], y, chosen);
  }

  /** A stop and a target in one book are worked in that order. */
  lemma StopThenTarget(cfg: Config, s: State, snap: Snapshot, i: Instrument)
    requires STOP in s.orders && s.orders[STOP].terms.kind.Stop? && TARGET in s.orders
    requires s.orders[TARGET].terms.kind.Limit?
    requires s.orders[STOP].IsOpen() && WorkOrder(cfg, s, STOP, i, snap).Ok?
    requires TARGET in WorkOrder(cfg, s, STOP, i, snap).value.orders
    requires Cancellable(WorkOrder(cfg, s, STOP, i, snap).value, TARGET)
    ensures WorkAll(cfg, s, MatchingOrder(s, [STOP, TARGET]), i, snap)
              == WorkOrder(cfg, WorkOrder(cfg, s, STOP, i, snap).value, TARGET, i, snap)
  {
    LegIds(ENTRY);
    hide WorkOrder, StopId, TargetId, Reserved, ParentId;
    var book := [STOP, TARGET];
    var all := set id | id in book;
    assert STOP in all && TARGET in all;
    KeepTwo(STOP, TARGET, s.Stops());
    KeepTwo(STOP, TARGET, all - s.Stops());
    hide Keep;
    assert MatchingOrder(s, book) == [STOP] + [TARGET] == book;
    hide MatchingOrder;
    assert book[1..] == [TARGET] && [TARGET][1..] == [];
    var t := WorkOrder(cfg, s, STOP, i, snap).value;
    assert WorkAll(cfg, t, [TARGET], i, snap) == WorkOrder(cfg, t, TARGET, i, snap) by {
      assert forall u: State :: WorkAll(cfg, u, [], i, snap) == Ok(u);
    }
  }

  lemma PruneNothing(s: State)
    requires s.bookOrder == [SHARE] && SHARE in s.books && s.books[SHARE] != [] && s.brackets == map[]
    requires Keep(s.books[SHARE], s.Open()) == s.books[SHARE] && s.books == map[SHARE := s.books[SHARE]]
    ensures Prune(s, SHARE) == s
  {
    hide Keep;
    assert s.brackets - ((set id | id in s.books[SHARE]) - s.Open()) == s.brackets;
  }

  /** The second bar reaches the stop alone, with volume for four of ten. */
  lemma SecondBar(carry: bool, s: State) returns (t: State)
    requires Guarding(s, 10.0, 1)
    ensures ProcessBar(Setup(carry, 1.0), s, At(2, 85.0, 4.0)) == Ok(t)
    ensures Torn(t, carry) && t.orders[TARGET] == TargetLeg(1, 10.0).(status := Accepted, activatedAt := Some(2))
  {
    var cfg, snap := Setup(carry, 1.0), At(2, 85.0, 4.0);
    var s1 := s.(out := NO_RESULT.(rejections := s.pending), pending := []);
    assert Guarding(s1, 10.0, 1) && cfg.instruments[SHARE] == Share(1.0) && snap == At(2, 85.0, 4.0);
    LegIds(ENTRY);
    hide Setup, At, WorkOrder, WorkAll, MatchingOrder, StopId, TargetId, Reserved, ParentId, Prune, Keep, ProcessBar,
         Torn;
    OneBook(cfg, s, snap);
    var s2 := StopPrintsPart(carry, s1);
    TornOrders(s2, carry);
    StopThenTarget(cfg, s1, snap, Share(1.0));
    TargetOutOfReach(carry, s2);
    hide Guarding;
    t := Put(s2, TARGET, Activated(s2.orders[TARGET], 2));
    TornKept(s2, t, carry);
  }

  lemma TornOrders(s: State, carry: bool)
    requires Torn(s, carry)
    ensures STOP in s.orders && TARGET in s.orders && ENTRY in s.orders && STOP != TARGET
  {
    LegIds(ENTRY);
    hide StopId, TargetId;
  }

  lemma TargetOutOfReach(carry: bool, s: State)
    requires TARGET in s.orders && s.orders[TARGET] == TargetLeg(1, 10.0).(status := Accepted)
    ensures WorkOrder(Setup(carry, 1.0), s, TARGET, Share(1.0), At(2, 85.0, 4.0))
              == Ok(Put(s, TARGET, Activated(s.orders[TARGET], 2)))
  {
    assert TriggeredPrice(Activated(s.orders[TARGET], 2), Flat(85.0, 4.0), 85.0, false) == None;
    hide TriggeredPrice, Setup, At, Put, WorkOrder;
    OutOfReach(carry, s, TARGET, 2, 85.0, 4.0);
  }

  lemma TornKept(s: State, t: State, carry: bool)
    requires Torn(s, carry) && TARGET in s.orders && s.orders[TARGET] == TargetLeg(1, 10.0).(status := Accepted)
    requires t == Put(s, TARGET, s.orders[TARGET].(activatedAt := Some(2)))
    ensures Torn(t, carry) && Prune(t, SHARE) == t
  {
    LegIds(ENTRY);
    hide StopId, TargetId, Reserved, ParentId, Keep, Prune;
    KeepTwo(STOP, TARGET, t.Open());
    KeepAppend([], TARGET, t.Open());
    assert [] + [TARGET] == [TARGET];
    KeepNone(t.Open());
    PruneNothing(t);
  }

  lemma KeepNone(chosen: set<OrderId>)
    ensures Keep<OrderId>([], chosen) == []
  {
  }

  /** What each of the three has filled. */
  ghost predicate Closed(s: State, entry: real, stop: real, target: real) {
    FilledBy(s, ENTRY) == entry && FilledBy(s, STOP) == stop && FilledBy(s, TARGET) == target
  }

  lemma TargetPrints(carry: bool, s: State) returns (t: State)
    requires Torn(s, carry) && s.orders[TARGET] == TargetLeg(1, 10.0).(status := Accepted, activatedAt := Some(2))
    ensures WorkOrder(Setup(carry, 1.0), s, TARGET, Share(1.0), At(3, 120.0, 100.0)) == Ok(t)
    ensures Closed(t, 10.0, 4.0, 10.0)
  {
    var cfg, snap := Setup(carry, 1.0), At(3, 120.0, 100.0);
    var traded := PeriodVolume(cfg, s, 3);
    var v := Judge(cfg, s.orders[TARGET], Share(1.0), snap, s.nextFill + 1, traded);
    var bar := MarketBar(snap, SHARE, Share(1.0));
    TornOrders(s, carry);
    assert snap.timestamp == 3;
    hide Judge, PeriodVolume, MarketBar, Share, Setup, WorkOrder, Enact, FinishPrint, Ratcheted, ActivateBrackets,
         StopId, TargetId;
    TargetVerdict(carry, s.orders[TARGET], s.nextFill + 1, traded);
    WorkIsEnact(cfg, s, TARGET, SHARE, Share(1.0), snap);
    var s1 := Record(cfg, s, TARGET, v.order.Booked(v.fill), v.fill);
    TargetIsBooked(cfg, s, v, carry);
    hide OrderState.Booked, Record;
    assert ActivateBrackets(cfg, s1, TARGET, v.fill, Share(1.0)) == Ok(s1) by {
      NoBracket(cfg, s1, TARGET, v.fill, Share(1.0));
    }
    EnactPrint(cfg, s, TARGET, v, Share(1.0), bar, s1);
    FinishKeepsFilled(cfg, s1, TARGET, bar);
    var s3 := FinishPrint(cfg, s1, TARGET);
    t := Put(s3, TARGET, Ratcheted(s3.orders[TARGET], bar));
  }

  lemma NoBracket(cfg: Config, s: State, id: OrderId, fill: Fill, i: Instrument)
    requires id in s.orders && id !in s.brackets
    ensures ActivateBrackets(cfg, s, id, fill, i) == Ok(s)
  {
  }

  lemma TargetIsBooked(cfg: Config, s: State, v: Verdict, carry: bool)
    requires Torn(s, carry) && TARGET in s.orders && Gets(v, s.orders[TARGET], 3, 120.0, 10.0)
    requires s.orders[TARGET] == TargetLeg(1, 10.0).(status := Accepted, activatedAt := Some(2))
    ensures
      var t := Record(cfg, s, TARGET, v.order.Booked(v.fill), v.fill);
      Closed(t, 10.0, 4.0, 10.0) && TARGET in t.orders && STOP in t.orders && ENTRY in t.orders && t.brackets == map[]
  {
    LegIds(ENTRY);
    hide StopId, TargetId, Reserved, ParentId;
  }

  /** Whatever follows a print, no order's filled quantity changes. */
  lemma FinishKeepsFilled(cfg: Config, s: State, id: OrderId, bar: Option<Bar>)
    requires id in s.orders
    ensures
      var s3 := FinishPrint(cfg, s, id);
      var t := Put(s3, id, Ratcheted(s3.orders[id], bar));
      forall x :: FilledBy(t, x) == FilledBy(s, x)
  {
    SettleOcoEffect(s, id);
    CloseEffect(s, id, Cancelled);
    hide SettleOco, Close, Ratcheted;
  }

  /** The third bar is past the target, with volume for all of it. */
  lemma ThirdBar(carry: bool, s: State) returns (t: State)
    requires Torn(s, carry) && TARGET in s.orders
    requires s.orders[TARGET] == TargetLeg(1, 10.0).(status := Accepted, activatedAt := Some(2))
    ensures ProcessBar(Setup(carry, 1.0), s, At(3, 120.0, 100.0)) == Ok(t)
    ensures Closed(t, 10.0, 4.0, 10.0)
  {
    var cfg, snap := Setup(carry, 1.0), At(3, 120.0, 100.0);
    var s1 := s.(out := NO_RESULT.(rejections := s.pending), pending := []);
    assert cfg.instruments[SHARE] == Share(1.0) && snap == At(3, 120.0, 100.0);
    TornOrders(s, carry);
    assert Torn(s1, carry);
    hide Setup, At, WorkOrder, WorkAll, MatchingOrder, StopId, TargetId, Reserved, ParentId, Prune, Keep, ProcessBar;
    OneBook(cfg, s, snap);
    var s2 := s1;
    if carry {
      s2 := Put(s1, STOP, s1.orders[STOP]);
      assert s2 == s1 by {
        assert s1.orders[STOP := s1.orders[STOP]] == s1.orders;
      }
      StopOutOfReach(s1);
      StopThenTarget(cfg, s1, snap, Share(1.0));
    } else {
      OneOrder(cfg, s1, TARGET, snap, Share(1.0));
    }
    var s3 := TargetPrints(carry, s2);
    t := Prune(s3, SHARE);
    PruneKeepsFilled(s3);
  }

  lemma StopOutOfReach(s: State)
    requires Torn(s, true)
    ensures STOP in s.orders
    ensures WorkOrder(Setup(true, 1.0), s, STOP, Share(1.0), At(3, 120.0, 100.0)) == Ok(Put(s, STOP, s.orders[STOP]))
  {
    assert TriggeredPrice(Activated(s.orders[STOP], 3), Flat(120.0, 100.0), 120.0, false) == None;
    hide TriggeredPrice, Setup, At, Put, WorkOrder;
    OutOfReach(true, s, STOP, 3, 120.0, 100.0);
  }

  lemma PruneKeepsFilled(s: State)
    requires Closed(s, 10.0, 4.0, 10.0)
    ensures Closed(Prune(s, SHARE), 10.0, 4.0, 10.0)
  {
    hide Keep;
  }

  const STOP_IN_PART := Command.Bar(At(2, 85.0, 4.0))
  const TARGET_WHOLE := Command.Bar(At(3, 120.0, 100.0))

  /** Under a volume cap the legs of a ten-lot entry close fourteen: the stop prints four on the second bar, which
      leaves the target its ten, carried or dropped the rest of the stop may be, and the third bar prints them. */
  lemma LegsOverExit(carry: bool)
    ensures
      var r := Run(Setup(carry, 1.0), [ENTRY_COMMAND, FirstBar(10.0), STOP_IN_PART, TARGET_WHOLE]);
      r.Ok? && FilledBy(r.value, ENTRY) == 10.0 && FilledBy(r.value, StopId(ENTRY)) == 4.0
      && FilledBy(r.value, TargetId(ENTRY)) == 10.0
  {
    var cfg := Setup(carry, 1.0);
    EntryGuarded(carry, 10.0);
    var two := [ENTRY_COMMAND, FirstBar(10.0)];
    hide Run, ProcessBar, Setup, At, Guarding, Torn, StopId, TargetId;
    var s := Run(cfg, two).value;
    var t := SecondBar(carry, s);
    TornOrders(t, carry);
    var u := ThirdBar(carry, t);
    RunAppend(cfg, two, STOP_IN_PART);
    RunAppend(cfg, two + [STOP_IN_PART], TARGET_WHOLE);
    assert two + [STOP_IN_PART] + [TARGET_WHOLE] == [ENTRY_COMMAND, FirstBar(10.0), STOP_IN_PART, TARGET_WHOLE];
  }

  // ---- an entry prints again after its legs are gone -----------------------------------------------------------

  /** The user has cancelled both legs of a part-filled entry. */
  ghost predicate Bared(s: State) {
    && s.orders.Keys == {ENTRY, STOP, TARGET} && !s.orders[STOP].IsOpen() && !s.orders[TARGET].IsOpen()
    && s.orders[ENTRY].terms == ENTRY_TERMS && s.orders[ENTRY].quantity == 10.0 && s.orders[ENTRY].filled == 4.0
    && s.orders[ENTRY].status == PartiallyFilled
    && s.books == map[SHARE := [ENTRY]] && s.bookOrder == [SHARE] && s.brackets == map[ENTRY := SPEC]
  }

  lemma WithoutThree(x: OrderId, y: OrderId, z: OrderId)
    requires x != y && y != z && x != z
    ensures Without([x, y, z], y) == [x, z] && Without(Without([x, y, z], y), z) == [x]
  {
    hide Without;
    WithoutNone(y);
    WithoutNone(z);
    WithoutAppend([], x, y);
    WithoutAppend([x], y, y);
    WithoutAppend([x, y], z, y);
    WithoutAppend([], x, z);
    WithoutAppend([x], z, z);
    assert [] + [x] == [x] && [x] + [y] == [x, y] && [x, y] + [z] == [x, y, z] && [x] + [z] == [x, z];
  }

  lemma WithoutNone(x: OrderId)
    ensures Without<OrderId>([], x) == []
  {
  }

  lemma LegsCancelled(s: State)
    requires Guarding(s, 4.0, 1)
    ensures Bared(Cancel(Cancel(s, STOP), TARGET))
  {
    LegIds(ENTRY);
    hide StopId, TargetId, Reserved, ParentId, Without;
    WithoutThree(ENTRY, STOP, TARGET);
    var s1 := Cancel(s, STOP);
    CancelShelved(s, STOP, [ENTRY, STOP, TARGET]);
    CloseEffect(s, STOP, Cancelled);
    hide Close;
    CancelShelved(s1, TARGET, Without([ENTRY, STOP, TARGET], STOP));
    CloseEffect(s1, TARGET, Cancelled);
  }

  /** Cancelling a leg takes it out of the one book. */
  lemma CancelShelved(s: State, id: OrderId, book: seq<OrderId>)
    requires Cancellable(s, id) && s.orders[id].terms.instrument == SHARE && id !in s.brackets
    requires s.books == map[SHARE := book] && s.bookOrder == [SHARE] && Without(book, id) != []
    ensures
      var t := Cancel(s, id);
      t.books == map[SHARE := Without(book, id)] && t.bookOrder == [SHARE] && t.brackets == s.brackets
  {
    hide Without;
    assert s.brackets - {id} == s.brackets;
  }

  lemma RestVerdict(s: State, seqNo: nat, traded: real)
    requires Bared(s)
    ensures Gets(Judge(Setup(true, 1.0), s.orders[ENTRY], Share(1.0), At(2, 100.0, 100.0), seqNo, traded),
                 s.orders[ENTRY], 2, 100.0, 6.0)
  {
    FlatPrint(true, 1.0, s.orders[ENTRY], 2, 100.0, 100.0, seqNo, traded, 6.0);
    hide Gets, Judge;
  }

  lemma RestRaises(s: State)
    requires Bared(s)
    ensures WorkOrder(Setup(true, 1.0), s, ENTRY, Share(1.0), At(2, 100.0, 100.0)) == Raised(DuplicateOrderId)
  {
    var cfg, snap := Setup(true, 1.0), At(2, 100.0, 100.0);
    var traded := PeriodVolume(cfg, s, 2);
    var v := Judge(cfg, s.orders[ENTRY], Share(1.0), snap, s.nextFill + 1, traded);
    var bar := MarketBar(snap, SHARE, Share(1.0));
    assert snap.timestamp == 2;
    hide Judge, PeriodVolume, MarketBar, Setup, WorkOrder, FinishPrint, Ratcheted, ActivateBrackets, StopId, TargetId;
    RestVerdict(s, s.nextFill + 1, traded);
    WorkIsEnact(cfg, s, ENTRY, SHARE, Share(1.0), snap);
    var s1 := Record(cfg, s, ENTRY, v.order.Booked(v.fill), v.fill);
    RestIsBooked(cfg, s, v);
    LegIds(ENTRY);
    hide OrderState.Booked, Record, Legs;
    EntryLegs(s1.orders[ENTRY], v.fill);
    DuplicateLegIff(cfg, s1, ENTRY, v.fill, Share(1.0));
  }

  lemma RestIsBooked(cfg: Config, s: State, v: Verdict)
    requires Bared(s) && Gets(v, s.orders[ENTRY], 2, 100.0, 6.0)
    ensures
      var t := Record(cfg, s, ENTRY, v.order.Booked(v.fill), v.fill);
      && ENTRY in t.orders && t.orders[ENTRY].terms == ENTRY_TERMS && t.brackets == map[ENTRY := SPEC]
      && STOP in t.orders && TARGET in t.orders && !t.orders[STOP].IsOpen() && !t.orders[TARGET].IsOpen()
  {
    LegIds(ENTRY);
    hide StopId, TargetId, Reserved, ParentId;
  }

  lemma RestBarRaises(s: State)
    requires Bared(s)
    ensures ProcessBar(Setup(true, 1.0), s, At(2, 100.0, 100.0)) == Raised(DuplicateOrderId)
  {
    var cfg, snap := Setup(true, 1.0), At(2, 100.0, 100.0);
    var s1 := s.(out := NO_RESULT.(rejections := s.pending), pending := []);
    assert cfg.instruments[SHARE] == Share(1.0) && Bared(s1);
    hide Setup, At, WorkOrder, WorkAll, MatchingOrder, ProcessBar;
    OneBook(cfg, s, snap);
    OneOrder(cfg, s1, ENTRY, snap, Share(1.0));
    RestRaises(s1);
  }

  /** Ten lots ordered, four filled, both legs cancelled. */
  const BARING := [ENTRY_COMMAND, FirstBar(4.0), CancelOrder(STOP), CancelOrder(TARGET)]
  const REST_WHOLE := Command.Bar(At(2, 100.0, 100.0))

  /** A part-filled entry whose legs the user has cancelled cannot be filled any further: the bar that would raises. */
  lemma BaredEntryRaises()
    ensures Run(Setup(true, 1.0), BARING).Ok?
    ensures Run(Setup(true, 1.0), BARING + [REST_WHOLE]) == Raised(DuplicateOrderId)
  {
    hide Run, ProcessBar, Setup, Guarding, Bared, Cancel, At, Keep;
    var s := BaredRun();
    RunAppend(Setup(true, 1.0), BARING, REST_WHOLE);
    RestBarRaises(s);
  }

  lemma BaredRun() returns (s: State)
    ensures Run(Setup(true, 1.0), BARING) == Ok(s) && Bared(s)
  {
    var cfg := Setup(true, 1.0);
    hide Run, ProcessBar, Setup, Guarding, Bared, Cancel, At, StopId, TargetId;
    EntryGuarded(true, 4.0);
    var two, noStop, noTarget := [ENTRY_COMMAND, FirstBar(4.0)], CancelOrder(STOP), CancelOrder(TARGET);
    RunAppend(cfg, two, noStop);
    RunAppend(cfg, two + [noStop], noTarget);
    assert two + [noStop] + [noTarget] == BARING;
    LegsCancelled(Run(cfg, two).value);
    s := Run(cfg, BARING).value;
  }

  // ---- a truncated quantity rounds past what remains -----------------------------------------------------------

  const ODD_TERMS := ENTRY_TERMS.(bracket := None)
  const ODD_COMMAND := SubmitOrder(ODD_TERMS, 99.99999995, None)
  const ODD_BAR := At(1, 100.0, 99.99999992)

  /** In lots of a hundred an order a hair short of one is offered a hair less, rounded up to the lot, and refused. */
  lemma HairShortOverfills()
    ensures Run(Setup(true, 100.0), [ODD_COMMAND]).Ok?
    ensures Run(Setup(true, 100.0), [ODD_COMMAND, Command.Bar(ODD_BAR)]) == Raised(OverFill)
  {
    var cfg := Setup(true, 100.0);
    var o := Pristine(ODD_TERMS, 99.99999995, None);
    var s := OddOrderWorks();
    RunAppend(cfg, [ODD_COMMAND], Command.Bar(ODD_BAR));
    assert [ODD_COMMAND] + [Command.Bar(ODD_BAR)] == [ODD_COMMAND, Command.Bar(ODD_BAR)];
    hide Run, ProcessBar;
    OddBarRaises(s);
  }

  ghost predicate Odd(s: State) {
    && s.orders == map[ENTRY := Pristine(ODD_TERMS, 99.99999995, None).(status := Accepted)]
    && s.books == map[SHARE := [ENTRY]] && s.bookOrder == [SHARE]
  }

  lemma OddOrderWorks() returns (s: State)
    ensures Run(Setup(true, 100.0), [ODD_COMMAND]) == Ok(s) && Odd(s)
  {
    var cfg := Setup(true, 100.0);
    var o := Pristine(ODD_TERMS, 99.99999995, None);
    assert RoundQuantity(99.99999995, 100.0) == 100.0;
    assert IntakeRefusal(cfg, o) == None;
    hide RoundQuantity, IntakeRefusal;
    assert Run(cfg, []) == Ok(Init);
    RunAppend(cfg, [], ODD_COMMAND);
    assert [] + [ODD_COMMAND] == [ODD_COMMAND];
    s := Admit(Init, o);
    assert s.orders == map[ENTRY := o.(status := Accepted)] && s.books[SHARE] == [ENTRY];
    assert s.books == map[SHARE := [ENTRY]] && s.bookOrder == [SHARE];
    hide Run;
  }

  lemma OddBarRaises(s: State)
    requires Odd(s)
    ensures ProcessBar(Setup(true, 100.0), s, ODD_BAR) == Raised(OverFill)
  {
    var cfg := Setup(true, 100.0);
    var s1 := s.(out := NO_RESULT.(rejections := s.pending), pending := []);
    assert cfg.instruments[SHARE] == Share(100.0);
    hide Setup, At, WorkOrder, WorkAll, MatchingOrder, ProcessBar;
    OneBook(cfg, s, ODD_BAR);
    OneOrder(cfg, s1, ENTRY, ODD_BAR, Share(100.0));
    OddLookRaises(s1);
  }

  lemma OddReached(o: OrderState)
    requires o == Pristine(ODD_TERMS, 99.99999995, None).(status := Accepted)
    ensures Reached(Setup(true, 100.0), o, Share(100.0), ODD_BAR)
    ensures Offered(Setup(true, 100.0), o, Share(100.0), ODD_BAR) == 99.99999992
  {
  }

  lemma OddLookRaises(s: State)
    requires Odd(s)
    ensures WorkOrder(Setup(true, 100.0), s, ENTRY, Share(100.0), ODD_BAR) == Raised(OverFill)
  {
    var cfg := Setup(true, 100.0);
    var traded := PeriodVolume(cfg, s, 1);
    var o := s.orders[ENTRY];
    WorkIsEnact(cfg, s, ENTRY, SHARE, Share(100.0), ODD_BAR);
    OddReached(o);
    assert RoundQuantity(99.99999992, 100.0) == 100.0;
    hide RoundQuantity, Offered, Reached, WorkOrder, Judge, OwnRequest;
    assert Overshoots(100.0, o.Remaining(), 99.99999992);
    assert cfg.price(OwnRequest(cfg, o, Share(100.0), ODD_BAR)).Ok?;
    hide Setup, Overshoots;
    OverFillIff(cfg, o, Share(100.0), ODD_BAR, s.nextFill + 1, traded);
    RefusedRaises(cfg, s, ENTRY, OverFill, Share(100.0), MarketBar(ODD_BAR, SHARE, Share(100.0)));
  }
}
