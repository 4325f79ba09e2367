/** What the fills add up to: every order reports exactly the prints made on it, whatever the liquidity. */
module BrokerLedger {
  import opened Types
  import opened Instruments
  import opened Orders
  import opened Execution
  import opened BrokerSpec
  import opened BrokerIndex

  // ---- sums over the record of fills ---------------------------------------------------------------------------

  function FilledIn(log: seq<Fill>, id: OrderId): real {
    if log == [] then 0.0
    else
      var last := log[|log| - 1];
      FilledIn(log[..|log| - 1], id) + if last.orderId == id then last.quantity else 0.0
  }

  function PaidIn(log: seq<Fill>, id: OrderId): real {
    if log == [] then 0.0
    else
      var last := log[|log| - 1];
      PaidIn(log[..|log| - 1], id) + if last.orderId == id then last.price * last.quantity else 0.0
  }

  function Prints(log: seq<Fill>, id: OrderId): nat {
    if log == [] then 0
    else Prints(log[..|log| - 1], id) + if log[|log| - 1].orderId == id then 1 else 0
  }

  /** Prints not flagged partial. */
  function Completions(log: seq<Fill>, id: OrderId): nat {
    if log == [] then 0
    else
      var last := log[|log| - 1];
      Completions(log[..|log| - 1], id) + if last.orderId == id && !last.isPartial then 1 else 0
  }

  lemma SumsAppend(log: seq<Fill>, fill: Fill, id: OrderId)
    ensures FilledIn(log + [fill], id) == FilledIn(log, id) + if fill.orderId == id then fill.quantity else 0.0
    ensures PaidIn(log + [fill], id) == PaidIn(log, id) + if fill.orderId == id then fill.price * fill.quantity else 0.0
    ensures Prints(log + [fill], id) == Prints(log, id) + if fill.orderId == id then 1 else 0
    ensures Completions(log + [fill], id)
              == Completions(log, id) + if fill.orderId == id && !fill.isPartial then 1 else 0
  {
    assert (log + [fill])[..|log|] == log;
  }

  lemma NoPrints(log: seq<Fill>, id: OrderId)
    requires forall k | 0 <= k < |log| :: log[k].orderId != id
    ensures FilledIn(log, id) == 0.0 && PaidIn(log, id) == 0.0 && Prints(log, id) == 0
    ensures Completions(log, id) == 0
  {
  }

  // ---- the invariant -------------------------------------------------------------------------------------------

  /** An order reports its prints: its filled quantity is their sum (its own size once complete, which is within the
      tolerance of it), its average price is their exact volume-weighted mean, and they never exceed its size by
      more than the tolerance. One print completes it, and that one alone is not flagged partial; until then they stay
      more than the tolerance short of it. A fill-or-kill order has no print, or one of its whole size; no order the
      broker accepted is dust. */
  ghost predicate Tallied(o: OrderState, log: seq<Fill>) {
    var id := o.terms.id;
    var sum := FilledIn(log, id);
    && o.avgPrice * sum == PaidIn(log, id)
    && (Prints(log, id) == 0 ==> sum == 0.0) && (Prints(log, id) > 0 ==> sum > QUANTITY_TOLERANCE)
    && (o.IsOpen() ==> sum <= o.quantity) && (Prints(log, id) > 0 ==> sum <= o.quantity + QUANTITY_TOLERANCE)
    && (if o.status.Filled? then o.filled == o.quantity && o.quantity - sum <= QUANTITY_TOLERANCE && Prints(log, id) > 0
        else o.filled == sum && (Prints(log, id) > 0 ==> sum < o.quantity - QUANTITY_TOLERANCE))
    && Completions(log, id) == (if o.status.Filled? then 1 else 0)
    && (o.status.Rejected? || o.quantity > QUANTITY_TOLERANCE)
    && (o.terms.tif.Fok? ==> Prints(log, id) == 0 || (Prints(log, id) == 1 && o.status.Filled? && sum == o.quantity))
  }

  ghost predicate Unlimited(cfg: Config) {
    forall r: LiquidityRequest :: cfg.liquidity(r) >= r.quantity
  }

  /** What prints is never short of what remains: partial fills are off, or liquidity is not capped. */
  ghost predicate NeverShort(cfg: Config) {
    !cfg.allowPartial || Unlimited(cfg)
  }

  /** A fill honours its order: same instrument and side, real size, the limit, and never before it was submitted —
      strictly after under the two next-bar models. Where fills cannot be short it completes the order. */
  ghost predicate Honours(cfg: Config, f: Fill, t: OrderTerms) {
    && f.instrument == t.instrument && f.side == t.side && f.orderId == t.id
    && f.quantity > QUANTITY_TOLERANCE && t.Accepts(f.price)
    && (if cfg.execution.SameBarClose? then f.timestamp >= t.submittedAt else f.timestamp > t.submittedAt)
    && (t.tif.Fok? || NeverShort(cfg) ==> !f.isPartial)
  }

  /** Only a refused order may name an instrument without contract terms. */
  ghost predicate Registered(cfg: Config, o: OrderState) {
    o.status.Rejected? || o.terms.instrument in cfg.instruments
  }

  ghost predicate Ledger(cfg: Config, s: State) {
    && (forall id | id in s.orders :: Tallied(s.orders[id], s.log) && Registered(cfg, s.orders[id]))
    && (forall k | 0 <= k < |s.log| ::
          s.log[k].orderId in s.orders && Honours(cfg, s.log[k], s.orders[s.log[k].orderId].terms))
  }

  /** An immediate-or-cancel or fill-or-kill order that has had its look is settled. */
  ghost predicate OneLook(s: State) {
    forall id | id in s.orders && s.orders[id].terms.tif.OneShot() && s.orders[id].activatedAt.Some? ::
        !s.orders[id].IsOpen()
  }

  // ---- what a print is -----------------------------------------------------------------------------------------

  /** The facts a verdict carries about the order it was reached on. */
  ghost predicate Lawful(cfg: Config, o: OrderState, v: Verdict, at: Time) {
    match v
    case NoPrint(a) => a == o.(activatedAt := a.activatedAt) && a.activatedAt.Some?
    case Print(a, fill) =>
      && a == o.(activatedAt := a.activatedAt) && a.activatedAt.Some?
      && a.Refusal(fill).None? && fill.timestamp == at
      && fill.quantity > QUANTITY_TOLERANCE
      && (if cfg.execution.SameBarClose? then at >= o.terms.submittedAt else at > o.terms.submittedAt)
      && fill.isPartial == (fill.quantity < o.Remaining() - QUANTITY_TOLERANCE)
      && (o.terms.tif.Fok? || NeverShort(cfg) ==> fill.quantity == o.Remaining())
    case _ => true
  }

  lemma FillableFacts(cfg: Config, o: OrderState, i: Instrument, reference: real, bar: Bar)
    ensures
      var q := Fillable(cfg, o, i, reference, bar);
      (o.terms.tif.Fok? || NeverShort(cfg)) && q > QUANTITY_TOLERANCE ==> q == o.Remaining()
  {
    var request := LiquidityRequest(o.terms.instrument, o.terms.side, o.Remaining(), reference, bar);
    assert Unlimited(cfg) ==> cfg.liquidity(request) >= request.quantity;
  }

  lemma JudgeIsLawful(cfg: Config, o: OrderState, i: Instrument, snap: Snapshot, seqNo: nat, volume: real)
    ensures Lawful(cfg, o, Judge(cfg, o, i, snap, seqNo, volume), snap.timestamp)
  {
    var v := Judge(cfg, o, i, snap, seqNo, volume);
    if v.Print? {
      var a := Activated(o, snap.timestamp);
      var bar := MarketBar(snap, o.terms.instrument, i);
      var reference := TryFill(cfg.execution, a, bar, snap.sessionClose).value;
      FillableFacts(cfg, a, i, reference, bar.value);
      hide Fillable, TryFill, NeverShort, MarketBar, ShouldExpire;
    }
  }

  // ---- each update keeps the ledger ----------------------------------------------------------------------------

  /** Folding a print in keeps the mean exact. */
  lemma MeanOfPrints(average: real, sum: real, price: real, quantity: real, paid: real)
    requires average * sum == paid && sum + quantity > 0.0
    ensures (average * sum + price * quantity) / (sum + quantity) * (sum + quantity) == paid + price * quantity
  {
  }

  lemma TallyPrint(cfg: Config, o: OrderState, a: OrderState, fill: Fill, at: Time, log: seq<Fill>)
    requires Tallied(o, log) && o.IsOpen() && Lawful(cfg, o, Print(a, fill), at)
    ensures Tallied(a.Booked(fill), log + [fill])
  {
    var sum := FilledIn(log, o.terms.id);
    SumsAppend(log, fill, o.terms.id);
    assert o.filled == sum && sum >= 0.0;
    hide FilledIn, PaidIn, Prints, Completions, NeverShort, OrderTerms.Accepts;
    BookedMean(a, fill, sum, PaidIn(log, o.terms.id));
    hide OrderState.Booked;
    BookedTally(o, a, fill);
  }

  lemma BookedMean(a: OrderState, fill: Fill, sum: real, paid: real)
    requires a.filled == sum && a.avgPrice * sum == paid && sum + fill.quantity > 0.0
    ensures a.Booked(fill).avgPrice * (sum + fill.quantity) == paid + fill.price * fill.quantity
  {
    MeanOfPrints(a.avgPrice, sum, fill.price, fill.quantity, paid);
  }

  /** A print completes its order exactly when it is not flagged partial. */
  lemma BookedTally(o: OrderState, a: OrderState, fill: Fill)
    requires o.IsOpen() && a == o.(activatedAt := a.activatedAt) && 0.0 <= o.filled <= o.quantity
    requires fill.isPartial == (fill.quantity < o.Remaining() - QUANTITY_TOLERANCE)
    requires fill.quantity > QUANTITY_TOLERANCE
    ensures
      var b := a.Booked(fill);
      && b.terms == o.terms && b.quantity == o.quantity
      && (if fill.isPartial then b.status.PartiallyFilled? && b.filled == o.filled + fill.quantity
                                 && b.filled < o.quantity - QUANTITY_TOLERANCE
          else b.status.Filled? && b.filled == o.quantity
               && o.quantity - (o.filled + fill.quantity) <= QUANTITY_TOLERANCE)
  {
  }

  lemma TallyOther(o: OrderState, fill: Fill, log: seq<Fill>)
    requires Tallied(o, log) && fill.orderId != o.terms.id
    ensures Tallied(o, log + [fill])
  {
    SumsAppend(log, fill, o.terms.id);
  }

  lemma RecordLedger(cfg: Config, s: State, id: OrderId, a: OrderState, fill: Fill, at: Time)
    requires Ledger(cfg, s) && Keyed(s) && Cancellable(s, id) && Lawful(cfg, s.orders[id], Print(a, fill), at)
    ensures Ledger(cfg, Record(cfg, s, id, a.Booked(fill), fill))
  {
    var t := Record(cfg, s, id, a.Booked(fill), fill);
    forall x | x in t.orders ensures Tallied(t.orders[x], t.log) && Registered(cfg, t.orders[x]) {
      if x == id {
        TallyPrint(cfg, s.orders[id], a, fill, at, s.log);
      } else {
        TallyOther(s.orders[x], fill, s.log);
      }
    }
    assert Honours(cfg, fill, a.terms);
    forall k | 0 <= k < |t.log| ensures t.log[k].orderId in t.orders
    && Honours(cfg, t.log[k], t.orders[t.log[k].orderId].terms) {
      assert k < |s.log| ==> t.log[k] == s.log[k];
    }
  }

  /** A change the ledger does not see: the terms, the fills and their mean stay; a status may only leave the open
      states without filling; a size may change while nothing has printed. */
  ghost predicate Quiet(o: OrderState, p: OrderState) {
    && p.terms == o.terms && p.filled == o.filled && p.avgPrice == o.avgPrice
    && (p.status == o.status || (o.IsOpen() && p.status.IsTerminal() && !p.status.Filled?))
    && (p.quantity == o.quantity || (o.IsOpen() && o.filled == 0.0 && p.quantity > QUANTITY_TOLERANCE))
  }

  lemma QuietTallied(o: OrderState, p: OrderState, log: seq<Fill>)
    requires Quiet(o, p) && Tallied(o, log)
    ensures Tallied(p, log)
  {
  }

  lemma QuietLedger(cfg: Config, s: State, t: State)
    requires Ledger(cfg, s) && t.log == s.log && s.orders.Keys == t.orders.Keys
    requires forall x | x in s.orders :: Quiet(s.orders[x], t.orders[x])
    ensures Ledger(cfg, t)
  {
    forall x | x in t.orders ensures Tallied(t.orders[x], t.log) && Registered(cfg, t.orders[x]) {
      QuietTallied(s.orders[x], t.orders[x], s.log);
    }
  }

  lemma SubmitLedger(cfg: Config, s: State, o: OrderState)
    requires Ledger(cfg, s) && Submit(cfg, s, o).Ok? && o == Pristine(o.terms, o.quantity, o.stop)
    ensures Ledger(cfg, Submit(cfg, s, o).value)
  {
    SubmitEffect(cfg, s, o);
    NoPrints(s.log, o.terms.id);
  }

  lemma CloseLedger(cfg: Config, s: State, id: OrderId, status: OrderStatus)
    requires Ledger(cfg, s) && Cancellable(s, id) && status.IsTerminal() && !status.Filled?
    ensures Ledger(cfg, Close(s, id, status))
  {
    CloseEffect(s, id, status);
    hide Close, Ledger;
    QuietLedger(cfg, s, Close(s, id, status));
  }

  /** Closing an order changes its status and, beside the index and the pairs, nothing else. */
  lemma CloseEffect(s: State, id: OrderId, status: OrderStatus)
    requires id in s.orders
    ensures
      var t := Close(s, id, status);
      && t.orders == s.orders[id := s.orders[id].(status := status)]
      && t.log == s.log && t.out == s.out && t.submitted == s.submitted && t.pending == s.pending
  {
  }

  lemma SettleOcoEffect(s: State, id: OrderId)
    ensures
      var t := SettleOco(s, id);
      && t.log == s.log
      && t.orders == if id in s.oco && Cancellable(s, s.oco[id])
                     then s.orders[s.oco[id] := s.orders[s.oco[id]].(status := Cancelled)] else s.orders
  {
  }

  lemma SettleOcoLedger(cfg: Config, s: State, id: OrderId)
    requires Ledger(cfg, s)
    ensures Ledger(cfg, SettleOco(s, id))
  {
    SettleOcoEffect(s, id);
    hide SettleOco, Ledger;
    QuietLedger(cfg, s, SettleOco(s, id));
  }

  lemma SubmitLegsLedger(cfg: Config, s: State, legs: seq<OrderState>)
    requires Ledger(cfg, s) && SubmitLegs(cfg, s, legs).Ok?
    requires forall leg | leg in legs :: leg == Pristine(leg.terms, leg.quantity, leg.stop)
    ensures Ledger(cfg, SubmitLegs(cfg, s, legs).value)
    decreases |legs|
  {
    hide Ledger, Submit;
    if legs == [] {
    } else {
      assert legs[0] in legs;
      SubmitLedger(cfg, s, legs[0]);
      SubmitLegsLedger(cfg, Submit(cfg, s, legs[0]).value, legs[1..]);
    }
  }

  lemma ActivateLedger(cfg: Config, s: State, id: OrderId, fill: Fill, i: Instrument)
    requires Ledger(cfg, s) && id in s.orders && s.orders[id].filled > QUANTITY_TOLERANCE
    requires ActivateBrackets(cfg, s, id, fill, i).Ok?
    ensures Ledger(cfg, ActivateBrackets(cfg, s, id, fill, i).value)
  {
    hide Ledger;
    var parent := s.orders[id];
    var t := ActivateBrackets(cfg, s, id, fill, i).value;
    if id in s.brackets {
      if Untouched(s, StopId(id)) || Untouched(s, TargetId(id)) {
        var s1 := Resized(s, StopId(id), parent.filled);
        QuietLedger(cfg, s, s1);
        QuietLedger(cfg, s1, Resized(s1, TargetId(id), parent.filled));
      } else {
        LegsAreLegs(parent, s.brackets[id], fill, i);
        var legs := Legs(parent, s.brackets[id], fill, i).value;
        hide Legs;
        SubmitLegsLedger(cfg, s, legs);
        var s1 := SubmitLegs(cfg, s, legs).value;
        QuietLedger(cfg, s1, Pair(s1, legs));
      }
    }
  }

  lemma FinishLedger(cfg: Config, s: State, id: OrderId)
    requires Ledger(cfg, s) && id in s.orders && (s.orders[id].IsOpen() || s.orders[id].status.Filled?)
    ensures Ledger(cfg, FinishPrint(cfg, s, id))
  {
    hide Ledger;
    if s.orders[id].status.Filled? {
      SettleOcoLedger(cfg, s, id);
    } else if FinishPrint(cfg, s, id) != s {
      CloseLedger(cfg, s, id, Cancelled);
      QuietLedger(cfg, Close(s, id, Cancelled), CancelRemainder(s, id));
    }
  }

  lemma ExpireLedger(cfg: Config, s: State, id: OrderId)
    requires Ledger(cfg, s) && Cancellable(s, id)
    ensures Ledger(cfg, Expire(s, id))
  {
    hide Ledger, Close;
    CloseLedger(cfg, s, id, Expired);
    QuietLedger(cfg, Close(s, id, Expired), Expire(s, id));
  }

  lemma EnactLedger(cfg: Config, s: State, id: OrderId, v: Verdict, i: Instrument, bar: Option<Bar>, at: Time)
    requires Ledger(cfg, s) && Keyed(s) && Cancellable(s, id)
    requires Lawful(cfg, s.orders[id], v, at) && Enact(cfg, s, id, v, i, bar).Ok?
    ensures Ledger(cfg, Enact(cfg, s, id, v, i, bar).value)
  {
    match v
    case Lapsed =>
      hide Ledger, Expire;
      ExpireLedger(cfg, s, id);
    case NoPrint(a) =>
      hide Ledger;
      RatchetLedger(cfg, s, id, a, bar);
      ExpireLedger(cfg, Put(s, id, Ratcheted(a, bar)), id);
    case Print(a, fill) => PrintLedger(cfg, s, id, a, fill, i, bar, at);
    case _ =>
  }

  lemma RatchetLedger(cfg: Config, s: State, id: OrderId, a: OrderState, bar: Option<Bar>)
    requires Ledger(cfg, s) && id in s.orders && Quiet(s.orders[id], a)
    ensures Ledger(cfg, Put(s, id, Ratcheted(a, bar)))
  {
    hide Ledger;
    QuietLedger(cfg, s, Put(s, id, Ratcheted(a, bar)));
  }

  lemma FilledIsNotNegative(cfg: Config, s: State, id: OrderId)
    requires Ledger(cfg, s) && id in s.orders
    ensures s.orders[id].filled >= 0.0
    ensures s.orders[id].IsOpen() ==>
              s.orders[id].quantity > QUANTITY_TOLERANCE && s.orders[id].filled <= s.orders[id].quantity
  {
    assert Tallied(s.orders[id], s.log);
  }

  lemma PrintedIsReal(cfg: Config, s: State, id: OrderId)
    requires Ledger(cfg, s) && id in s.orders && Prints(s.log, s.orders[id].terms.id) > 0
    requires !s.orders[id].status.Rejected?
    ensures s.orders[id].filled > QUANTITY_TOLERANCE
  {
    assert Tallied(s.orders[id], s.log);
  }

  lemma PrintLedger(cfg: Config, s: State, id: OrderId, a: OrderState, fill: Fill, i: Instrument, bar: Option<Bar>,
                    at: Time)
    requires Ledger(cfg, s) && Keyed(s) && Cancellable(s, id)
    requires Lawful(cfg, s.orders[id], Print(a, fill), at) && Enact(cfg, s, id, Print(a, fill), i, bar).Ok?
    ensures Ledger(cfg, Enact(cfg, s, id, Print(a, fill), i, bar).value)
  {
    hide Ledger;
    var s1 := Record(cfg, s, id, a.Booked(fill), fill);
    RecordLedger(cfg, s, id, a, fill, at);
    SumsAppend(s.log, fill, a.terms.id);
    PrintedIsReal(cfg, s1, id);
    hide Lawful;
    var s2 := ActivateBrackets(cfg, s1, id, fill, i).value;
    ActivateLedger(cfg, s1, id, fill, i);
    StatusStays(cfg, s1, id, fill, i);
    hide ActivateBrackets;
    var s3 := FinishPrint(cfg, s2, id);
    FinishLedger(cfg, s2, id);
    hide FinishPrint;
    RatchetLedger(cfg, s3, id, s3.orders[id], bar);
  }
}
