/** Which orders the broker takes, and for what it refuses the others. */
module BrokerIntake {
  import opened Types
  import opened Money
  import opened Instruments
  import opened Orders
  import opened BrokerSpec
  import opened BrokerIndex

  /** The instrument no longer trades: from its delisting date on for a share, from the day after its expiry for a
      contract. */
  predicate Gone(i: Instrument, at: Time) {
    match i.listing
    case Shares(None) => false
    case Shares(Some(day)) => at >= day * NS_PER_DAY
    case Contract(day) => at >= (day + 1) * NS_PER_DAY
  }

  /** Why an order would be refused, in the order in which reasons are looked for. */
  predicate Refusable(cfg: Config, o: OrderState, reason: RejectReason) {
    var known := o.terms.instrument in cfg.instruments;
    match reason
    case NotTradeable => !known || !cfg.instruments[o.terms.instrument].tradeable
    case InstrumentExpired => known && Gone(cfg.instruments[o.terms.instrument], o.terms.submittedAt)
    case ZeroOrNegativeQuantity => o.quantity <= QUANTITY_TOLERANCE
    case BelowMinLot =>
      known && o.quantity < (1.0 - TICK_EPSILON) * cfg.instruments[o.terms.instrument].lot
    case NotShortable =>
      known && o.terms.side.Sell? && !cfg.instruments[o.terms.instrument].shortable && !o.terms.reduceOnly
  }

  /** The place of a reason in that order. */
  function Precedence(reason: RejectReason): nat {
    match reason
    case NotTradeable => 0
    case InstrumentExpired => 1
    case ZeroOrNegativeQuantity => 2
    case BelowMinLot => 3
    case NotShortable => 4
  }

  lemma DayStarts(at: Time, day: int)
    ensures Day(at) >= day <==> at >= day * NS_PER_DAY
  {
    var d, r := at / NS_PER_DAY, at % NS_PER_DAY;
    assert at == d * NS_PER_DAY + r && 0 <= r < NS_PER_DAY;
  }

  lemma GoneIsExpired(i: Instrument, at: Time)
    ensures i.IsExpired(at) == Gone(i, at)
  {
    match i.listing
    case Shares(None) =>
    case Shares(Some(day)) => DayStarts(at, day);
    case Contract(day) => DayStarts(at, day + 1);
  }

  /** A quantity snaps to no lot at all exactly when it is more than 1e-9 of a lot short of one. */
  lemma NoLotIff(quantity: real, lot: real)
    requires quantity > 0.0 && lot > 0.0
    ensures RoundQuantity(quantity, lot) <= 0.0 <==> quantity < (1.0 - TICK_EPSILON) * lot
  {
    var ratio := quantity / lot;
    var lots := (ratio + TICK_EPSILON).Floor;
    assert ratio * lot == quantity && ratio > 0.0;
    assert RoundQuantity(quantity, lot) == lots as real * lot;
    var least := 1.0 - TICK_EPSILON;
    if ratio < least {
      var short := least - ratio;
      assert short * lot > 0.0 && least * lot == quantity + short * lot;
      assert lots == 0;
    } else {
      var over := ratio - least;
      assert over * lot >= 0.0 && quantity == least * lot + over * lot;
      assert lots >= 1 && lots as real * lot > 0.0;
    }
  }

  /** An order is refused for exactly the first reason there is, by the fields of the order and of its instrument, and
      taken when there is none. */
  lemma RefusedIff(cfg: Config, o: OrderState)
    ensures forall reason :: IntakeRefusal(cfg, o) == Some(reason) <==>
        Refusable(cfg, o, reason)
        && forall other | Precedence(other) < Precedence(reason) :: !Refusable(cfg, o, other)
    ensures IntakeRefusal(cfg, o).None? <==> forall reason :: !Refusable(cfg, o, reason)
  {
    if o.terms.instrument in cfg.instruments {
      var i := cfg.instruments[o.terms.instrument];
      GoneIsExpired(i, o.terms.submittedAt);
      if o.quantity > QUANTITY_TOLERANCE {
        NoLotIff(o.quantity, i.lot);
      }
    }
    hide RoundQuantity, Gone;
    match IntakeRefusal(cfg, o)
    case None =>
      forall reason ensures !Refusable(cfg, o, reason) {
        match reason
        case _ =>
      }
    case Some(reason) =>
      assert Refusable(cfg, o, reason);
  }

  /** After a submission in any run: the order stands refused, is in no book and is reported at the next bar, or it is
      accepted and is last in its book; refused exactly if there is a reason, and for the first there is. */
  lemma SubmissionIsDecided(cfg: Config, commands: seq<Command>, terms: OrderTerms, quantity: real, stop: Option<real>)
    requires Run(cfg, commands).Ok? && Run(cfg, commands + [SubmitOrder(terms, quantity, stop)]).Ok?
    ensures
      var s, t := Run(cfg, commands).value, Run(cfg, commands + [SubmitOrder(terms, quantity, stop)]).value;
      var o := Pristine(terms, quantity, stop);
      && terms.id in t.orders
      && (if exists reason :: Refusable(cfg, o, reason) then
            && t.orders[terms.id].status.Rejected? && t.books == s.books
            && exists reason ::
                 && t.pending == s.pending + [(terms.id, reason)] && Refusable(cfg, o, reason)
                 && forall other | Precedence(other) < Precedence(reason) :: !Refusable(cfg, o, other)
          else
            && t.orders[terms.id].status.Accepted? && t.pending == s.pending
            && t.Book(terms.instrument) == s.Book(terms.instrument) + [terms.id])
  {
    RunAppend(cfg, commands, SubmitOrder(terms, quantity, stop));
    RefusedIff(cfg, Pristine(terms, quantity, stop));
    hide Run, IntakeRefusal, Refusable, Precedence;
  }

  /** An order can be built exactly when it has a limit if its type works by one and only then, a stop if its type works
      by one, no level at or below zero, a date if it is good till one, and no date that is not later than itself. */
  lemma BuiltIff(terms: OrderTerms, quantity: real, stop: Option<real>)
    ensures NewOrder(terms, quantity, stop).Ok? <==>
            && (terms.limit.Some? <==> terms.kind in {Limit, StopLimit})
            && (terms.kind in {Stop, StopLimit} ==> stop.Some?)
            && (forall level | Some(level) in {terms.limit, stop} :: level > 0.0)
            && (terms.tif.Gtd? ==> terms.expiresAt.Some?)
            && (terms.expiresAt.Some? ==> terms.submittedAt < terms.expiresAt.value)
    ensures NewOrder(terms, quantity, stop).Ok? ==>
              NewOrder(terms, quantity, stop).value == Pristine(terms, quantity, stop)
  {
    if terms.limit.Some? {
      assert Some(terms.limit.value) in {terms.limit, stop};
    }
    if stop.Some? {
      assert Some(stop.value) in {terms.limit, stop};
    }
  }
}
