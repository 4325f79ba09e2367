/** What every fill of a run is charged: the cost model is told what the order and the month had printed before it. */
module BrokerCosts {
  import opened Types
  import opened Instruments
  import opened Orders
  import opened Execution
  import opened BrokerSpec
  import opened BrokerIndex
  import opened BrokerLedger
  import opened BrokerBrackets
  import opened BrokerRuns
  import opened BrokerLooks
  import Commission
  import Pricing

  // ---- what the records say ------------------------------------------------------------------------------------

  function CommissionIn(log: seq<Fill>, id: OrderId): real {
    if log == [] then 0.0
    else
      var last := log[|log| - 1];
      CommissionIn(log[..|log| - 1], id) + if last.orderId == id then last.commission else 0.0
  }

  /** Commission and fees together. */
  function ChargedIn(log: seq<Fill>, id: OrderId): real {
    if log == [] then 0.0
    else
      var last := log[|log| - 1];
      ChargedIn(log[..|log| - 1], id) + if last.orderId == id then last.commission + last.fees else 0.0
  }

  /** The volume of the fills at the end of the log that are of one month. */
  function MonthVolume(cfg: Config, log: seq<Fill>, month: int): real {
    if log == [] || cfg.month(log[|log| - 1].timestamp) != month then 0.0
    else MonthVolume(cfg, log[..|log| - 1], month) + log[|log| - 1].quantity
  }

  /** The volume of all fills of one month. */
  function MonthTotal(cfg: Config, log: seq<Fill>, month: int): real {
    if log == [] then 0.0
    else
      var last := log[|log| - 1];
      MonthTotal(cfg, log[..|log| - 1], month) + if cfg.month(last.timestamp) == month then last.quantity else 0.0
  }

  /** What the cost model is to be told of a fill: the fill's own terms, what the month had traded and the order filled
      before it, and whether the order only reduces. */
  function Told(cfg: Config, log: seq<Fill>, k: nat, reduceOnly: bool): CostRequest
    requires k < |log|
  {
    var f := log[k];
    CostRequest(f.instrument, f.side, f.quantity, f.price, MonthVolume(cfg, log[..k], cfg.month(f.timestamp)),
                reduceOnly, FilledIn(log[..k], f.orderId))
  }

  /** The fill is charged the model's answer, or nothing where that is negative. */
  ghost predicate Charged(cfg: Config, f: Fill, told: CostRequest) {
    && f.commission == (if cfg.costs(told).commission > 0.0 then cfg.costs(told).commission else 0.0)
    && f.fees == (if cfg.costs(told).fees > 0.0 then cfg.costs(told).fees else 0.0)
  }

  ghost predicate BilledAt(cfg: Config, s: State, k: nat)
    requires k < |s.log|
  {
    && s.log[k].orderId in s.orders
    && Charged(cfg, s.log[k], Told(cfg, s.log, k, s.orders[s.log[k].orderId].terms.reduceOnly))
  }

  /** The running month and its volume are those at the end of the log. */
  ghost predicate Metered(cfg: Config, s: State) {
    if s.log == [] then s.period.None?
    else
      var month := cfg.month(s.log[|s.log| - 1].timestamp);
      s.period == Some(month) && s.periodVolume == MonthVolume(cfg, s.log, month)
  }

  ghost predicate Billed(cfg: Config, s: State) {
    && (forall k | 0 <= k < |s.log| :: BilledAt(cfg, s, k))
    && Metered(cfg, s)
    && (forall id | id in s.orders :: s.orders[id].commissionPaid == CommissionIn(s.log, id))
  }

  // ---- every step keeps them so --------------------------------------------------------------------------------

  lemma MonthSoFar(cfg: Config, s: State, at: Time)
    requires Metered(cfg, s)
    ensures PeriodVolume(cfg, s, at) == MonthVolume(cfg, s.log, cfg.month(at))
  {
  }

  lemma NoCommission(log: seq<Fill>, id: OrderId)
    requires forall k | 0 <= k < |log| :: log[k].orderId != id
    ensures CommissionIn(log, id) == 0.0
  {
  }

  lemma BilledBetween(cfg: Config, s: State, t: State)
    requires Billed(cfg, s) && Between(s, t)
    ensures Billed(cfg, t)
  {
    hide Charged, Told, CommissionIn, MonthVolume;
    forall k | 0 <= k < |t.log| ensures BilledAt(cfg, t, k) {
      assert BilledAt(cfg, s, k);
    }
    forall id | id in t.orders ensures t.orders[id].commissionPaid == CommissionIn(t.log, id) {
      if id !in s.orders {
        forall k | 0 <= k < |s.log| ensures s.log[k].orderId != id {
          assert BilledAt(cfg, s, k);
        }
        NoCommission(s.log, id);
      }
    }
  }

  /** What a look charges is the model's answer to what the broker knows. */
  lemma PrintIsCharged(cfg: Config, o: OrderState, i: Instrument, snap: Snapshot, seqNo: nat, volume: real)
    requires Judge(cfg, o, i, snap, seqNo, volume).Print?
    ensures
      var f := Judge(cfg, o, i, snap, seqNo, volume).fill;
      && f.orderId == o.terms.id && f.instrument == o.terms.instrument && f.side == o.terms.side
      && f.timestamp == snap.timestamp
      && Charged(cfg, f, CostRequest(f.instrument, f.side, f.quantity, f.price, volume, o.terms.reduceOnly, o.filled))
  {
    hide ShouldExpire, TryFill, MarketBar, Fillable, QuoteFor, Pricing.SettlePrice;
  }

  lemma OpenFilled(cfg: Config, s: State, id: OrderId)
    requires Ledger(cfg, s) && Keyed(s) && Cancellable(s, id)
    ensures s.orders[id].filled == FilledIn(s.log, id)
  {
    assert Tallied(s.orders[id], s.log);
  }

  lemma BilledPrint(cfg: Config, s: State, t: State, id: OrderId, v: Verdict, at: Time)
    requires Billed(cfg, s) && id in s.orders && PrintLeaves(cfg, s, t, id, v, at)
    requires v.fill.orderId == id && v.fill.timestamp == at
    requires s.orders[id].filled == FilledIn(s.log, id)
    requires Charged(cfg, v.fill, CostRequest(v.fill.instrument, v.fill.side, v.fill.quantity, v.fill.price,
                                              PeriodVolume(cfg, s, at), s.orders[id].terms.reduceOnly,
                                              s.orders[id].filled))
    ensures Billed(cfg, t)
  {
    var n := |s.log|;
    MonthSoFar(cfg, s, at);
    assert t.log[..n] == s.log && t.log[n] == v.fill;
    hide Charged, PeriodVolume, Lawful, OrderState.Booked;
    forall k | 0 <= k < |t.log| ensures BilledAt(cfg, t, k) {
      if k < n {
        assert BilledAt(cfg, s, k);
        assert t.log[..k] == s.log[..k];
      }
    }
    assert Metered(cfg, t);
    hide Told, MonthVolume;
    CommissionsPrinted(cfg, s, t, id, v, at);
  }

  lemma CommissionsPrinted(cfg: Config, s: State, t: State, id: OrderId, v: Verdict, at: Time)
    requires Billed(cfg, s) && id in s.orders && PrintLeaves(cfg, s, t, id, v, at) && v.fill.orderId == id
    ensures forall x | x in t.orders :: t.orders[x].commissionPaid == CommissionIn(t.log, x)
  {
    hide Charged, PeriodVolume, Lawful, OrderState.Booked, Told, MonthVolume;
    assert t.log[..|s.log|] == s.log;
    forall x | x in t.orders ensures t.orders[x].commissionPaid == CommissionIn(t.log, x) {
      if x !in s.orders {
        forall k | 0 <= k < |s.log| ensures s.log[k].orderId != x {
          assert BilledAt(cfg, s, k);
        }
        NoCommission(s.log, x);
      }
    }
  }

  lemma BilledWait(cfg: Config, s: State, t: State, id: OrderId, at: Time)
    requires Billed(cfg, s) && id in s.orders && WaitLeaves(cfg, s, t, id, at)
    ensures Billed(cfg, t)
  {
    hide Charged, Told, CommissionIn, MonthVolume, ShouldExpire, IsEligible;
    forall k | 0 <= k < |t.log| ensures BilledAt(cfg, t, k) {
      assert BilledAt(cfg, s, k);
    }
    forall x | x in t.orders ensures t.orders[x].commissionPaid == CommissionIn(t.log, x) {
      if x !in s.orders {
        forall k | 0 <= k < |s.log| ensures s.log[k].orderId != x {
          assert BilledAt(cfg, s, k);
        }
        NoCommission(s.log, x);
      }
    }
  }

  lemma BilledLook(cfg: Config, s: State, t: State, id: OrderId, snap: Snapshot)
    requires Billed(cfg, s) && Look(cfg, s, t, id, snap)
    ensures Billed(cfg, t)
  {
    hide Billed, Ledger, WorkOrder, Judge, PrintLeaves, WaitLeaves, Charged, PeriodVolume;
    var o := s.orders[id];
    LookEffect(cfg, s, t, id, snap);
    OpenFilled(cfg, s, id);
    assert o.terms.id == id;
    hide Look, Keyed;
    if VerdictOf(cfg, s, id, snap).Print? {
      PrintIsCharged(cfg, o, cfg.instruments[o.terms.instrument], snap, s.nextFill + 1,
                     PeriodVolume(cfg, s, snap.timestamp));
      BilledPrint(cfg, s, t, id, VerdictOf(cfg, s, id, snap), snap.timestamp);
    } else {
      BilledWait(cfg, s, t, id, snap.timestamp);
    }
  }

  /** After any run every fill has been charged the cost model's answer on what its order had filled before it, what
      the month had traded before it, and whether the order only reduces; and an order reports what its fills were
      charged in commission. */
  lemma FillsAreBilled(cfg: Config, commands: seq<Command>)
    requires Run(cfg, commands).Ok?
    ensures Billed(cfg, Run(cfg, commands).value)
  {
    var P := (s: State) => Billed(cfg, s);
    hide Run, Billed, Look, Between;
    assert P(Init) by {
      InitBilled(cfg);
    }
    forall s, t | P(s) && Between(s, t) ensures P(t) {
      BilledBetween(cfg, s, t);
    }
    forall snap ensures KeptByLooks(cfg, P, snap) {
      forall s, t, id | P(s) && Look(cfg, s, t, id, snap) ensures P(t) {
        BilledLook(cfg, s, t, id, snap);
      }
    }
    RunInduction(cfg, commands, P);
  }

  lemma InitBilled(cfg: Config)
    ensures Billed(cfg, Init)
  {
  }

  // ---- the month ---------------------------------------------------------------------------------------------------

  /** Bars come in time order. */
  predicate Chronological(commands: seq<Command>) {
    forall i, j | 0 <= i < j < |commands| && commands[i].Bar? && commands[j].Bar? ::
      commands[i].snap.timestamp <= commands[j].snap.timestamp
  }

  /** What was printed since `n` fills ago is stamped with one time. */
  ghost predicate Stamped(s: State, before: seq<Fill>, at: Time) {
    before <= s.log && forall k | |before| <= k < |s.log| :: s.log[k].timestamp == at
  }

  /** The fills a bar adds carry its time. */
  lemma BarStamps(cfg: Config, s: State, snap: Snapshot)
    requires Inv(s, {}) && Sound(cfg, s, false) && ProcessBar(cfg, s, snap).Ok?
    ensures Stamped(ProcessBar(cfg, s, snap).value, s.log, snap.timestamp)
  {
    var P := (t: State) => Stamped(t, s.log, snap.timestamp);
    hide Inv, Sound, ProcessBar, Look, Stamped;
    assert P(s) by {
      UnstampedYet(s, snap.timestamp);
    }
    forall t, u | P(t) && Between(t, u) ensures P(u) {
      StampedBetween(t, u, s.log, snap.timestamp);
    }
    forall t, u, id | P(t) && Look(cfg, t, u, id, snap) ensures P(u) {
      LookStamps(cfg, t, u, id, snap, s.log);
    }
    hide Between;
    BarInduction(cfg, s, snap, P);
  }

  lemma UnstampedYet(s: State, at: Time)
    ensures Stamped(s, s.log, at)
  {
  }

  lemma StampedBetween(s: State, t: State, before: seq<Fill>, at: Time)
    requires Stamped(s, before, at) && Between(s, t)
    ensures Stamped(t, before, at)
  {
  }

  lemma LookStamps(cfg: Config, s: State, t: State, id: OrderId, snap: Snapshot, before: seq<Fill>)
    requires Stamped(s, before, snap.timestamp) && Look(cfg, s, t, id, snap)
    ensures Stamped(t, before, snap.timestamp)
  {
    hide Look, Judge, WorkOrder, PeriodVolume;
    LookEffect(cfg, s, t, id, snap);
    hide Ledger, AfterPrint, AfterWait;
  }

  /** The fills are in time order and none is after `at`. */
  ghost predicate InOrder(log: seq<Fill>, at: Time) {
    && (forall i, j | 0 <= i < j < |log| :: log[i].timestamp <= log[j].timestamp)
    && (forall k | 0 <= k < |log| :: log[k].timestamp <= at)
  }

  /** Bars in time order leave fills in time order, none after a later bar. */
  lemma {:induction false} RunInOrder(cfg: Config, commands: seq<Command>, at: Time)
    requires Run(cfg, commands).Ok? && Chronological(commands)
    requires forall c | c in commands && c.Bar? :: c.snap.timestamp <= at
    ensures InOrder(Run(cfg, commands).value.log, at)
  {
    if commands != [] {
      var prefix, last := commands[..|commands| - 1], commands[|commands| - 1];
      assert forall k | 0 <= k < |prefix| :: commands[k] == prefix[k];
      assert last in commands;
      RunInvariant(cfg, prefix);
      RunSound(cfg, prefix, false);
      var s := Run(cfg, prefix).value;
      hide Inv, Sound, ProcessBar;
      if last.Bar? {
        RunInOrder(cfg, prefix, last.snap.timestamp);
        BarStamps(cfg, s, last.snap);
      } else {
        RunInOrder(cfg, prefix, at);
        CallIsBetween(cfg, s, last);
        hide Step;
      }
    }
  }

  /** With bars in time order, and months that do not go back, the volume the model is told is that of all fills of the
      month so far. */
  lemma MonthIsWhole(cfg: Config, commands: seq<Command>, k: nat)
    requires Run(cfg, commands).Ok? && Chronological(commands) && k < |Run(cfg, commands).value.log|
    requires forall a: Time, b: Time | a <= b :: cfg.month(a) <= cfg.month(b)
    ensures
      var log := Run(cfg, commands).value.log;
      var month := cfg.month(log[k].timestamp);
      MonthVolume(cfg, log[..k], month) == MonthTotal(cfg, log[..k], month)
  {
    var log := Run(cfg, commands).value.log;
    var at := LastBar(commands);
    RunInOrder(cfg, commands, at);
    hide Run;
    OneMonth(cfg, log[..k], cfg.month(log[k].timestamp));
  }

  lemma {:induction false} LastBar(commands: seq<Command>) returns (at: Time)
    ensures forall c | c in commands && c.Bar? :: c.snap.timestamp <= at
  {
    at := 0;
    if commands != [] {
      at := LastBar(commands[..|commands| - 1]);
      var last := commands[|commands| - 1];
      assert commands == commands[..|commands| - 1] + [last];
      if last.Bar? && at < last.snap.timestamp {
        at := last.snap.timestamp;
      }
    }
  }

  lemma {:induction false} OneMonth(cfg: Config, log: seq<Fill>, month: int)
    requires forall i, j | 0 <= i < j < |log| :: cfg.month(log[i].timestamp) <= cfg.month(log[j].timestamp)
    requires forall k | 0 <= k < |log| :: cfg.month(log[k].timestamp) <= month
    ensures MonthVolume(cfg, log, month) == MonthTotal(cfg, log, month)
  {
    if log != [] {
      var before, last := log[..|log| - 1], log[|log| - 1];
      OneMonth(cfg, before, month);
      if cfg.month(last.timestamp) != month {
        NoneOfMonth(cfg, before, month);
      }
    }
  }

  lemma {:induction false} NoneOfMonth(cfg: Config, log: seq<Fill>, month: int)
    requires forall k | 0 <= k < |log| :: cfg.month(log[k].timestamp) < month
    ensures MonthTotal(cfg, log, month) == 0.0
  {
    if log != [] {
      NoneOfMonth(cfg, log[..|log| - 1], month);
    }
  }

  // ---- an order pays for one print ---------------------------------------------------------------------------------

  /** A fill's terms as a schedule sees them. */
  function TermsOf(cfg: Config, r: CostRequest): Commission.Terms
    requires r.instrument in cfg.instruments
  {
    var i := cfg.instruments[r.instrument];
    Commission.Terms(r.side, r.price, i.multiplier, i.listing.Contract?, r.periodVolume, r.isClosing)
  }

  /** Costs come from a commission schedule. */
  ghost predicate Scheduled(cfg: Config, m: Commission.Model) {
    forall r: CostRequest | r.instrument in cfg.instruments ::
      cfg.costs(r) == Costs(Commission.CommissionOf(m, TermsOf(cfg, r), r.filledBefore, r.quantity),
                            Commission.FeesOf(m, TermsOf(cfg, r), r.filledBefore, r.quantity))
  }

  /** The sizes of one order's fills. */
  function SizesIn(log: seq<Fill>, id: OrderId): seq<real> {
    if log == [] then []
    else
      var last := log[|log| - 1];
      SizesIn(log[..|log| - 1], id) + if last.orderId == id then [last.quantity] else []
  }

  /** The order's fills print on like terms: one price, one side, and month volumes in one band of every schedule. */
  ghost predicate OnLikeTerms(cfg: Config, s: State, id: OrderId, m: Commission.Model, t: Commission.Terms) {
    forall k | 0 <= k < |s.log| && s.log[k].orderId == id ::
      && id in s.orders && s.log[k].instrument in cfg.instruments
      && var terms := TermsOf(cfg, Told(cfg, s.log, k, s.orders[id].terms.reduceOnly));
         terms == t.(periodVolume := terms.periodVolume)
         && Commission.SameBand(m, terms.periodVolume, t.periodVolume)
  }

  lemma {:induction false} SizesMean(log: seq<Fill>, id: OrderId)
    requires forall k | 0 <= k < |log| && log[k].orderId == id :: log[k].quantity > QUANTITY_TOLERANCE
    ensures Commission.Sum(SizesIn(log, id)) == FilledIn(log, id)
    ensures forall k | 0 <= k < |SizesIn(log, id)| :: SizesIn(log, id)[k] > QUANTITY_TOLERANCE
    ensures |SizesIn(log, id)| == Prints(log, id)
  {
    if log != [] {
      var before, last := log[..|log| - 1], log[|log| - 1];
      SizesMean(before, id);
      Commission.SumAppend(SizesIn(before, id), last.quantity);
      assert SizesIn(before, id) + [] == SizesIn(before, id);
    }
  }

  /** One fill on like terms is charged what its schedule asks, which is never negative. */
  lemma OneCharge(cfg: Config, s: State, k: nat, m: Commission.Model, t: Commission.Terms)
    requires Scheduled(cfg, m) && Commission.Valid(m) && Commission.Priced(t) && Ledger(cfg, s) && Keyed(s)
    requires k < |s.log| && BilledAt(cfg, s, k) && OnLikeTerms(cfg, s, s.log[k].orderId, m, t)
    requires FilledIn(s.log[..k], s.log[k].orderId) >= 0.0 && s.log[k].quantity > QUANTITY_TOLERANCE
    ensures s.log[k].commission + s.log[k].fees
              == Commission.Cost(m, t, FilledIn(s.log[..k], s.log[k].orderId), s.log[k].quantity)
  {
    var f := s.log[k];
    var told := Told(cfg, s.log, k, s.orders[f.orderId].terms.reduceOnly);
    var terms, before := TermsOf(cfg, told), FilledIn(s.log[..k], f.orderId);
    assert told.instrument == f.instrument && told.filledBefore == before && told.quantity == f.quantity;
    hide FilledIn, Told, Ledger, Commission.CommissionOf, Commission.FeesOf, Commission.SameBand;
    assert cfg.costs(told) == Costs(Commission.CommissionOf(m, terms, before, f.quantity),
                                    Commission.FeesOf(m, terms, before, f.quantity));
    Commission.BandPricesAlike(m, t, terms.periodVolume, before, f.quantity);
    Commission.CommissionIsMarginal(m, t, before, f.quantity);
    Commission.FeesAreMarginal(m, t, before, f.quantity);
  }

  lemma NoDust(cfg: Config, s: State)
    requires Ledger(cfg, s)
    ensures forall k | 0 <= k < |s.log| :: s.log[k].quantity > QUANTITY_TOLERANCE
  {
    forall k | 0 <= k < |s.log| ensures s.log[k].quantity > QUANTITY_TOLERANCE {
      assert Honours(cfg, s.log[k], s.orders[s.log[k].orderId].terms);
    }
  }

  /** Fill by fill that is the schedule's total for the sizes so far. */
  lemma {:induction false} ChargesAddUp(cfg: Config, s: State, id: OrderId, n: nat, m: Commission.Model,
                                        t: Commission.Terms)
    requires Scheduled(cfg, m) && Commission.Valid(m) && Commission.Priced(t) && Ledger(cfg, s) && Keyed(s)
    requires Billed(cfg, s) && OnLikeTerms(cfg, s, id, m, t) && n <= |s.log|
    ensures ChargedIn(s.log[..n], id) == Commission.TotalCost(m, t, 0.0, SizesIn(s.log[..n], id))
  {
    hide *;
    if n > 0 {
      ChargesAddUp(cfg, s, id, n - 1, m, t);
      var before, f := s.log[..n - 1], s.log[n - 1];
      assert s.log[..n] == before + [f];
      ChargeNext(before, f, id);
      NoDust(cfg, s);
      SizesMean(before, id);
      if f.orderId == id {
        BilledFill(cfg, s, n - 1);
        FilledSoFar(before, id);
        OneCharge(cfg, s, n - 1, m, t);
        Commission.TotalCostAppend(m, t, 0.0, SizesIn(before, id), f.quantity);
      }
    } else {
      assert s.log[..0] == [];
      NothingCharged(id, m, t);
    }
  }

  lemma NothingCharged(id: OrderId, m: Commission.Model, t: Commission.Terms)
    ensures ChargedIn([], id) == Commission.TotalCost(m, t, 0.0, SizesIn([], id))
  {
  }

  lemma BilledFill(cfg: Config, s: State, k: nat)
    requires Billed(cfg, s) && k < |s.log|
    ensures BilledAt(cfg, s, k)
  {
    hide BilledAt;
  }

  lemma ChargeNext(log: seq<Fill>, f: Fill, id: OrderId)
    ensures ChargedIn(log + [f], id) == ChargedIn(log, id) + if f.orderId == id then f.commission + f.fees else 0.0
    ensures SizesIn(log + [f], id) == if f.orderId == id then SizesIn(log, id) + [f.quantity] else SizesIn(log, id)
  {
    assert (log + [f])[..|log|] == log;
  }

  lemma {:induction false} FilledSoFar(log: seq<Fill>, id: OrderId)
    requires forall k | 0 <= k < |log| :: log[k].quantity > QUANTITY_TOLERANCE
    ensures FilledIn(log, id) >= 0.0
  {
    if log != [] {
      FilledSoFar(log[..|log| - 1], id);
    }
  }

  /** However a run splits an order into fills on like terms, under any commission schedule they are charged in all what
      one print of their sum would be: no fill is dust, so not even a flat fee is charged again. */
  lemma OrderPaysForOnePrint(cfg: Config, commands: seq<Command>, id: OrderId, m: Commission.Model, t: Commission.Terms)
    requires Run(cfg, commands).Ok? && Scheduled(cfg, m) && Commission.Valid(m) && Commission.Priced(t)
    requires OnLikeTerms(cfg, Run(cfg, commands).value, id, m, t) && Prints(Run(cfg, commands).value.log, id) > 0
    ensures
      var log := Run(cfg, commands).value.log;
      ChargedIn(log, id) == Commission.Cost(m, t, 0.0, FilledIn(log, id))
  {
    hide Run, Inv, Paired, Bracketed, OneLook, Scheduled, Ledger, Billed, OnLikeTerms, Keyed, Protective, Followed;
    hide Commission.Valid, Commission.Priced;
    var s := Run(cfg, commands).value;
    RunSound(cfg, commands, false);
    RunInvariant(cfg, commands);
    InvPaired(s, {});
    FillsAreBilled(cfg, commands);
    NoDust(cfg, s);
    ChargesAddUp(cfg, s, id, |s.log|, m, t);
    assert s.log[..|s.log|] == s.log;
    SizesMean(s.log, id);
    Commission.SplitInvariance(m, t, SizesIn(s.log, id));
  }
}
