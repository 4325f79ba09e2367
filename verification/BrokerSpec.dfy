/** The simulated broker as a state machine on values: what every operation of `sigmaloop/execution/broker.py` does
    to its linked maps. `SimulatedBroker.SimulatedBroker` is the class that works this way in place. */
module BrokerSpec {
  import opened Types
  import opened Money
  import opened Instruments
  import opened Orders
  import opened Execution
  import Pricing

  // ---- what the broker is configured with ----------------------------------------------------------------------

  type Volume = v: real | v >= 0.0 witness 0.0

  datatype OptionQuote = OptionQuote(quote: Quote, volume: Volume)

  datatype LiquidityRequest = LiquidityRequest(instrument: InstrumentId, side: Side, quantity: real, reference: real,
                                               bar: Bar)

  datatype PriceRequest = PriceRequest(
    instrument: InstrumentId, side: Side, reference: real, quantity: real, bar: Bar, optionQuote: Option<OptionQuote>)

  /** A price with spread and slippage on it, before it is settled; `spread` is the book's width when there is one. */
  datatype PricedFill = PricedFill(price: real, reference: real, slippage: real, spread: Option<real>)

  datatype CostRequest = CostRequest(
    instrument: InstrumentId, side: Side, quantity: real, price: real,
    periodVolume: real, isClosing: bool, filledBefore: real)

  datatype Costs = Costs(commission: real, fees: real)

  /** The registry, the policy flags, and the pluggable models as arbitrary functions. */
  datatype Config = Config(
    execution: ExecutionModel,
    instruments: map<InstrumentId, Instrument>,
    carryRemainder: bool,
    allowPartial: bool,
    liquidity: LiquidityRequest -> real,
    price: PriceRequest -> Outcome<PricedFill>,
    costs: CostRequest -> Costs,
    month: Time -> int)

  datatype Snapshot = Snapshot(
    timestamp: Time, sessionClose: bool, bars: map<InstrumentId, Bar>, optionQuotes: map<InstrumentId, OptionQuote>)

  function QuoteFor(snap: Snapshot, id: InstrumentId, i: Instrument): Option<OptionQuote> {
    if i.listing.Contract? && id in snap.optionQuotes then Some(snap.optionQuotes[id]) else None
  }

  /** The bar to match against; an option without one gets a flat bar at its mid. */
  function MarketBar(snap: Snapshot, id: InstrumentId, i: Instrument): Option<Bar> {
    if id in snap.bars then Some(snap.bars[id])
    else match QuoteFor(snap, id, i)
      case None => None
      case Some(q) =>
        var mid := q.quote.Mid();
        Some(RawBar(mid, mid, mid, mid, q.volume, Some(q.quote)))
  }

  // ---- judging one order against one bar -----------------------------------------------------------------------

  /** What the bar can absorb of an order. */
  function Fillable(cfg: Config, o: OrderState, i: Instrument, reference: real, bar: Bar): real {
    var wanted := o.Remaining();
    var offered := cfg.liquidity(LiquidityRequest(o.terms.instrument, o.terms.side, wanted, reference, bar));
    var capped := Max(Min(wanted, offered), 0.0);
    if capped >= wanted then capped
    else if !cfg.allowPartial || o.terms.tif.Fok? then 0.0
    else RoundQuantity(capped, i.lot)
  }

  function BuildFill(cfg: Config, o: OrderState, i: Instrument, reference: real, quantity: real, bar: Bar,
                     quote: Option<OptionQuote>, at: Time, seqNo: nat, volume: real): Outcome<Fill>
  {
    var t := o.terms;
    var priced :- cfg.price(PriceRequest(t.instrument, t.side, reference, quantity, bar, quote));
    var price := Pricing.SettlePrice(priced.price, t, i.tick, bar, priced.spread);
    var costs := cfg.costs(CostRequest(t.instrument, t.side, quantity, price, volume, t.reduceOnly, o.filled));
    Ok(Fill(seqNo, t.id, t.instrument, at, t.side, quantity, price, Max(costs.commission, 0.0), Max(costs.fees, 0.0),
            priced.slippage, priced.reference, quantity < o.Remaining() - QUANTITY_TOLERANCE))
  }

  /** What one look at the market comes to. `order` is the order as the look left it, before any print. */
  datatype Verdict =
    | Lapsed
    | Ineligible
    | NoPrint(order: OrderState)
    | Print(order: OrderState, fill: Fill)
    | Refused(error: Error)

  function Activated(o: OrderState, at: Time): OrderState {
    if o.activatedAt.None? then o.(activatedAt := Some(at)) else o
  }

  /** The verdict on what the models built, after the order's own guards. */
  function Admitted(a: OrderState, built: Outcome<Fill>): (v: Verdict)
    ensures !v.Lapsed? && !v.Ineligible?
  {
    match built
    case Raised(error) => Refused(error)
    case Ok(fill) =>
      match a.Refusal(fill)
      case Some(error) => Refused(error)
      case None => Print(a, fill)
  }

  /** What an eligible order, already activated, gets from the bar. */
  function Attempt(cfg: Config, a: OrderState, i: Instrument, snap: Snapshot, seqNo: nat, volume: real): (v: Verdict)
    ensures !v.Lapsed? && !v.Ineligible?
  {
    var bar := MarketBar(snap, a.terms.instrument, i);
    match TryFill(cfg.execution, a, bar, snap.sessionClose)
    case None => NoPrint(a)
    case Some(reference) =>
      var quantity := Fillable(cfg, a, i, reference, bar.value);
      if quantity <= QUANTITY_TOLERANCE then NoPrint(a)
      else Admitted(a, BuildFill(cfg, a, i, reference, quantity, bar.value, QuoteFor(snap, a.terms.instrument, i),
                                 snap.timestamp, seqNo, volume))
  }

  function Judge(cfg: Config, o: OrderState, i: Instrument, snap: Snapshot, seqNo: nat, volume: real): Verdict {
    if ShouldExpire(o, snap.timestamp) then Lapsed
    else if !IsEligible(cfg.execution, o, snap.timestamp) then Ineligible
    else Attempt(cfg, Activated(o, snap.timestamp), i, snap, seqNo, volume)
  }

  /** Where a bar moves a trailing stop: up behind the high for a sell, down behind the low for a buy, never back. */
  function TrailedStop(side: Side, stop: real, pct: real, bar: Bar): real {
    if side.Sell? then Max(stop, bar.high * (1.0 - pct)) else Min(stop, bar.low * (1.0 + pct))
  }

  /** A trailing stop after the bar has been evaluated. */
  function Ratcheted(o: OrderState, bar: Option<Bar>): (r: OrderState)
    ensures r == o.(stop := r.stop)
  {
    if bar.None? || !o.IsOpen() || o.stop.None? || o.terms.trailing.None? then o
    else o.(stop := Some(TrailedStop(o.terms.side, o.stop.value, o.terms.trailing.value, bar.value)))
  }

  // ---- the linked maps -----------------------------------------------------------------------------------------

  datatype BrokerResult = BrokerResult(
    fills: seq<Fill>, rejections: seq<(OrderId, RejectReason)>, expirations: seq<OrderId>, cancellations: seq<OrderId>)

  const NO_RESULT := BrokerResult([], [], [], [])

  /** `submitted` is the insertion order of `_orders`, `bookOrder` that of `_by_instrument`; `out` is the result of
      the bar being processed and `log` every fill since the broker was built. */
  datatype State = State(
    orders: map<OrderId, OrderState>, submitted: seq<OrderId>,
    books: map<InstrumentId, seq<OrderId>>, bookOrder: seq<InstrumentId>,
    brackets: map<OrderId, BracketSpec>, oco: map<OrderId, OrderId>,
    pending: seq<(OrderId, RejectReason)>,
    nextFill: nat, period: Option<int>, periodVolume: real,
    out: BrokerResult, log: seq<Fill>)
  {
    function Book(i: InstrumentId): seq<OrderId> {
      if i in books then books[i] else []
    }

    function Open(): set<OrderId> {
      set id | id in orders && orders[id].IsOpen()
    }

    function OpenIn(i: InstrumentId): set<OrderId> {
      set id | id in orders && orders[id].IsOpen() && orders[id].terms.instrument == i
    }

    function Stops(): set<OrderId> {
      set id | id in orders && orders[id].terms.kind.NeedsStop()
    }
  }

  const Init := State(map[], [], map[], [], map[], map[], [], 0, None, 0.0, NO_RESULT, [])

  /** The members of a sequence that are in a set, in order. */
  function Keep<T(==)>(xs: seq<T>, chosen: set<T>): seq<T> {
    if xs == [] then []
    else
      var rest := Keep(xs[..|xs| - 1], chosen);
      if xs[|xs| - 1] in chosen then rest + [xs[|xs| - 1]] else rest
  }

  function Without<T(==)>(xs: seq<T>, x: T): seq<T> {
    if xs == [] then []
    else
      var rest := Without(xs[..|xs| - 1], x);
      if xs[|xs| - 1] == x then rest else rest + [xs[|xs| - 1]]
  }

  function Put(s: State, id: OrderId, o: OrderState): State {
    s.(orders := s.orders[id := o])
  }

  function DropKey(s: State, i: InstrumentId): State {
    s.(books := s.books - {i}, bookOrder := Without(s.bookOrder, i))
  }

  function SetBook(s: State, i: InstrumentId, ids: seq<OrderId>): State {
    if ids == [] then DropKey(s, i) else s.(books := s.books[i := ids])
  }

  function Unlink(s: State, id: OrderId): State {
    if id in s.oco then s.(oco := s.oco - {id, s.oco[id]}) else s
  }

  function Unshelve(s: State, id: OrderId, i: InstrumentId): (r: State)
    ensures r == s.(books := r.books, bookOrder := r.bookOrder)
  {
    if i in s.books then SetBook(s, i, Without(s.books[i], id)) else s
  }

  /** Drop a settled order from its book, its bracket and its pair. */
  function Forget(s: State, id: OrderId, i: InstrumentId): State {
    var s1 := Unshelve(s, id, i);
    Unlink(s1.(brackets := s1.brackets - {id}), id)
  }

  function Close(s: State, id: OrderId, status: OrderStatus): State
    requires id in s.orders
  {
    var o := s.orders[id].(status := status);
    Forget(Put(s, id, o), id, o.terms.instrument)
  }

  // ---- intake --------------------------------------------------------------------------------------------------

  function IntakeRefusal(cfg: Config, o: OrderState): Option<RejectReason> {
    if o.terms.instrument !in cfg.instruments then Some(NotTradeable)
    else
      var i := cfg.instruments[o.terms.instrument];
      if !i.tradeable then Some(NotTradeable)
      else if i.IsExpired(o.terms.submittedAt) then Some(InstrumentExpired)
      else if o.quantity <= QUANTITY_TOLERANCE then Some(ZeroOrNegativeQuantity)
      else if RoundQuantity(o.quantity, i.lot) <= 0.0 then Some(BelowMinLot)
      else if o.terms.side.Sell? && !i.shortable && !o.terms.reduceOnly then Some(NotShortable)
      else None
  }

  /** Queue a refused order's record for the next bar. */
  function Refuse(s: State, o: OrderState, reason: RejectReason): State {
    Put(s, o.terms.id, o.(status := Rejected)).(submitted := s.submitted + [o.terms.id],
                                                pending := s.pending + [(o.terms.id, reason)])
  }

  function Admit(s: State, o: OrderState): State {
    var i := o.terms.instrument;
    Put(s, o.terms.id, o.(status := Accepted)).(
      submitted := s.submitted + [o.terms.id],
      books := s.books[i := s.Book(i) + [o.terms.id]],
      bookOrder := if i in s.books then s.bookOrder else s.bookOrder + [i],
      brackets := if o.terms.bracket.Some? then s.brackets[o.terms.id := o.terms.bracket.value] else s.brackets)
  }

  function Submit(cfg: Config, s: State, o: OrderState): Outcome<State> {
    if o.status != PendingNew then Raised(NotPendingNew)
    else if o.terms.id in s.orders then Raised(DuplicateOrderId)
    else
      match IntakeRefusal(cfg, o)
      case Some(reason) => Ok(Refuse(s, o, reason))
      case None => Ok(Admit(s, o))
  }

  predicate Cancellable(s: State, id: OrderId) {
    id in s.orders && s.orders[id].IsOpen()
  }

  function Cancel(s: State, id: OrderId): State {
    if Cancellable(s, id) then Close(s, id, Cancelled) else s
  }

  function CancelEach(s: State, ids: seq<OrderId>): State
    decreases |ids|
  {
    if ids == [] then s else CancelEach(Cancel(s, ids[0]), ids[1..])
  }

  /** The open orders of one instrument's book, or of the whole broker. */
  function WorkingOrders(s: State, i: Option<InstrumentId>): seq<OrderId> {
    if i.Some? then Keep(s.Book(i.value), s.Open()) else Keep(s.submitted, s.Open())
  }

  // ---- brackets ------------------------------------------------------------------------------------------------

  const STOP_SUFFIX := "-SL"
  const TARGET_SUFFIX := "-TP"

  function StopId(parent: OrderId): OrderId {
    parent + STOP_SUFFIX
  }

  function TargetId(parent: OrderId): OrderId {
    parent + TARGET_SUFFIX
  }

  /** A price some way off another, as a factor of it. */
  function Scaled(price: real, factor: real): real {
    price * factor
  }

  function StopLevel(spec: BracketSpec, entry: real, isLong: bool): Option<real> {
    var level :=
      if spec.stopLossPrice.Some? then spec.stopLossPrice
      else if spec.stopLossPct.Some? then
        Some(Scaled(entry, if isLong then 1.0 - spec.stopLossPct.value else 1.0 + spec.stopLossPct.value))
      else if spec.trailingPct.Some? then
        Some(Scaled(entry, if isLong then 1.0 - spec.trailingPct.value else 1.0 + spec.trailingPct.value))
      else None;
    if level.Some? && level.value > 0.0 then level else None
  }

  function TargetLevel(spec: BracketSpec, entry: real, isLong: bool): Option<real> {
    var level :=
      if spec.takeProfitPrice.Some? then spec.takeProfitPrice
      else if spec.takeProfitPct.Some? then
        Some(Scaled(entry, if isLong then 1.0 + spec.takeProfitPct.value else 1.0 - spec.takeProfitPct.value))
      else None;
    if level.Some? && level.value > 0.0 then level else None
  }

  /** One protective leg: opposite side, reduce-only, good till cancelled, sized to what the parent has filled. */
  function Leg(parent: OrderState, id: OrderId, kind: OrderType, limit: Option<real>, stop: Option<real>,
               trailing: Option<real>, at: Time): Outcome<OrderState>
  {
    NewOrder(OrderTerms(id, parent.terms.instrument, parent.terms.side.Opposite(), kind, at,
                        Some(parent.terms.id), limit, Gtc, None, true, None, trailing),
             parent.filled, stop)
  }

  /** What a parent's legs are priced off: its average, or the print itself while that is zero. */
  function EntryPrice(parent: OrderState, fill: Fill): real {
    if parent.avgPrice != 0.0 then parent.avgPrice else fill.price
  }

  /** The legs a spec calls for, stop first. */
  function Legs(parent: OrderState, spec: BracketSpec, fill: Fill, i: Instrument): Outcome<seq<OrderState>> {
    var entry := EntryPrice(parent, fill);
    var isLong := parent.terms.side.Buy?;
    var stopLevel := StopLevel(spec, entry, isLong);
    var targetLevel := TargetLevel(spec, entry, isLong);
    var stopLeg :-
      if stopLevel.None? then Ok([])
      else
        var leg :- Leg(parent, StopId(parent.terms.id), Stop, None, Some(RoundPrice(stopLevel.value, i.tick)),
                       spec.trailingPct, fill.timestamp);
        Ok([leg]);
    var targetLeg :-
      if targetLevel.None? then Ok([])
      else
        var leg :- Leg(parent, TargetId(parent.terms.id), Limit, Some(RoundPrice(targetLevel.value, i.tick)), None,
                       None, fill.timestamp);
        Ok([leg]);
    Ok(stopLeg + targetLeg)
  }

  /** A leg that may still be resized: open and untouched. */
  predicate Untouched(s: State, id: OrderId) {
    id in s.orders && s.orders[id].IsOpen() && s.orders[id].filled == 0.0
  }

  function Resized(s: State, id: OrderId, quantity: real): State {
    if Untouched(s, id) then Put(s, id, s.orders[id].(quantity := quantity)) else s
  }

  function SubmitLegs(cfg: Config, s: State, legs: seq<OrderState>): (r: Outcome<State>)
    ensures r.Ok? ==> s.orders.Keys <= r.value.orders.Keys
    decreases |legs|
  {
    if legs == [] then Ok(s)
    else
      var s1 :- Submit(cfg, s, legs[0]);
      SubmitLegs(cfg, s1, legs[1..])
  }

  /** Pair two legs so that filling one cancels the other. */
  function Pair(s: State, legs: seq<OrderState>): State {
    if |legs| == 2 then
      s.(oco := s.oco[legs[0].terms.id := legs[1].terms.id][legs[1].terms.id := legs[0].terms.id])
    else s
  }

  function ActivateBrackets(cfg: Config, s: State, id: OrderId, fill: Fill, i: Instrument): (r: Outcome<State>)
    requires id in s.orders
    ensures r.Ok? ==> s.orders.Keys <= r.value.orders.Keys
  {
    var parent := s.orders[id];
    if id !in s.brackets then Ok(s)
    else if Untouched(s, StopId(id)) || Untouched(s, TargetId(id)) then
      Ok(Resized(Resized(s, StopId(id), parent.filled), TargetId(id), parent.filled))
    else
      var legs :- Legs(parent, s.brackets[id], fill, i);
      var s1 :- SubmitLegs(cfg, s, legs);
      Ok(Pair(s1, legs))
  }

  // ---- matching ------------------------------------------------------------------------------------------------

  function Expire(s: State, id: OrderId): State
    requires id in s.orders
  {
    var s1 := Close(s, id, Expired);
    s1.(out := s1.out.(expirations := s1.out.expirations + [id]))
  }

  /** A leg filled, so its sibling is no longer wanted. */
  function SettleOco(s: State, id: OrderId): State {
    if id !in s.oco then s
    else
      var sibling := s.oco[id];
      var s1 := Unlink(s, id);
      if Cancellable(s1, sibling) then
        var s2 := Cancel(s1, sibling);
        s2.(out := s2.out.(cancellations := s2.out.cancellations + [sibling]))
      else s1
  }

  function CancelRemainder(s: State, id: OrderId): State
    requires id in s.orders
  {
    if s.orders[id].Remaining() <= QUANTITY_TOLERANCE then s
    else
      var s1 := Close(s, id, Cancelled);
      s1.(out := s1.out.(cancellations := s1.out.cancellations + [id]))
  }

  /** Volume traded so far in the calendar month of `at`. */
  function PeriodVolume(cfg: Config, s: State, at: Time): real {
    if s.period == Some(cfg.month(at)) then s.periodVolume else 0.0
  }

  /** Book a print on its order and in the records. */
  function Record(cfg: Config, s: State, id: OrderId, o: OrderState, fill: Fill): State {
    Put(s, id, o).(
      nextFill := s.nextFill + 1,
      period := Some(cfg.month(fill.timestamp)),
      periodVolume := PeriodVolume(cfg, s, fill.timestamp) + fill.quantity,
      out := s.out.(fills := s.out.fills + [fill]),
      log := s.log + [fill])
  }

  function FinishPrint(cfg: Config, s: State, id: OrderId): (r: State)
    requires id in s.orders
    ensures r.orders.Keys == s.orders.Keys
  {
    if s.orders[id].status.Filled? then SettleOco(s, id)
    else if s.orders[id].terms.tif.OneShot() || !cfg.carryRemainder then CancelRemainder(s, id)
    else s
  }

  /** Carry out a verdict on an order. */
  function Enact(cfg: Config, s: State, id: OrderId, verdict: Verdict, i: Instrument,
                 bar: Option<Bar>): (r: Outcome<State>)
    requires id in s.orders
    ensures r.Ok? ==> s.orders.Keys <= r.value.orders.Keys
  {
    match verdict
    case Refused(error) => Raised(error)
    case Lapsed => Ok(Expire(s, id))
    case Ineligible => Ok(s)
    case NoPrint(a) =>
      var s1 := Put(s, id, Ratcheted(a, bar));
      Ok(if a.terms.tif.OneShot() then Expire(s1, id) else s1)
    case Print(a, fill) =>
      var s1 := Record(cfg, s, id, a.Booked(fill), fill);
      var s2 :- ActivateBrackets(cfg, s1, id, fill, i);
      var s3 := FinishPrint(cfg, s2, id);
      Ok(Put(s3, id, Ratcheted(s3.orders[id], bar)))
  }

  function WorkOrder(cfg: Config, s: State, id: OrderId, i: Instrument, snap: Snapshot): (r: Outcome<State>)
    requires id in s.orders
    ensures r.Ok? ==> s.orders.Keys <= r.value.orders.Keys
  {
    var o := s.orders[id];
    Enact(cfg, s, id, Judge(cfg, o, i, snap, s.nextFill + 1, PeriodVolume(cfg, s, snap.timestamp)),
          i, MarketBar(snap, o.terms.instrument, i))
  }

  /** Work the listed orders that are still open. */
  function WorkAll(cfg: Config, s: State, ids: seq<OrderId>, i: Instrument, snap: Snapshot): Outcome<State>
    decreases |ids|
  {
    if ids == [] then Ok(s)
    else
      var s1 :- if Cancellable(s, ids[0]) then WorkOrder(cfg, s, ids[0], i, snap) else Ok(s);
      WorkAll(cfg, s1, ids[1..], i, snap)
  }

  /** Stops before everything else, each group in book order. */
  function MatchingOrder(s: State, book: seq<OrderId>): seq<OrderId> {
    Keep(book, s.Stops()) + Keep(book, (set id | id in book) - s.Stops())
  }

  /** Settle the book of an instrument that has been worked. */
  function Prune(s: State, i: InstrumentId): (r: State)
    ensures r == s.(books := r.books, bookOrder := r.bookOrder, brackets := r.brackets)
  {
    if i !in s.books then s
    else
      var kept := Keep(s.books[i], s.Open());
      var gone := (set id | id in s.books[i]) - s.Open();
      SetBook(s.(brackets := s.brackets - gone), i, kept)
  }

  function WorkBook(cfg: Config, s: State, i: InstrumentId, snap: Snapshot): Outcome<State> {
    if i !in s.books then Ok(s)
    else if i !in cfg.instruments then Raised(UnknownInstrument)
    else
      var s1 :- WorkAll(cfg, s, MatchingOrder(s, s.books[i]), cfg.instruments[i], snap);
      Ok(Prune(s1, i))
  }

  function WorkBooks(cfg: Config, s: State, keys: seq<InstrumentId>, snap: Snapshot): Outcome<State>
    decreases |keys|
  {
    if keys == [] then Ok(s)
    else
      var s1 :- WorkBook(cfg, s, keys[0], snap);
      WorkBooks(cfg, s1, keys[1..], snap)
  }

  /** Advance every working order against one bar; `out` of the result is what the call returns. */
  function ProcessBar(cfg: Config, s: State, snap: Snapshot): Outcome<State> {
    WorkBooks(cfg, s.(out := NO_RESULT.(rejections := s.pending), pending := []), s.bookOrder, snap)
  }

  // ---- runs ----------------------------------------------------------------------------------------------------

  /** One call on the broker. A submission carries what the caller built the order from. */
  datatype Command =
    | SubmitOrder(terms: OrderTerms, quantity: real, stop: Option<real>)
    | CancelOrder(id: OrderId)
    | CancelAll(instrument: Option<InstrumentId>)
    | Bar(snap: Snapshot)

  function Step(cfg: Config, s: State, c: Command): Outcome<State> {
    match c
    case SubmitOrder(terms, quantity, stop) =>
      var o :- NewOrder(terms, quantity, stop);
      Submit(cfg, s, o)
    case CancelOrder(id) => Ok(Cancel(s, id))
    case CancelAll(instrument) => Ok(CancelEach(s, WorkingOrders(s, instrument)))
    case Bar(snap) => ProcessBar(cfg, s, snap)
  }

  /** Any interleaving of calls on a new broker, ended by the first exception. */
  function Run(cfg: Config, commands: seq<Command>): Outcome<State> {
    if commands == [] then Ok(Init)
    else
      var s :- Run(cfg, commands[..|commands| - 1]);
      Step(cfg, s, commands[|commands| - 1])
  }
}
