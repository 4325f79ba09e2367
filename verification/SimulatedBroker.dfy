/** The broker itself: orders and books mutated in place, proved step by step against `BrokerSpec`. */
module SimulatedBroker {
  import opened Types
  import opened Instruments
  import opened Orders
  import opened Execution
  import opened BrokerSpec
  import opened BrokerIndex
  import opened BrokerLedger
  import opened BrokerRuns

  /** Where a bar moves the stop of an open trailing order. */
  lemma RatchetedTo(o: OrderState, bar: Bar)
    requires o.IsOpen() && o.stop.Some? && o.terms.trailing.Some?
    ensures
      var stop, pct := o.stop.value, o.terms.trailing.value;
      Ratcheted(o, Some(bar)).stop
        == Some(if o.terms.side.Sell? then Max(stop, bar.high * (1.0 - pct)) else Min(stop, bar.low * (1.0 + pct)))
  {
  }

  class SimulatedBroker {
    const config: Config
    var orders: map<OrderId, Order>
    var submitted: seq<OrderId>
    var books: map<InstrumentId, seq<OrderId>>
    var bookOrder: seq<InstrumentId>
    var brackets: map<OrderId, BracketSpec>
    var oco: map<OrderId, OrderId>
    var pending: seq<(OrderId, RejectReason)>
    var nextFill: nat
    var period: Option<int>
    var periodVolume: real
    var out: BrokerResult
    ghost var values: map<OrderId, OrderState>
    ghost var log: seq<Fill>
    /** The calls made so far. */
    ghost var history: seq<Command>

    /** Orders sit under their own ids, so no two entries are one object, and `values` is what they hold. */
    ghost predicate Valid()
      reads this`orders, this`values, orders.Values
    {
      && (forall id | id in orders :: orders[id].terms.id == id)
      && values.Keys == orders.Keys
      && (forall id | id in values :: values[id] == orders[id].View())
    }

    /** The broker's value: its maps, with every order at its present value. */
    ghost function View(): State
      reads this
    {
      State(values, submitted, books, bookOrder, brackets, oco, pending, nextFill, period, periodVolume, out, log)
    }

    /** The broker stands where the specification's run of the calls made on it does. */
    ghost predicate Reached()
      reads this, orders.Values
    {
      Valid() && Run(config, history) == Ok(View())
    }

    /** So everything proved of runs holds of the object between calls. */
    lemma Promises()
      requires Reached()
      ensures Inv(View(), {}) && Sound(config, View(), forall c | c in history :: Tidy(c))
    {
      hide Inv, Sound, Tidy;
      RunInvariant(config, history);
      RunSound(config, history, forall c | c in history :: Tidy(c));
    }

    /** A method's outcome is the specification's: the same exception, or the same next state. */
    ghost predicate Agrees(error: Option<Error>, expected: Outcome<State>)
      reads this
    {
      expected == match error case Some(e) => Raised(e) case None => Ok(View())
    }

    /** Nothing leaves `_orders`, no entry is replaced, and what is added is new. */
    twostate predicate Grown()
      reads this`orders
    {
      && old(orders).Keys <= orders.Keys
      && (forall id | id in old(orders) :: orders[id] == old(orders)[id])
      && (forall id | id in orders && id !in old(orders) :: fresh(orders[id]))
    }

    constructor (config: Config)
      ensures Reached() && View() == Init && history == [] && this.config == config
    {
      this.config := config;
      orders, values, submitted, books, bookOrder, brackets, oco := map[], map[], [], map[], [], map[], map[];
      pending, nextFill, period, periodVolume, out, log, history := [], 0, None, 0.0, NO_RESULT, [], [];
    }

    // ---- index upkeep ------------------------------------------------------------------------------------------

    /** Take an order out of its book, and the book away once empty. */
    method Shelve(id: OrderId, i: InstrumentId)
      modifies this`books, this`bookOrder
      ensures View() == Unshelve(old(View()), id, i)
    {
      hide Without;
      if i in books {
        var rest := Without(books[i], id);
        if rest == [] {
          books, bookOrder := books - {i}, Without(bookOrder, i);
        } else {
          books := books[i := rest];
        }
      }
    }

    /** Drop a pair from both sides. */
    method Unpair(id: OrderId)
      modifies this`oco
      ensures View() == Unlink(old(View()), id)
    {
      if id in oco {
        oco := oco - {id, oco[id]};
      }
    }

    method Forget(order: Order)
      modifies this`books, this`bookOrder, this`brackets, this`oco
      ensures View() == BrokerSpec.Forget(old(View()), order.terms.id, order.terms.instrument)
    {
      hide Unshelve, Unlink;
      Shelve(order.terms.id, order.terms.instrument);
      brackets := brackets - {order.terms.id};
      Unpair(order.terms.id);
    }

    /** Move an order of the broker to another status. */
    method SetStatus(order: Order, status: OrderStatus)
      requires Valid() && order.terms.id in orders && orders[order.terms.id] == order
      modifies this`values, order`status
      ensures Valid()
      ensures View() == Put(old(View()), order.terms.id, old(values)[order.terms.id].(status := status))
      ensures order.terms.id in old(values) && old(values)[order.terms.id] == old(order.View())
    {
      order.status := status;
      values := values[order.terms.id := order.View()];
    }

    /** Settle an order and drop it from every index. */
    method Close(order: Order, status: OrderStatus)
      requires Valid() && order.terms.id in orders && orders[order.terms.id] == order
      modifies this`values, this`books, this`bookOrder, this`brackets, this`oco, order`status
      ensures Valid()
      ensures View() == BrokerSpec.Close(old(View()), order.terms.id, status)
    {
      hide Valid, BrokerSpec.Forget, Put;
      SetStatus(order, status);
      Forget(order);
    }

    method Expire(order: Order)
      requires Valid() && order.terms.id in orders && orders[order.terms.id] == order
      modifies this`values, this`books, this`bookOrder, this`brackets, this`oco, this`out, order`status
      ensures Valid()
      ensures View() == BrokerSpec.Expire(old(View()), order.terms.id)
    {
      hide Valid, BrokerSpec.Close;
      Close(order, Expired);
      out := out.(expirations := out.expirations + [order.terms.id]);
    }

    // ---- intake ------------------------------------------------------------------------------------------------

    /** Mark an order the broker does not hold yet. */
    method Mark(order: Order, status: OrderStatus)
      requires Valid() && order.terms.id !in orders
      modifies order`status
      ensures Valid() && order.View() == old(order.View()).(status := status)
    {
      assert forall id | id in values :: orders[id] != order && values[id] == orders[id].View();
      order.status := status;
    }

    /** Enter a new order under its id. */
    method Store(order: Order)
      requires Valid() && order.terms.id !in orders
      modifies this`orders, this`values, this`submitted
      ensures Valid() && orders == old(orders)[order.terms.id := order]
      ensures View() == Put(old(View()), order.terms.id, order.View()).(submitted := old(submitted) + [order.terms.id])
    {
      orders, values := orders[order.terms.id := order], values[order.terms.id := order.View()];
      submitted := submitted + [order.terms.id];
    }

    method Reject(order: Order, reason: RejectReason)
      requires Valid() && order.terms.id !in orders
      modifies this`orders, this`values, this`submitted, this`pending, order`status
      ensures View() == Refuse(old(View()), old(order.View()), reason)
      ensures orders == old(orders)[order.terms.id := order] && Valid()
    {
      hide Valid;
      Mark(order, Rejected);
      Store(order);
      pending := pending + [(order.terms.id, reason)];
    }

    /** Append an order to its book, opening the book if need be. */
    method Enrol(id: OrderId, i: InstrumentId)
      modifies this`books, this`bookOrder
      ensures View() == old(View()).(books := old(books)[i := old(View()).Book(i) + [id]],
                                     bookOrder := if i in old(books) then old(bookOrder) else old(bookOrder) + [i])
    {
      if i !in books {
        books, bookOrder := books[i := []], bookOrder + [i];
      }
      books := books[i := books[i] + [id]];
    }

    method Accept(order: Order)
      requires Valid() && order.terms.id !in orders
      modifies this`orders, this`values, this`submitted, this`books, this`bookOrder, this`brackets, order`status
      ensures View() == Admit(old(View()), old(order.View()))
      ensures orders == old(orders)[order.terms.id := order] && Valid()
    {
      hide Valid;
      Mark(order, Accepted);
      Store(order);
      Enrol(order.terms.id, order.terms.instrument);
      if order.terms.bracket.Some? {
        brackets := brackets[order.terms.id := order.terms.bracket.value];
      }
    }

    /** The checks and the effect of a submission, a caller's or the broker's own. */
    method Enter(order: Order) returns (error: Option<Error>)
      requires Valid()
      modifies this`orders, this`values, this`submitted, this`pending, this`books, this`bookOrder, this`brackets
      modifies order`status
      ensures Agrees(error, BrokerSpec.Submit(config, old(View()), old(order.View())))
      ensures error.Some? ==> View() == old(View()) && order.View() == old(order.View()) && orders == old(orders)
      ensures error.None? ==> order.terms.id !in old(orders) && orders == old(orders)[order.terms.id := order]
      ensures Valid()
    {
      if order.status != PendingNew {
        return Some(NotPendingNew);
      }
      if order.terms.id in orders {
        return Some(DuplicateOrderId);
      }
      var refusal := IntakeRefusal(config, order.View());
      hide IntakeRefusal, Refuse, Admit;
      if refusal.Some? {
        Reject(order, refusal.value);
      } else {
        Accept(order);
      }
      return None;
    }

    /** Close an open order, for a caller or on behalf of its pair. */
    method Withdraw(id: OrderId) returns (done: bool)
      requires Valid()
      modifies this`values, this`books, this`bookOrder, this`brackets, this`oco, orders.Values
      ensures View() == BrokerSpec.Cancel(old(View()), id) && done == Cancellable(old(View()), id)
      ensures Valid()
    {
      if id !in orders || !orders[id].IsOpen() {
        return false;
      }
      hide BrokerSpec.Close;
      Close(orders[id], Cancelled);
      return true;
    }

    /** The open orders of one instrument, or of all, in submission order. */
    method WorkingOrders(instrument: Option<InstrumentId>) returns (ids: seq<OrderId>)
      requires Valid()
      ensures ids == BrokerSpec.WorkingOrders(View(), instrument)
    {
      var all := if instrument.None? then submitted
                 else if instrument.value in books then books[instrument.value] else [];
      ids := [];
      for k := 0 to |all|
        invariant ids == Keep(all[..k], View().Open())
      {
        assert all[..k + 1] == all[..k] + [all[k]];
        KeepAppend(all[..k], all[k], View().Open());
        if all[k] in orders && orders[all[k]].IsOpen() {
          ids := ids + [all[k]];
        }
      }
      assert all[..|all|] == all;
    }

    method WithdrawAll(instrument: Option<InstrumentId>) returns (count: nat)
      requires Valid()
      modifies this`values, this`books, this`bookOrder, this`brackets, this`oco, orders.Values
      ensures Valid()
      ensures
        var targets := BrokerSpec.WorkingOrders(old(View()), instrument);
        View() == CancelEach(old(View()), targets) && count == CancelCount(old(View()), targets)
    {
      hide Valid, BrokerSpec.Cancel, BrokerSpec.WorkingOrders, Cancellable;
      var targets := WorkingOrders(instrument);
      count := 0;
      ghost var s := View();
      for k := 0 to |targets|
        invariant Valid()
        invariant CancelEach(s, targets) == CancelEach(View(), targets[k..])
        invariant CancelCount(s, targets) == count + CancelCount(View(), targets[k..])
      {
        var done := Withdraw(targets[k]);
        assert targets[k..][0] == targets[k] && targets[k..][1..] == targets[k + 1..];
        if done {
          count := count + 1;
        }
      }
    }

    // ---- brackets ----------------------------------------------------------------------------------------------

    method Resize(id: OrderId, quantity: real)
      requires Valid()
      modifies this`values, orders.Values
      ensures Valid() && View() == Resized(old(View()), id, quantity)
    {
      if id in orders && orders[id].IsOpen() && orders[id].filled == 0.0 {
        orders[id].quantity := quantity;
        values := values[id := orders[id].View()];
      }
    }

    /** Build and submit the listed legs. */
    method Spawn(legs: seq<OrderState>) returns (error: Option<Error>)
      requires Valid()
      requires forall k | 0 <= k < |legs| :: NewOrder(legs[k].terms, legs[k].quantity, legs[k].stop) == Ok(legs[k])
      modifies this`orders, this`values, this`submitted, this`pending, this`books, this`bookOrder, this`brackets
      ensures Valid() && Grown() && Agrees(error, SubmitLegs(config, old(View()), legs))
    {
      hide Valid, BrokerSpec.Submit;
      ghost var s := View();
      for k := 0 to |legs|
        invariant Valid() && Grown()
        invariant SubmitLegs(config, s, legs) == SubmitLegs(config, View(), legs[k..])
      {
        var leg := new Order(legs[k].terms, legs[k].quantity, legs[k].stop);
        assert legs[k..][0] == legs[k] && legs[k..][1..] == legs[k + 1..];
        var refusal := Enter(leg);
        if refusal.Some? {
          return refusal;
        }
      }
      return None;
    }

    /** Whether an id names a leg that is open and untouched. */
    method Works(id: OrderId) returns (works: bool)
      requires Valid()
      ensures works == Untouched(View(), id)
    {
      works := id in orders && orders[id].IsOpen() && orders[id].filled == 0.0;
    }

    lemma Holds(order: Order)
      requires Valid() && order.terms.id in orders && orders[order.terms.id] == order
      ensures order.terms.id in View().orders && View().orders[order.terms.id] == order.View()
    {
    }

    method ActivateBrackets(order: Order, fill: Fill, i: Instrument) returns (error: Option<Error>)
      requires Valid() && order.terms.id in orders && orders[order.terms.id] == order
      modifies this`orders, this`values, this`submitted, this`pending, this`books, this`bookOrder, this`brackets
      modifies this`oco
      modifies orders.Values
      ensures Valid() && Grown()
      ensures Agrees(error, BrokerSpec.ActivateBrackets(config, old(View()), order.terms.id, fill, i))
    {
      hide Valid, SubmitLegs, Legs, Resized, Untouched, StopId, TargetId;
      Holds(order);
      var id, quantity := order.terms.id, order.filled;
      if id !in brackets {
        return None;
      }
      var stopWorks := Works(StopId(id));
      var targetWorks := Works(TargetId(id));
      if stopWorks || targetWorks {
        Resize(StopId(id), quantity);
        Resize(TargetId(id), quantity);
        return None;
      }
      var legs := Legs(order.View(), brackets[id], fill, i);
      if legs.Raised? {
        return Some(legs.error);
      }
      LegsAreNew(order.View(), brackets[id], fill, i);
      error := Spawn(legs.value);
      if error.None? && |legs.value| == 2 {
        oco := oco[legs.value[0].terms.id := legs.value[1].terms.id][legs.value[1].terms.id := legs.value[0].terms.id];
      }
    }

    // ---- matching ----------------------------------------------------------------------------------------------

    method SettleOco(order: Order)
      requires Valid() && order.terms.id in orders && orders[order.terms.id] == order
      modifies this`values, this`books, this`bookOrder, this`brackets, this`oco, this`out, orders.Values
      ensures Valid() && View() == BrokerSpec.SettleOco(old(View()), order.terms.id)
    {
      hide Valid, BrokerSpec.Close;
      if order.terms.id in oco {
        var sibling := oco[order.terms.id];
        Unpair(order.terms.id);
        var done := Withdraw(sibling);
        if done {
          out := out.(cancellations := out.cancellations + [sibling]);
        }
      }
    }

    method CancelRemainder(order: Order)
      requires Valid() && order.terms.id in orders && orders[order.terms.id] == order
      modifies this`values, this`books, this`bookOrder, this`brackets, this`oco, this`out, order`status
      ensures Valid() && View() == BrokerSpec.CancelRemainder(old(View()), order.terms.id)
    {
      hide BrokerSpec.Close, Valid;
      Holds(order);
      if Max(order.quantity - order.filled, 0.0) > QUANTITY_TOLERANCE {
        Close(order, Cancelled);
        out := out.(cancellations := out.cancellations + [order.terms.id]);
      }
    }

    method SetStop(order: Order, stop: Option<real>)
      requires Valid() && order.terms.id in orders && orders[order.terms.id] == order
      modifies this`values, order`stop
      ensures Valid() && View() == Put(old(View()), order.terms.id, old(order.View()).(stop := stop))
    {
      order.stop := stop;
      values := values[order.terms.id := order.View()];
    }

    /** Move a trailing stop after the bar has been evaluated. */
    method Ratchet(order: Order, bar: Option<Bar>)
      requires Valid() && order.terms.id in orders && orders[order.terms.id] == order
      modifies this`values, order`stop
      ensures Valid() && View() == Put(old(View()), order.terms.id, Ratcheted(old(order.View()), bar))
    {
      hide Valid, Put;
      var stop := order.stop;
      if bar.Some? && order.IsOpen() && stop.Some? && order.terms.trailing.Some? {
        var pct := order.terms.trailing.value;
        RatchetedTo(order.View(), bar.value);
        hide Ratcheted, TrailedStop;
        if order.terms.side.Sell? {
          stop := Some(Max(stop.value, bar.value.high * (1.0 - pct)));
        } else {
          stop := Some(Min(stop.value, bar.value.low * (1.0 + pct)));
        }
      }
      assert order.View().(stop := stop) == Ratcheted(order.View(), bar);
      SetStop(order, stop);
    }

    /** Note the first bar an order could have traded on. */
    method Activate(order: Order, at: Time)
      requires Valid() && order.terms.id in orders && orders[order.terms.id] == order
      modifies this`values, order`activatedAt
      ensures Valid()
      ensures View() == Put(old(View()), order.terms.id, Activated(old(order.View()), at))
    {
      if order.activatedAt.None? {
        order.activatedAt := Some(at);
      }
      values := values[order.terms.id := order.View()];
    }

    /** Count a print in the running totals and the bar's result. */
    method Count(fill: Fill)
      modifies this`nextFill, this`period, this`periodVolume, this`out, this`log
      ensures View() == old(View()).(
          nextFill := old(nextFill) + 1, period := Some(config.month(fill.timestamp)),
          periodVolume := PeriodVolume(config, old(View()), fill.timestamp) + fill.quantity,
          out := old(out).(fills := old(out).fills + [fill]), log := old(log) + [fill])
    {
      var month := config.month(fill.timestamp);
      if period != Some(month) {
        period, periodVolume := Some(month), 0.0;
      }
      periodVolume := periodVolume + fill.quantity;
      nextFill := nextFill + 1;
      out := out.(fills := out.fills + [fill]);
      log := log + [fill];
    }

    method Apply(order: Order, fill: Fill) returns (refusal: Option<Error>)
      requires Valid() && order.terms.id in orders && orders[order.terms.id] == order
      modifies this`values, order`avgPrice, order`commissionPaid, order`filled, order`status
      ensures Valid() && refusal == old(order.View()).Refusal(fill)
      ensures refusal.None? ==> View() == Put(old(View()), order.terms.id, old(order.View()).Booked(fill))
    {
      hide OrderState.Refusal, OrderState.Booked;
      refusal := order.ApplyFill(fill);
      values := values[order.terms.id := order.View()];
    }

    /** Book a print on its order, in the bar's result and in the running totals. */
    method Book(order: Order, fill: Fill) returns (refusal: Option<Error>)
      requires Valid() && order.terms.id in orders && orders[order.terms.id] == order
      modifies this`values, this`nextFill, this`period, this`periodVolume, this`out, this`log
      modifies order`avgPrice, order`commissionPaid, order`filled, order`status
      ensures Valid()
      ensures refusal == old(order.View()).Refusal(fill)
      ensures refusal.None? ==>
          View() == Record(config, old(View()), order.terms.id, old(order.View()).Booked(fill), fill)
    {
      hide Valid, OrderState.Refusal, OrderState.Booked;
      refusal := Apply(order, fill);
      if refusal.None? {
        Count(fill);
      }
    }

    /** After a print: settle a pair, or drop what the policy does not carry. */
    method FinishPrint(order: Order)
      requires Valid() && order.terms.id in orders && orders[order.terms.id] == order
      modifies this`values, this`books, this`bookOrder, this`brackets, this`oco, this`out, orders.Values
      ensures Valid() && View() == BrokerSpec.FinishPrint(config, old(View()), order.terms.id)
    {
      hide Valid, BrokerSpec.SettleOco, BrokerSpec.CancelRemainder;
      Holds(order);
      if order.status.Filled? {
        SettleOco(order);
      } else if order.terms.tif.OneShot() || !config.carryRemainder {
        CancelRemainder(order);
      }
    }

    /** What a booked print sets off: its brackets, its pair or remainder, its trailing stop. */
    method Finish(order: Order, fill: Fill, i: Instrument, bar: Option<Bar>) returns (error: Option<Error>)
      requires Valid() && order.terms.id in orders && orders[order.terms.id] == order
      modifies this, orders.Values
      ensures Valid() && Grown()
      ensures Agrees(error, Aftermath(config, old(View()), order.terms.id, fill, i, bar))
    {
      hide Valid, Put, Ratcheted, BrokerSpec.ActivateBrackets, BrokerSpec.FinishPrint;
      error := ActivateBrackets(order, fill, i);
      if error.None? {
        FinishPrint(order);
        Holds(order);
        Ratchet(order, bar);
      }
    }

    /** A bar that printed nothing: the stop trails, and a one-shot order is done. */
    method Pass(order: Order, i: Instrument, bar: Option<Bar>)
      requires Valid() && order.terms.id in orders && orders[order.terms.id] == order
      modifies this`values, this`books, this`bookOrder, this`brackets, this`oco, this`out, order
      ensures Valid() && Enact(config, old(View()), order.terms.id, NoPrint(old(order.View())), i, bar) == Ok(View())
    {
      hide Valid, Ratcheted, BrokerSpec.Expire;
      Ratchet(order, bar);
      if order.terms.tif.OneShot() {
        Expire(order);
      }
    }

    /** Book what the models built and carry on from there, or raise. */
    method Print(order: Order, built: Outcome<Fill>, i: Instrument, bar: Option<Bar>) returns (error: Option<Error>)
      requires Valid() && order.terms.id in orders && orders[order.terms.id] == order
      modifies this, orders.Values
      ensures Valid() && Grown()
      ensures Agrees(error, Enact(config, old(View()), order.terms.id, Admitted(old(order.View()), built), i, bar))
    {
      hide Valid, OrderState.Refusal, OrderState.Booked, Record, Aftermath, Enact;
      Holds(order);
      ghost var s, a := View(), order.View();
      if built.Raised? {
        RefusedEnds(config, s, order.terms.id, built.error, i, bar);
        return Some(built.error);
      }
      error := Book(order, built.value);
      if error.Some? {
        RefusedEnds(config, s, order.terms.id, error.value, i, bar);
      } else {
        PrintIsAftermath(config, s, order.terms.id, a, built.value, i, bar);
        error := Finish(order, built.value, i, bar);
      }
    }

    /** Volume traded so far in the month of `at`. */
    method VolumeSoFar(at: Time) returns (volume: real)
      ensures volume == PeriodVolume(config, View(), at)
    {
      volume := if period == Some(config.month(at)) then periodVolume else 0.0;
    }

    /** Match an activated order against the bar, and book what it prints. */
    method Attempt(order: Order, i: Instrument, snap: Snapshot) returns (error: Option<Error>)
      requires Valid() && order.terms.id in orders && orders[order.terms.id] == order
      modifies this, orders.Values
      ensures Valid() && Grown()
      ensures Agrees(error, Enact(config, old(View()), order.terms.id,
                BrokerSpec.Attempt(config, old(order.View()), i, snap, old(nextFill) + 1,
                                   PeriodVolume(config, old(View()), snap.timestamp)),
                i, MarketBar(snap, order.terms.instrument, i)))
    {
      hide Valid, Enact, MarketBar, TryFill, Fillable, BuildFill, QuoteFor, Admitted, PeriodVolume;
      var now := order.View();
      var bar := MarketBar(snap, now.terms.instrument, i);
      var reference := TryFill(config.execution, now, bar, snap.sessionClose);
      NeedsBar(config.execution, now, bar, snap.sessionClose);
      var quantity := if reference.None? then 0.0 else Fillable(config, now, i, reference.value, bar.value);
      if quantity <= QUANTITY_TOLERANCE {
        Pass(order, i, bar);
        return None;
      }
      var volume := VolumeSoFar(snap.timestamp);
      var built := BuildFill(config, now, i, reference.value, quantity, bar.value,
                             QuoteFor(snap, now.terms.instrument, i), snap.timestamp, nextFill + 1, volume);
      error := Print(order, built, i, bar);
    }

    /** One look at the market for one order: it lapses, waits, or is matched against the bar. */
    method WorkOrder(order: Order, i: Instrument, snap: Snapshot) returns (error: Option<Error>)
      requires Valid() && order.terms.id in orders && orders[order.terms.id] == order
      modifies this, orders.Values
      ensures Valid() && Grown()
      ensures Agrees(error, BrokerSpec.WorkOrder(config, old(View()), order.terms.id, i, snap))
    {
      hide Valid, ShouldExpire, IsEligible, BrokerSpec.Attempt, Enact, Activated, PeriodVolume, MarketBar;
      Holds(order);
      ghost var s, o := View(), order.View();
      if ShouldExpire(order.View(), snap.timestamp) {
        LapseExpires(config, s, order.terms.id, i, MarketBar(snap, order.terms.instrument, i));
        Expire(order);
        return None;
      }
      if !IsEligible(config.execution, order.View(), snap.timestamp) {
        IneligibleWaits(config, s, order.terms.id, i, MarketBar(snap, order.terms.instrument, i));
        return None;
      }
      Activate(order, snap.timestamp);
      Holds(order);
      ActivationAside(config, s, order.terms.id, snap.timestamp, i, snap);
      error := Attempt(order, i, snap);
    }

    /** The open orders of a book, in matching order: a stable sort by priority. */
    method Sorted(book: seq<OrderId>) returns (ids: seq<OrderId>)
      requires Valid()
      ensures ids == MatchingOrder(View(), book)
    {
      var stops, rest := [], [];
      ghost var others := (set id | id in book) - View().Stops();
      for k := 0 to |book|
        invariant stops == Keep(book[..k], View().Stops()) && rest == Keep(book[..k], others)
      {
        assert book[..k + 1] == book[..k] + [book[k]];
        KeepAppend(book[..k], book[k], View().Stops());
        KeepAppend(book[..k], book[k], others);
        if book[k] in orders && orders[book[k]].terms.kind.NeedsStop() {
          stops := stops + [book[k]];
        } else {
          rest := rest + [book[k]];
        }
      }
      assert book[..|book|] == book;
      return stops + rest;
    }

    method IsWorking(id: OrderId) returns (working: bool)
      requires Valid()
      ensures working == Cancellable(View(), id)
    {
      working := id in orders && orders[id].IsOpen();
    }

    /** Work the listed orders, skipping those settled on the way. */
    method WorkAll(ids: seq<OrderId>, i: Instrument, snap: Snapshot) returns (error: Option<Error>)
      requires Valid()
      modifies this, orders.Values
      ensures Valid() && Grown()
      ensures Agrees(error, BrokerSpec.WorkAll(config, old(View()), ids, i, snap))
    {
      hide Valid, Cancellable, BrokerSpec.WorkOrder;
      ghost var s := View();
      for k := 0 to |ids|
        invariant Valid() && Grown()
        invariant BrokerSpec.WorkAll(config, s, ids, i, snap) == BrokerSpec.WorkAll(config, View(), ids[k..], i, snap)
      {
        assert ids[k..][0] == ids[k] && ids[k..][1..] == ids[k + 1..];
        var working := IsWorking(ids[k]);
        if working {
          WorkingIsHeld(ids[k]);
          error := WorkOrder(orders[ids[k]], i, snap);
          if error.Some? {
            return;
          }
        }
      }
      return None;
    }

    lemma WorkingIsHeld(id: OrderId)
      requires Valid() && Cancellable(View(), id)
      ensures id in orders && orders[id].terms.id == id
    {
    }

    /** Drop settled orders, and their brackets, from a worked book. */
    method Prune(i: InstrumentId)
      requires Valid()
      modifies this`books, this`bookOrder, this`brackets
      ensures View() == BrokerSpec.Prune(old(View()), i)
    {
      hide Without;
      if i in books {
        var book, kept := books[i], [];
        ghost var open := View().Open();
        for k := 0 to |book|
          invariant kept == Keep(book[..k], open) && brackets == old(brackets) - ((set id | id in book[..k]) - open)
          invariant books == old(books) && bookOrder == old(bookOrder)
        {
          assert book[..k + 1] == book[..k] + [book[k]];
          KeepAppend(book[..k], book[k], open);
          if book[k] in orders && orders[book[k]].IsOpen() {
            kept := kept + [book[k]];
          } else {
            brackets := brackets - {book[k]};
          }
        }
        assert book[..|book|] == book;
        if kept == [] {
          books, bookOrder := books - {i}, Without(bookOrder, i);
        } else {
          books := books[i := kept];
        }
      }
    }

    method WorkBook(i: InstrumentId, snap: Snapshot) returns (error: Option<Error>)
      requires Valid()
      modifies this, orders.Values
      ensures Valid() && Grown()
      ensures Agrees(error, BrokerSpec.WorkBook(config, old(View()), i, snap))
    {
      hide Valid, MatchingOrder, BrokerSpec.WorkAll, BrokerSpec.Prune;
      if i !in books {
        return None;
      }
      if i !in config.instruments {
        return Some(UnknownInstrument);
      }
      var queue := Sorted(books[i]);
      error := WorkAll(queue, config.instruments[i], snap);
      if error.None? {
        Prune(i);
      }
    }

    /** Work every book there is against one bar. */
    method Advance(snap: Snapshot) returns (error: Option<Error>, result: BrokerResult)
      requires Valid()
      modifies this, orders.Values
      ensures Valid() && Grown()
      ensures Agrees(error, BrokerSpec.ProcessBar(config, old(View()), snap))
      ensures error.None? ==> result == out
    {
      hide Valid, BrokerSpec.WorkBook;
      out, pending := NO_RESULT.(rejections := pending), [];
      result := out;
      var keys := bookOrder;
      ghost var s := View();
      for k := 0 to |keys|
        invariant Valid() && Grown()
        invariant WorkBooks(config, s, keys, snap) == WorkBooks(config, View(), keys[k..], snap)
      {
        assert keys[k..][0] == keys[k] && keys[k..][1..] == keys[k + 1..];
        error := WorkBook(keys[k], snap);
        if error.Some? {
          return;
        }
      }
      return None, out;
    }

    // ---- the calls ---------------------------------------------------------------------------------------------

    /** Take an order as its constructor built it, or one that has been through the book, which is refused. */
    method Submit(order: Order) returns (error: Option<Error>)
      requires Reached()
      requires (order.status.PendingNew? ==> NewOrder(order.terms, order.quantity, order.stop) == Ok(order.View()))
      modifies this`orders, this`values, this`submitted, this`pending, this`books, this`bookOrder, this`brackets
      modifies this`history
      modifies order`status
      ensures Reached()
      ensures Agrees(error, BrokerSpec.Submit(config, old(View()), old(order.View())))
      ensures error.Some? ==>
          View() == old(View()) && order.View() == old(order.View()) && orders == old(orders) && history == old(history)
      ensures error.None? ==> order.terms.id !in old(orders) && orders == old(orders)[order.terms.id := order]
      ensures error.None? ==> history == old(history) + [SubmitOrder(order.terms, old(order.quantity), old(order.stop))]
    {
      ghost var call := SubmitOrder(order.terms, order.quantity, order.stop);
      RunAppend(config, history, call);
      hide Run, Valid, NewOrder;
      error := Enter(order);
      if error.None? {
        history := history + [call];
      }
    }

    /** Cancel an open order; `false` when there is none. */
    method Cancel(id: OrderId) returns (done: bool)
      requires Reached()
      modifies this`values, this`books, this`bookOrder, this`brackets, this`oco, this`history, orders.Values
      ensures Reached() && history == old(history) + [CancelOrder(id)]
      ensures View() == BrokerSpec.Cancel(old(View()), id) && done == Cancellable(old(View()), id)
    {
      RunAppend(config, history, CancelOrder(id));
      hide Run, Valid, BrokerSpec.Cancel;
      done := Withdraw(id);
      history := history + [CancelOrder(id)];
    }

    /** Cancel everything that was working when it was called, and count it. */
    method CancelAll(instrument: Option<InstrumentId>) returns (count: nat)
      requires Reached()
      modifies this`values, this`books, this`bookOrder, this`brackets, this`oco, this`history, orders.Values
      ensures Reached() && history == old(history) + [Command.CancelAll(instrument)]
      ensures
        var targets := BrokerSpec.WorkingOrders(old(View()), instrument);
        View() == CancelEach(old(View()), targets) && count == |targets|
    {
      hide Run, Valid, CancelEach, BrokerSpec.WorkingOrders, CancelCount, Inv, Sound, Tidy;
      RunAppend(config, history, Command.CancelAll(instrument));
      Promises();
      WorkingAreCancelled(View(), instrument);
      count := WithdrawAll(instrument);
      history := history + [Command.CancelAll(instrument)];
    }

    /** Advance every working order against one bar. */
    method ProcessBar(snap: Snapshot) returns (error: Option<Error>, result: BrokerResult)
      requires Reached()
      modifies this, orders.Values
      ensures Agrees(error, BrokerSpec.ProcessBar(config, old(View()), snap))
      ensures error.None? ==> Reached() && Grown() && history == old(history) + [Command.Bar(snap)] && result == out
      ensures error.Some? ==> Run(config, old(history) + [Command.Bar(snap)]) == Raised(error.value)
    {
      ghost var after := history + [Command.Bar(snap)];
      RunAppend(config, history, Command.Bar(snap));
      hide Run, Valid, BrokerSpec.ProcessBar;
      error, result := Advance(snap);
      history := after;
    }
  }

  /** How many of the listed orders are there to cancel when their turn comes. */
  function CancelCount(s: State, ids: seq<OrderId>): nat
    decreases |ids|
  {
    if ids == [] then 0
    else (if Cancellable(s, ids[0]) then 1 else 0) + CancelCount(BrokerSpec.Cancel(s, ids[0]), ids[1..])
  }

  lemma AllAreCancelled(s: State, ids: seq<OrderId>)
    requires NoDups(ids) && forall id | id in ids :: Cancellable(s, id)
    ensures CancelCount(s, ids) == |ids|
    decreases |ids|
  {
    if ids == [] {
    } else {
      assert ids[0] in ids;
      CloseEffect(s, ids[0], OrderStatus.Cancelled);
      hide BrokerSpec.Close;
      forall id | id in ids[1..] ensures Cancellable(BrokerSpec.Cancel(s, ids[0]), id) {
        assert id in ids && id != ids[0];
      }
      AllAreCancelled(BrokerSpec.Cancel(s, ids[0]), ids[1..]);
    }
  }

  lemma WorkingAreDistinct(s: State, instrument: Option<InstrumentId>)
    requires Inv(s, {})
    ensures NoDups(BrokerSpec.WorkingOrders(s, instrument))
    ensures forall id | id in BrokerSpec.WorkingOrders(s, instrument) :: Cancellable(s, id)
  {
    assert Listed(s) && Indexed(s);
    match instrument
    case None =>
      KeepNoDups(s.submitted, s.Open());
      KeepMembers(s.submitted, s.Open());
    case Some(i) =>
      assert Keep(s.Book(i), s.Open()) == Keep(s.submitted, s.OpenIn(i));
      KeepNoDups(s.submitted, s.OpenIn(i));
      KeepMembers(s.submitted, s.OpenIn(i));
  }

  /** Cancelling one working order leaves the others to be cancelled. */
  lemma WorkingAreCancelled(s: State, instrument: Option<InstrumentId>)
    requires Inv(s, {})
    ensures
      var targets := BrokerSpec.WorkingOrders(s, instrument);
      CancelCount(s, targets) == |targets|
  {
    var targets := BrokerSpec.WorkingOrders(s, instrument);
    WorkingAreDistinct(s, instrument);
    hide Inv, BrokerSpec.WorkingOrders;
    AllAreCancelled(s, targets);
  }

  /** What the specification makes of a booked print. */
  function Aftermath(cfg: Config, s: State, id: OrderId, fill: Fill, i: Instrument, bar: Option<Bar>): Outcome<State>
    requires id in s.orders
  {
    var s2 :- BrokerSpec.ActivateBrackets(cfg, s, id, fill, i);
    var s3 := BrokerSpec.FinishPrint(cfg, s2, id);
    Ok(Put(s3, id, Ratcheted(s3.orders[id], bar)))
  }

  lemma RefusedEnds(cfg: Config, s: State, id: OrderId, error: Error, i: Instrument, bar: Option<Bar>)
    requires id in s.orders
    ensures Enact(cfg, s, id, Refused(error), i, bar) == Raised(error)
  {
  }

  lemma PrintIsAftermath(cfg: Config, s: State, id: OrderId, a: OrderState, fill: Fill, i: Instrument, bar: Option<Bar>)
    requires id in s.orders
    ensures Enact(cfg, s, id, Verdict.Print(a, fill), i, bar)
              == Aftermath(cfg, Record(cfg, s, id, a.Booked(fill), fill), id, fill, i, bar)
  {
    hide OrderState.Booked, BrokerSpec.ActivateBrackets, BrokerSpec.FinishPrint, Ratcheted;
  }

  lemma NeedsBar(model: ExecutionModel, o: OrderState, bar: Option<Bar>, sessionClose: bool)
    ensures TryFill(model, o, bar, sessionClose).Some? ==> bar.Some?
  {
  }

  lemma LapseExpires(cfg: Config, s: State, id: OrderId, i: Instrument, bar: Option<Bar>)
    requires id in s.orders
    ensures Enact(cfg, s, id, Lapsed, i, bar) == Ok(BrokerSpec.Expire(s, id))
  {
  }

  lemma IneligibleWaits(cfg: Config, s: State, id: OrderId, i: Instrument, bar: Option<Bar>)
    requires id in s.orders
    ensures Enact(cfg, s, id, Ineligible, i, bar) == Ok(s)
  {
  }

  /** Stamping the first eligible bar on the order before the look, or as part of the verdict, comes to the same. */
  lemma ActivationAside(cfg: Config, s: State, id: OrderId, at: Time, i: Instrument, snap: Snapshot)
    requires id in s.orders
    ensures
      var s1 := Put(s, id, Activated(s.orders[id], at));
      && PeriodVolume(cfg, s1, snap.timestamp) == PeriodVolume(cfg, s, snap.timestamp)
      && forall v: Verdict, bar: Option<Bar> | !v.Lapsed? && !v.Ineligible? ::
          Enact(cfg, s1, id, v, i, bar) == Enact(cfg, s, id, v, i, bar)
  {
    hide Activated, BrokerSpec.ActivateBrackets, BrokerSpec.FinishPrint, Ratcheted, OrderState.Booked,
         BrokerSpec.Expire;
    var a := Activated(s.orders[id], at);
    forall o: OrderState
      ensures Put(Put(s, id, a), id, o) == Put(s, id, o)
    {
      assert s.orders[id := a][id := o] == s.orders[id := o];
    }
  }

  lemma LegsAreNew(parent: OrderState, spec: BracketSpec, fill: Fill, i: Instrument)
    requires Legs(parent, spec, fill, i).Ok?
    ensures forall leg | leg in Legs(parent, spec, fill, i).value ::
        NewOrder(leg.terms, leg.quantity, leg.stop) == Ok(leg)
  {
  }
}
