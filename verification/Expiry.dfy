/** Option expiry, exercise and assignment: `sigmaloop/execution/expiry.py`. */
module Expiry {
  import opened Types

  const FLAT_TOLERANCE: real := 0.000000001

  datatype Right = Call | Put

  datatype RawContract = RawContract(
    id: InstrumentId, underlying: InstrumentId, right: Right, strike: real, multiplier: real,
    physical: bool, american: bool, expiry: int)
  {
    /** Per-unit gain of exercising at once, negative out of the money. */
    function Payoff(price: real): real {
      if right.Call? then price - strike else strike - price
    }

    function Intrinsic(price: real): real {
      Max(Payoff(price), 0.0)
    }
  }

  /** A contract as its constructor admits it, on something other than itself. */
  type Contract = c: RawContract | c.strike > 0.0 && c.multiplier > 0.0 && c.id != c.underlying
    witness RawContract("C", "U", Call, 1.0, 1.0, true, true, 0)

  datatype Policy = Policy(
    earlyProbability: real, expiryProbability: real, exerciseThreshold: real, allowPhysical: bool, feePerContract: real)

  datatype Reason = Worthless | Exercise | Assignment

  datatype SettlementFill = SettlementFill(
    seqNo: nat, instrument: InstrumentId, side: Side, quantity: real, price: real, fees: real)

  datatype Resolution = Resolution(
    quantity: real, reason: Reason, settlementPrice: real, underlyingPrice: real,
    cashImpact: real, delta: real, fees: real, fills: seq<SettlementFill>)

  // ---- resolution ----------------------------------------------------------------------------------------------

  /** A draw at a probability; `luck` is what the generator would say, and is not asked at 0 or 1. */
  predicate Drawn(probability: real, luck: bool) {
    probability >= 1.0 || (probability > 0.0 && luck)
  }

  predicate Exercised(policy: Policy, c: Contract, quantity: real, price: real) {
    quantity > 0.0 && c.Intrinsic(price) >= policy.exerciseThreshold
  }

  predicate Assigned(policy: Policy, c: Contract, quantity: real, price: real, force: bool, luck: bool) {
    force || (quantity <= 0.0 && c.Intrinsic(price) > 0.0 && Drawn(policy.expiryProbability, luck))
  }

  /** The shares physical delivery moves: a long call and a short put receive them. */
  function Delivered(c: Contract, quantity: real): real {
    var shares := Abs(quantity) * c.multiplier;
    if c.right.Call? == (quantity > 0.0) then shares else -shares
  }

  /** Cash from closing the contract itself at a price. */
  function ClosingCash(c: Contract, quantity: real, closeAt: real): real {
    (if quantity > 0.0 then 1.0 else -1.0) * closeAt * Abs(quantity) * c.multiplier
  }

  /** The synthetic fills and the net cash a resolution moves. */
  function Assemble(c: Contract, quantity: real, reason: Reason, settlement: real, price: real,
                    closeAt: real, delta: real, fees: real, seqNo: nat): (r: Resolution)
    ensures r.delta == delta && r.fees == fees && r.reason == reason && r.quantity == quantity
    ensures r.underlyingPrice == price
  {
    var long := quantity > 0.0;
    var close := SettlementFill(seqNo + 1, c.id, if long then Sell else Buy, Abs(quantity), closeAt,
                                if delta != 0.0 then 0.0 else fees);
    var cash := ClosingCash(c, quantity, closeAt);
    if delta == 0.0 then
      Resolution(quantity, reason, settlement, price, cash - fees, delta, fees, [close])
    else
      var delivery := SettlementFill(seqNo + 2, c.underlying, if delta > 0.0 then Buy else Sell, Abs(delta), c.strike,
                                     fees);
      Resolution(quantity, reason, settlement, price, cash - delta * c.strike - fees, delta, fees, [close, delivery])
  }

  function FeesFor(policy: Policy, quantity: real): real {
    policy.feePerContract * Abs(quantity)
  }

  function ResolveAt(policy: Policy, c: Contract, quantity: real, price: real, force: bool, luck: bool,
                     seqNo: nat): Outcome<Resolution> {
    if Abs(quantity) <= FLAT_TOLERANCE then Raised(FlatPosition)
    else if !Exercised(policy, c, quantity, price) && !Assigned(policy, c, quantity, price, force, luck) then
      Ok(Assemble(c, quantity, Worthless, 0.0, price, 0.0, 0.0, 0.0, seqNo))
    else
      var reason := if quantity > 0.0 then Exercise else Assignment;
      var fees := FeesFor(policy, quantity);
      var intrinsic := c.Intrinsic(price);
      if c.physical && policy.allowPhysical then
        Ok(Assemble(c, quantity, reason, intrinsic, price, 0.0, Delivered(c, quantity), fees, seqNo))
      else
        Ok(Assemble(c, quantity, reason, intrinsic, price, intrinsic, 0.0, fees, seqNo))
  }

  // ---- what the fills do to the ledger -------------------------------------------------------------------------

  /** What the fills add to the holding of an instrument. */
  function Net(fills: seq<SettlementFill>, id: InstrumentId): real {
    if fills == [] then 0.0
    else
      var f := fills[|fills| - 1];
      Net(fills[..|fills| - 1], id) + if f.instrument == id then f.side.Sign() * f.quantity else 0.0
  }

  function Spent(f: SettlementFill, multiplier: real): real {
    f.side.Sign() * f.price * f.quantity * multiplier
  }

  /** The cash the fills move before fees; a share's multiplier is one. */
  function CashOf(fills: seq<SettlementFill>, c: Contract): real {
    if fills == [] then 0.0
    else
      var f := fills[|fills| - 1];
      CashOf(fills[..|fills| - 1], c) - Spent(f, if f.instrument == c.id then c.multiplier else 1.0)
  }

  function FeesOf(fills: seq<SettlementFill>): real {
    if fills == [] then 0.0 else FeesOf(fills[..|fills| - 1]) + fills[|fills| - 1].fees
  }

  /** What a resolution is worth with the shares it moved valued at the underlying's price. */
  function Worth(r: Resolution): real {
    r.cashImpact + r.fees + r.delta * r.underlyingPrice
  }

  lemma OneFill(a: SettlementFill, c: Contract)
    ensures forall id :: Net([a], id) == if a.instrument == id then a.side.Sign() * a.quantity else 0.0
    ensures CashOf([a], c) == -Spent(a, if a.instrument == c.id then c.multiplier else 1.0)
    ensures FeesOf([a]) == a.fees
  {
    hide Spent;
    assert [a][..0] == [];
  }

  lemma TwoFills(a: SettlementFill, b: SettlementFill, c: Contract)
    ensures forall id ::
        Net([a, b], id) == Net([a], id) + if b.instrument == id then b.side.Sign() * b.quantity else 0.0
    ensures CashOf([a, b], c) == CashOf([a], c) - Spent(b, if b.instrument == c.id then c.multiplier else 1.0)
    ensures FeesOf([a, b]) == a.fees + b.fees
  {
    hide Spent;
    OneFill(a, c);
    assert [a, b][..1] == [a];
  }

  lemma Closing(c: Contract, quantity: real, closeAt: real, fees: real, seqNo: nat)
    ensures var close := SettlementFill(seqNo, c.id, if quantity > 0.0 then Sell else Buy, Abs(quantity), closeAt,
                                        fees);
            && Spent(close, c.multiplier) == -ClosingCash(c, quantity, closeAt)
            && close.side.Sign() * close.quantity == -quantity
  {
  }

  lemma Delivery(c: Contract, delta: real, fees: real, seqNo: nat)
    ensures var delivery := SettlementFill(seqNo, c.underlying, if delta > 0.0 then Buy else Sell, Abs(delta), c.strike,
                                           fees);
            && Spent(delivery, 1.0) == delta * c.strike
            && delivery.side.Sign() * delivery.quantity == delta
  {
  }

  /** The fills say what the summary says: they flatten the contract, deliver the shares, and move the cash. */
  lemma AssembledBooks(c: Contract, quantity: real, reason: Reason, settlement: real, price: real,
                       closeAt: real, delta: real, fees: real, seqNo: nat)
    ensures var r := Assemble(c, quantity, reason, settlement, price, closeAt, delta, fees, seqNo);
            && Net(r.fills, c.id) == -quantity
            && Net(r.fills, c.underlying) == delta
            && FeesOf(r.fills) == fees
            && r.cashImpact == CashOf(r.fills, c) - FeesOf(r.fills)
            && Worth(r) == ClosingCash(c, quantity, closeAt) + delta * (price - c.strike)
  {
    hide Spent, ClosingCash;
    var r := Assemble(c, quantity, reason, settlement, price, closeAt, delta, fees, seqNo);
    OneFill(r.fills[0], c);
    Closing(c, quantity, closeAt, r.fills[0].fees, seqNo + 1);
    if delta != 0.0 {
      TwoFills(r.fills[0], r.fills[1], c);
      Delivery(c, delta, fees, seqNo + 2);
      Difference(delta, price, c.strike);
    }
  }

  lemma Difference(k: real, a: real, b: real)
    ensures k * a - k * b == k * (a - b)
  {
  }

  // ---- settlement neutrality -----------------------------------------------------------------------------------

  /** What the holder is owed: signed size times intrinsic value. */
  function Owed(c: Contract, quantity: real, price: real): real {
    quantity * c.multiplier * c.Intrinsic(price)
  }

  predicate Settles(policy: Policy, c: Contract, quantity: real, price: real, force: bool, luck: bool) {
    Exercised(policy, c, quantity, price) || Assigned(policy, c, quantity, price, force, luck)
  }

  /** The policy settles the position: a long one that pays at least the threshold, a short one in the money that is
      drawn, which at probability one it always is and at none never, and one whose assignment is forced. */
  predicate PolicySettles(policy: Policy, payoff: real, long: bool, force: bool, luck: bool) {
    if force then true
    else if long then payoff >= policy.exerciseThreshold || policy.exerciseThreshold <= 0.0
    else payoff > 0.0 && policy.expiryProbability > 0.0 && (policy.expiryProbability >= 1.0 || luck)
  }

  lemma SettlesIff(policy: Policy, c: Contract, quantity: real, price: real, force: bool, luck: bool)
    requires quantity != 0.0
    ensures Settles(policy, c, quantity, price, force, luck)
              == PolicySettles(policy, c.Payoff(price), quantity > 0.0, force, luck)
  {
  }

  predicate Delivers(policy: Policy, c: Contract) {
    c.physical && policy.allowPhysical
  }

  lemma ClosingIsOwed(c: Contract, quantity: real, price: real)
    ensures ClosingCash(c, quantity, c.Intrinsic(price)) == Owed(c, quantity, price)
    ensures ClosingCash(c, quantity, 0.0) == 0.0
  {
    SignedSize(quantity, c.Intrinsic(price), c.multiplier);
    SignedSize(quantity, 0.0, c.multiplier);
  }

  lemma SignedSize(quantity: real, x: real, m: real)
    ensures (if quantity > 0.0 then 1.0 else -1.0) * x * Abs(quantity) * m == quantity * m * x
  {
    if quantity > 0.0 {
      assert 1.0 * x * quantity * m == quantity * m * x;
    } else {
      assert -1.0 * x * -quantity * m == quantity * m * x;
    }
  }

  /** Delivered shares, revalued from the strike to the market, are worth the signed payoff. */
  lemma DeliveryIsPayoff(c: Contract, quantity: real, price: real)
    ensures Delivered(c, quantity) * (price - c.strike) == quantity * c.multiplier * c.Payoff(price)
  {
    var n := quantity * c.multiplier;
    var shares := Abs(quantity) * c.multiplier;
    assert shares == if quantity > 0.0 then n else -n;
    if c.right.Call? {
      assert Delivered(c, quantity) == n;
    } else {
      assert Delivered(c, quantity) == -n;
      assert -n * (price - c.strike) == n * (c.strike - price);
    }
  }

  lemma PayoffIsIntrinsic(c: Contract, quantity: real, price: real)
    requires quantity != 0.0
    ensures quantity * c.multiplier * c.Payoff(price) == Owed(c, quantity, price) <==> c.Payoff(price) >= 0.0
  {
    var n, x := quantity * c.multiplier, c.Payoff(price);
    assert n != 0.0;
    if x < 0.0 {
      assert n * c.Intrinsic(price) == 0.0;
      assert n * x != 0.0;
    }
  }

  lemma NonzeroDelivery(c: Contract, quantity: real)
    requires quantity != 0.0
    ensures Delivered(c, quantity) != 0.0
  {
    assert Abs(quantity) * c.multiplier > 0.0;
  }

  /** Every resolution flattens the contract, delivers what it says, and moves the cash it reports. It is worth
      nothing when nothing settles; when something does, it is worth what is owed, by cash or by shares, unless shares
      are delivered on a contract that is out of the money. */
  lemma SettlementNeutrality(policy: Policy, c: Contract, quantity: real, price: real, force: bool, luck: bool,
                             seqNo: nat)
    requires Abs(quantity) > FLAT_TOLERANCE
    ensures ResolveAt(policy, c, quantity, price, force, luck, seqNo).Ok?
    ensures var r := ResolveAt(policy, c, quantity, price, force, luck, seqNo).value;
            && Net(r.fills, c.id) == -quantity
            && Net(r.fills, c.underlying) == r.delta
            && r.cashImpact == CashOf(r.fills, c) - FeesOf(r.fills)
            && FeesOf(r.fills) == r.fees
            && (r.reason.Worthless? <==>
                  !PolicySettles(policy, c.Payoff(price), quantity > 0.0, force, luck))
            && (r.delta != 0.0 <==>
                  PolicySettles(policy, c.Payoff(price), quantity > 0.0, force, luck) && Delivers(policy, c))
            && (r.reason.Worthless? ==> Worth(r) == 0.0 && r.fees == 0.0)
            && (!r.reason.Worthless? ==>
                  (Worth(r) == Owed(c, quantity, price) <==> !(Delivers(policy, c) && c.Payoff(price) < 0.0)))
  {
    SettlesIff(policy, c, quantity, price, force, luck);
    hide Assemble, ClosingCash, Delivered, Owed, Worth, Net, CashOf, FeesOf, Exercised, Assigned, FeesFor,
         PolicySettles;
    var fees, intrinsic, shares := FeesFor(policy, quantity), c.Intrinsic(price), Delivered(c, quantity);
    var reason := if quantity > 0.0 then Exercise else Assignment;
    ClosingIsOwed(c, quantity, price);
    if !Settles(policy, c, quantity, price, force, luck) {
      AssembledBooks(c, quantity, Worthless, 0.0, price, 0.0, 0.0, 0.0, seqNo);
      ZeroTimes(price - c.strike);
    } else if Delivers(policy, c) {
      AssembledBooks(c, quantity, reason, intrinsic, price, 0.0, shares, fees, seqNo);
      DeliveryIsPayoff(c, quantity, price);
      PayoffIsIntrinsic(c, quantity, price);
      NonzeroDelivery(c, quantity);
    } else {
      AssembledBooks(c, quantity, reason, intrinsic, price, intrinsic, 0.0, fees, seqNo);
      ZeroTimes(price - c.strike);
    }
  }

  lemma ZeroTimes(x: real)
    ensures 0.0 * x == 0.0
  {
  }

  /** With a positive exercise threshold nothing out of the money settles by itself, so every settlement pays what is
      owed, physically or in cash. */
  lemma PositiveThresholdIsNeutral(policy: Policy, c: Contract, quantity: real, price: real, force: bool, luck: bool,
                                   seqNo: nat)
    requires Abs(quantity) > FLAT_TOLERANCE
    requires policy.exerciseThreshold > 0.0 && (force ==> c.Intrinsic(price) > 0.0)
    ensures var r := ResolveAt(policy, c, quantity, price, force, luck, seqNo).value;
            var cash := ResolveAt(policy.(allowPhysical := false), c, quantity, price, force, luck, seqNo).value;
            && Worth(r) == (if PolicySettles(policy, c.Payoff(price), quantity > 0.0, force, luck)
                           then Owed(c, quantity, price) else 0.0)
            && Worth(cash) == Worth(r) && cash.reason == r.reason && cash.fees == r.fees && cash.delta == 0.0
  {
    hide ResolveAt, Worth, Owed;
    SettlementNeutrality(policy, c, quantity, price, force, luck, seqNo);
    SettlementNeutrality(policy.(allowPhysical := false), c, quantity, price, force, luck, seqNo);
    SameReason(policy, c, quantity, price, force, luck, seqNo);
  }

  lemma SameReason(policy: Policy, c: Contract, quantity: real, price: real, force: bool, luck: bool, seqNo: nat)
    requires Abs(quantity) > FLAT_TOLERANCE
    ensures var r := ResolveAt(policy, c, quantity, price, force, luck, seqNo).value;
            var cash := ResolveAt(policy.(allowPhysical := false), c, quantity, price, force, luck, seqNo).value;
            cash.reason == r.reason && cash.fees == r.fees
  {
  }

  /** Left to itself, a settlement misses what is owed exactly when a long contract out of the money is exercised
      into shares, which only a threshold at or below zero allows. */
  lemma NeutralUnlessThresholdDropped(policy: Policy, c: Contract, quantity: real, price: real, luck: bool, seqNo: nat)
    requires Abs(quantity) > FLAT_TOLERANCE && PolicySettles(policy, c.Payoff(price), quantity > 0.0, false, luck)
    ensures Worth(ResolveAt(policy, c, quantity, price, false, luck, seqNo).value) == Owed(c, quantity, price) <==>
            !(quantity > 0.0 && policy.exerciseThreshold <= 0.0 && Delivers(policy, c) && c.Payoff(price) < 0.0)
  {
    SettlementNeutrality(policy, c, quantity, price, false, luck, seqNo);
    hide ResolveAt, Worth, Owed;
  }

  // ---- which contracts settle ------------------------------------------------------------------------------------

  /** The number of contracts, whichever side they are held on. */
  function Contracts(quantity: real): real {
    if quantity > 0.0 then quantity else -quantity
  }

  /** A resolution settles exactly what the policy says, for either right and either side: it is then an exercise or an
      assignment, pays the policy's fee for each contract, and with a payoff not below zero is worth the signed size
      times that; otherwise it is worthless and free. */
  lemma ResolutionFollowsPolicy(policy: Policy, c: Contract, quantity: real, price: real, force: bool, luck: bool,
                                seqNo: nat)
    requires Abs(quantity) > FLAT_TOLERANCE
    ensures ResolveAt(policy, c, quantity, price, force, luck, seqNo).Ok?
    ensures
      var r := ResolveAt(policy, c, quantity, price, force, luck, seqNo).value;
      var payoff := if c.right.Call? then price - c.strike else c.strike - price;
      if PolicySettles(policy, payoff, quantity > 0.0, force, luck) then
        && r.reason == (if quantity > 0.0 then Exercise else Assignment)
        && r.settlementPrice == (if payoff > 0.0 then payoff else 0.0)
        && FeesOf(r.fills) == r.fees == policy.feePerContract * Contracts(quantity)
        && (payoff >= 0.0 ==> Worth(r) == quantity * c.multiplier * payoff)
      else
        r.reason == Worthless && r.settlementPrice == FeesOf(r.fills) == r.fees == 0.0 && Worth(r) == 0.0
  {
    SettlementNeutrality(policy, c, quantity, price, force, luck, seqNo);
    SettlesIff(policy, c, quantity, price, force, luck);
    PayoffIsIntrinsic(c, quantity, price);
    StruckAt(policy, c, quantity, price, force, luck, seqNo);
    if Settles(policy, c, quantity, price, force, luck) {
      FeeForEach(policy, c, quantity, price, force, luck, seqNo);
    }
    hide ResolveAt, Worth, FeesOf, Settles, PolicySettles;
  }

  lemma FeeForEach(policy: Policy, c: Contract, quantity: real, price: real, force: bool, luck: bool, seqNo: nat)
    requires Abs(quantity) > FLAT_TOLERANCE && Settles(policy, c, quantity, price, force, luck)
    ensures
      var r := ResolveAt(policy, c, quantity, price, force, luck, seqNo).value;
      && r.fees == policy.feePerContract * Contracts(quantity)
      && r.reason == (if quantity > 0.0 then Exercise else Assignment)
  {
    hide Assemble;
  }

  lemma StruckAt(policy: Policy, c: Contract, quantity: real, price: real, force: bool, luck: bool, seqNo: nat)
    requires Abs(quantity) > FLAT_TOLERANCE
    ensures
      var r := ResolveAt(policy, c, quantity, price, force, luck, seqNo).value;
      r.underlyingPrice == price
      && r.settlementPrice
           == if Settles(policy, c, quantity, price, force, luck) then Max(c.Payoff(price), 0.0) else 0.0
  {
    hide Exercised, Assigned, Delivered, FeesFor, ClosingCash;
  }

  // ---- the engine ----------------------------------------------------------------------------------------------

  datatype Holding = Holding(contract: Option<Contract>, quantity: real) {
    predicate IsOpen() {
      Abs(quantity) > FLAT_TOLERANCE
    }
  }

  datatype Market = Market(timestamp: Time, sessionClose: bool, prices: map<InstrumentId, real>)

  /** Expiring now: an open contract at or past its date, at a session close. */
  predicate IsDue(h: Holding, market: Market) {
    h.contract.Some? && h.IsOpen() && market.sessionClose && Day(market.timestamp) >= h.contract.value.expiry
  }

  function Due(holdings: seq<Holding>, market: Market): seq<Holding> {
    if holdings == [] then []
    else
      var last := holdings[|holdings| - 1];
      Due(holdings[..|holdings| - 1], market) + if IsDue(last, market) then [last] else []
  }

  /** An open contract on `underlying` is listed and the market prices it. */
  predicate Observed(holdings: seq<Holding>, market: Market, underlying: InstrumentId) {
    && underlying in market.prices
    && exists k :: 0 <= k < |holdings| && holdings[k].IsOpen() && holdings[k].contract.Some?
                   && holdings[k].contract.value.underlying == underlying
  }

  /** `after` is `before` with the observed underlyings repriced. */
  ghost predicate Refreshed(before: map<InstrumentId, real>, after: map<InstrumentId, real>, holdings: seq<Holding>,
                            market: Market) {
    && (forall u :: u in after <==> u in before || Observed(holdings, market, u))
    && (forall u | u in after :: after[u] == if Observed(holdings, market, u) then market.prices[u] else before[u])
  }

  /** The price a resolution is struck at: the market's, or the last one seen. */
  function StrikePrice(source: map<InstrumentId, real>, market: Market, underlying: InstrumentId): Option<real> {
    if underlying in market.prices then Some(market.prices[underlying])
    else if underlying in source then Some(source[underlying])
    else None
  }

  predicate AssignedEarly(policy: Policy, h: Holding, market: Market, luck: bool) {
    && h.contract.Some? && h.quantity < -FLAT_TOLERANCE && h.contract.value.american
    && h.contract.value.underlying in market.prices
    && h.contract.value.Intrinsic(market.prices[h.contract.value.underlying]) > 0.0
    && Drawn(policy.earlyProbability, luck)
  }

  /** A short American contract that might be assigned today and whose underlying is priced. */
  predicate ConsidersEarly(policy: Policy, h: Holding, market: Market) {
    && h.contract.Some? && h.quantity < -FLAT_TOLERANCE && h.contract.value.american && policy.earlyProbability > 0.0
    && h.contract.value.underlying in market.prices
  }

  class StandardExpiryEngine {
    const policy: Policy
    var source: map<InstrumentId, real>
    var nextFill: nat

    constructor (policy: Policy)
      ensures source == map[] && nextFill == 0 && this.policy == policy
    {
      this.policy, source, nextFill := policy, map[], 0;
    }

    /** The holdings that expire at this close; every priced underlying is remembered on the way. */
    method ExpiringPositions(holdings: seq<Holding>, market: Market) returns (due: seq<Holding>)
      modifies this`source
      ensures due == Due(holdings, market) && Refreshed(old(source), source, holdings, market)
    {
      due := [];
      for k := 0 to |holdings|
        invariant due == Due(holdings[..k], market) && Refreshed(old(source), source, holdings[..k], market)
      {
        var h := holdings[k];
        assert holdings[..k + 1] == holdings[..k] + [h];
        ObservedNext(holdings[..k], h, market);
        if h.contract.None? || !h.IsOpen() {
          continue;
        }
        var underlying := h.contract.value.underlying;
        if underlying in market.prices {
          source := source[underlying := market.prices[underlying]];
        }
        if market.sessionClose && Day(market.timestamp) >= h.contract.value.expiry {
          due := due + [h];
        }
      }
      assert holdings[..|holdings|] == holdings;
    }

    /** Resolve an expiring holding at the close, or at the last price seen when the close has none. */
    method Resolve(h: Holding, market: Market, luck: bool) returns (r: Outcome<Resolution>)
      modifies this`source, this`nextFill
      ensures h.contract.None? ==> r == Raised(NotAnOption) && source == old(source)
      ensures h.contract.Some? ==>
                match StrikePrice(old(source), market, h.contract.value.underlying)
                case None => r == Raised(NeverPriced) && source == old(source)
                case Some(price) =>
                  && r == ResolveAt(policy, h.contract.value, h.quantity, price, false, luck, old(nextFill))
                  && source == old(source)[h.contract.value.underlying := price]
      ensures nextFill == old(nextFill) + (if r.Ok? then |r.value.fills| else 0)
      ensures r.Ok? && policy.exerciseThreshold > 0.0 && !r.value.reason.Worthless? ==>
                Worth(r.value) == Owed(h.contract.value, h.quantity, r.value.underlyingPrice)
      ensures r.Ok? ==>
                var c := h.contract.value;
                var payoff := if c.right.Call? then r.value.underlyingPrice - c.strike
                              else c.strike - r.value.underlyingPrice;
                && (r.value.reason.Worthless? <==> !PolicySettles(policy, payoff, h.quantity > 0.0, false, luck))
                && r.value.underlyingPrice
                     == (if c.underlying in market.prices then market.prices[c.underlying]
                         else old(source)[c.underlying])
                && (r.value.reason.Worthless? ==> Worth(r.value) == 0.0)
                && r.value.fees
                     == if r.value.reason.Worthless? then 0.0 else policy.feePerContract * Contracts(h.quantity)
    {
      hide Assemble, Worth, Owed, Net, CashOf, FeesOf, Settles, PolicySettles, Exercised, Assigned, Delivered,
           Contracts;
      if h.contract.None? {
        return Raised(NotAnOption);
      }
      var c := h.contract.value;
      var price := StrikePrice(source, market, c.underlying);
      if price.None? {
        return Raised(NeverPriced);
      }
      if c.underlying in market.prices {
        source := source[c.underlying := price.value];
      }
      assert source == old(source)[c.underlying := price.value];
      r := ResolveAt(policy, c, h.quantity, price.value, false, luck, nextFill);
      if r.Ok? {
        SettlementNeutrality(policy, c, h.quantity, price.value, false, luck, nextFill);
        ResolutionFollowsPolicy(policy, c, h.quantity, price.value, false, luck, nextFill);
        StruckAt(policy, c, h.quantity, price.value, false, luck, nextFill);
        if policy.exerciseThreshold > 0.0 {
          PositiveThresholdIsNeutral(policy, c, h.quantity, price.value, false, luck, nextFill);
        }
        nextFill := nextFill + |r.value.fills|;
      }
    }

    /** Draw for the early assignment of a short American contract in the money; always worth what is owed. */
    method CheckEarlyAssignment(h: Holding, market: Market, luck: bool) returns (r: Option<Resolution>)
      modifies this`source, this`nextFill
      ensures r.Some? <==> AssignedEarly(policy, h, market, luck)
      ensures r.Some? ==>
                && r.value.reason == Assignment && r.value.quantity == h.quantity
                && Worth(r.value) == Owed(h.contract.value, h.quantity, market.prices[h.contract.value.underlying])
                && Net(r.value.fills, h.contract.value.id) == -h.quantity
      ensures source == if ConsidersEarly(policy, h, market)
                        then old(source)[h.contract.value.underlying := market.prices[h.contract.value.underlying]]
                        else old(source)
      ensures nextFill == old(nextFill) + (if r.Some? then |r.value.fills| else 0)
    {
      if h.contract.None? || !h.IsOpen() || h.quantity >= -FLAT_TOLERANCE {
        return None;
      }
      if !h.contract.value.american || policy.earlyProbability <= 0.0 {
        return None;
      }
      var c := h.contract.value;
      if c.underlying !in market.prices {
        return None;
      }
      var price := market.prices[c.underlying];
      source := source[c.underlying := price];
      if c.Intrinsic(price) <= 0.0 || (policy.earlyProbability < 1.0 && !luck) {
        return None;
      }
      hide Worth, Owed, Net, Assemble;
      SettlementNeutrality(policy, c, h.quantity, price, true, luck, nextFill);
      var resolution := ResolveAt(policy, c, h.quantity, price, true, luck, nextFill);
      nextFill := nextFill + |resolution.value.fills|;
      return Some(resolution.value);
    }
  }

  /** The market prices the underlying of an open contract. */
  predicate Prices(market: Market, h: Holding, u: InstrumentId) {
    u in market.prices && h.IsOpen() && h.contract.Some? && h.contract.value.underlying == u
  }

  lemma ObservedNext(before: seq<Holding>, h: Holding, market: Market)
    ensures forall u :: Observed(before + [h], market, u) <==>
                          Observed(before, market, u) || Prices(market, h, u)
  {
    forall u
      ensures Observed(before + [h], market, u) <==>
              Observed(before, market, u) || Prices(market, h, u)
    {
      assert (before + [h])[|before|] == h;
      assert forall k | 0 <= k < |before| :: (before + [h])[k] == before[k];
    }
  }
}
