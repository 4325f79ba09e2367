/** Commission and fee schedules, and why splitting an order never changes its cost:
    `sigmaloop/execution/commission.py`. */
module Commission {
  import opened Types

  /** What one print's cost depends on besides its size and what printed before it. */
  datatype Terms = Terms(side: Side, price: real, multiplier: real, isOption: bool, periodVolume: real, isClosing: bool)

  datatype Tier = Tier(threshold: real, rate: real)

  datatype Model =
    | Zero
    | PerShare(rate: real, minimum: real, maximumPct: Option<real>)
    | PerTrade(fee: real)
    | PercentValue(rate: real, minimum: real)
    | PerContract(perContract: real, perOrder: real, waiveCloseBelow: Option<real>)
    | Regulatory(secRate: real, tafPerShare: real, tafCap: real, orfPerContract: real)
    | Tiered(tiers: seq<Tier>, minimum: real)
    | Composite(models: seq<Model>)

  /** What the constructors admit. */
  predicate Valid(m: Model)
    decreases m
  {
    match m
    case Zero => true
    case PerShare(rate, minimum, pct) => rate >= 0.0 && minimum >= 0.0 && (pct.Some? ==> pct.value >= 0.0)
    case PerTrade(fee) => fee >= 0.0
    case PercentValue(rate, minimum) => rate >= 0.0 && minimum >= 0.0
    case PerContract(each, order, waive) => each >= 0.0 && order >= 0.0 && (waive.Some? ==> waive.value >= 0.0)
    case Regulatory(sec, taf, cap, orf) => sec >= 0.0 && taf >= 0.0 && cap >= 0.0 && orf >= 0.0
    case Tiered(tiers, minimum) =>
      && tiers != [] && minimum >= 0.0
      && (forall i | 0 <= i < |tiers| :: tiers[i].threshold >= 0.0 && tiers[i].rate >= 0.0)
      && (forall i, j | 0 <= i < j < |tiers| :: tiers[i].threshold <= tiers[j].threshold)
    case Composite(models) => models != [] && forall i | 0 <= i < |models| :: Valid(models[i])
  }

  // ---- the schedules ---------------------------------------------------------------------------------------------

  /** The share of a cumulative schedule owed by a print that moves the total from `before` to `after`. */
  function Incremental(before: real, after: real): real {
    Max(after - before, 0.0)
  }

  /** A charge of so much a unit. */
  function Times(rate: real, units: real): real {
    rate * units
  }

  function UnitNotional(t: Terms): real {
    Times(t.price, t.multiplier)
  }

  /** The most a share may cost: a fraction of its value. */
  function PerShareCap(pct: Option<real>, t: Terms): Option<real> {
    if pct.Some? then Some(Times(pct.value, UnitNotional(t))) else None
  }

  /** Per share, floored, then capped. */
  function PerShareOwed(rate: real, minimum: real, cap: Option<real>, filled: real): real {
    if filled <= QUANTITY_TOLERANCE then 0.0
    else
      var charge := Max(Times(rate, filled), minimum);
      if cap.Some? then Min(charge, Times(cap.value, filled)) else charge
  }

  function FlooredOwed(rate: real, minimum: real, filled: real): real {
    if filled > QUANTITY_TOLERANCE then Max(Times(rate, filled), minimum) else 0.0
  }

  function CappedOwed(rate: real, cap: real, filled: real): real {
    Min(Times(rate, filled), cap)
  }

  predicate FirstFill(before: real) {
    before <= QUANTITY_TOLERANCE
  }

  predicate Waived(waiveCloseBelow: Option<real>, t: Terms) {
    waiveCloseBelow.Some? && t.isClosing && t.price < waiveCloseBelow.value
  }

  /** The rate of the last band the month's volume has reached, scanning up from band `k`. */
  function RateFrom(tiers: seq<Tier>, volume: real, k: nat, rate: real): real
    requires k <= |tiers|
    decreases |tiers| - k
  {
    if k == |tiers| || volume < tiers[k].threshold then rate else RateFrom(tiers, volume, k + 1, tiers[k].rate)
  }

  function TierRate(tiers: seq<Tier>, volume: real): real {
    if tiers == [] then 0.0 else RateFrom(tiers, volume, 0, tiers[0].rate)
  }

  /** Broker commission for a print of `quantity` when `before` of the order had printed. */
  function CommissionOf(m: Model, t: Terms, before: real, quantity: real): real
    decreases m
  {
    var after := before + quantity;
    match m
    case Zero => 0.0
    case PerShare(rate, minimum, pct) =>
      Incremental(PerShareOwed(rate, minimum, PerShareCap(pct, t), before),
                  PerShareOwed(rate, minimum, PerShareCap(pct, t), after))
    case PerTrade(fee) => if FirstFill(before) then fee else 0.0
    case PercentValue(rate, minimum) =>
      Incremental(FlooredOwed(Times(rate, UnitNotional(t)), minimum, before),
                  FlooredOwed(Times(rate, UnitNotional(t)), minimum, after))
    case PerContract(each, order, waive) =>
      if Waived(waive, t) then 0.0 else Times(each, quantity) + if FirstFill(before) then order else 0.0
    case Regulatory(_, _, _, _) => 0.0
    case Tiered(tiers, minimum) =>
      var rate := TierRate(tiers, t.periodVolume);
      Incremental(FlooredOwed(rate, minimum, before), FlooredOwed(rate, minimum, after))
    case Composite(models) => CommissionSum(models, t, before, quantity)
  }

  function CommissionSum(models: seq<Model>, t: Terms, before: real, quantity: real): real
    decreases models
  {
    if models == [] then 0.0
    else CommissionOf(models[0], t, before, quantity) + CommissionSum(models[1..], t, before, quantity)
  }

  /** Regulatory fees: on sells, except the options fee, which both sides pay. */
  function FeesOf(m: Model, t: Terms, before: real, quantity: real): real
    decreases m
  {
    match m
    case Regulatory(sec, taf, cap, orf) =>
      if t.isOption then Times(orf, quantity) + if t.side.Sell? then Times(Times(sec, UnitNotional(t)),
            quantity) else 0.0
      else if t.side.Buy? then 0.0
      else Times(Times(sec, UnitNotional(t)), quantity) + Incremental(CappedOwed(taf, cap, before),
                                                                      CappedOwed(taf, cap, before + quantity))
    case Composite(models) => FeesSum(models, t, before, quantity)
    case _ => 0.0
  }

  function FeesSum(models: seq<Model>, t: Terms, before: real, quantity: real): real
    decreases models
  {
    if models == [] then 0.0
    else FeesOf(models[0], t, before, quantity) + FeesSum(models[1..], t, before, quantity)
  }

  /** Everything one print costs. */
  function Cost(m: Model, t: Terms, before: real, quantity: real): real {
    CommissionOf(m, t, before, quantity) + FeesOf(m, t, before, quantity)
  }

  /** What the prints of one order cost, each told what printed before it. */
  function TotalCost(m: Model, t: Terms, before: real, prints: seq<real>): real
    decreases prints
  {
    if prints == [] then 0.0
    else Cost(m, t, before, prints[0]) + TotalCost(m, t, before + prints[0], prints[1..])
  }

  function Sum(xs: seq<real>): real {
    if xs == [] then 0.0 else xs[0] + Sum(xs[1..])
  }

  // ---- marginal cost ---------------------------------------------------------------------------------------------

  /** What a schedule charges an order once, on its first print. */
  function FlatFee(m: Model, t: Terms): real
    decreases m
  {
    match m
    case PerTrade(fee) => fee
    case PerContract(_, order, waive) => if Waived(waive, t) then 0.0 else order
    case Composite(models) => FlatSum(models, t)
    case _ => 0.0
  }

  function FlatSum(models: seq<Model>, t: Terms): real
    decreases models
  {
    if models == [] then 0.0 else FlatFee(models[0], t) + FlatSum(models[1..], t)
  }

  /** The cost of an order of `total` printing at once; nothing costs nothing. */
  function Owed(m: Model, t: Terms, total: real): real {
    if total == 0.0 then 0.0 else Cost(m, t, 0.0, total)
  }

  /** A print that starts on dust, and so counts as the order's first again. */
  predicate OnDust(before: real) {
    0.0 < before <= QUANTITY_TOLERANCE
  }

  predicate Priced(t: Terms) {
    t.price >= 0.0 && t.multiplier > 0.0
  }

  lemma TimesGrows(k: real, a: real, b: real)
    requires k >= 0.0 && 0.0 <= a <= b
    ensures 0.0 <= Times(k, a) <= Times(k, b) && Times(k, 0.0) == 0.0
  {
  }

  lemma TimesAdds(k: real, a: real, b: real)
    ensures Times(k, a + b) == Times(k, a) + Times(k, b)
  {
  }

  lemma PerShareMonotone(rate: real, minimum: real, cap: Option<real>, a: real, b: real)
    requires rate >= 0.0 && minimum >= 0.0 && (cap.Some? ==> cap.value >= 0.0) && 0.0 <= a <= b
    ensures 0.0 <= PerShareOwed(rate, minimum, cap, a) <= PerShareOwed(rate, minimum, cap, b)
    ensures PerShareOwed(rate, minimum, cap, 0.0) == 0.0
  {
    hide Times;
    TimesGrows(rate, a, b);
    if cap.Some? {
      TimesGrows(cap.value, a, b);
    }
  }

  lemma CapNonNegative(pct: Option<real>, t: Terms)
    requires Priced(t) && (pct.Some? ==> pct.value >= 0.0)
    ensures PerShareCap(pct, t).Some? ==> PerShareCap(pct, t).value >= 0.0
    ensures UnitNotional(t) >= 0.0
  {
    hide Times;
    TimesGrows(t.price, t.multiplier, t.multiplier);
    if pct.Some? {
      TimesGrows(pct.value, UnitNotional(t), UnitNotional(t));
    }
  }

  lemma FlooredMonotone(rate: real, minimum: real, a: real, b: real)
    requires rate >= 0.0 && minimum >= 0.0 && 0.0 <= a <= b
    ensures 0.0 <= FlooredOwed(rate, minimum, a) <= FlooredOwed(rate, minimum, b)
    ensures FlooredOwed(rate, minimum, 0.0) == 0.0
  {
    hide Times;
    TimesGrows(rate, a, b);
  }

  lemma CappedMonotone(rate: real, cap: real, a: real, b: real)
    requires rate >= 0.0 && cap >= 0.0 && 0.0 <= a <= b
    ensures 0.0 <= CappedOwed(rate, cap, a) <= CappedOwed(rate, cap, b)
    ensures CappedOwed(rate, cap, 0.0) == 0.0
  {
    hide Times;
    TimesGrows(rate, a, b);
  }

  lemma RateNonNegative(tiers: seq<Tier>, volume: real)
    requires forall i | 0 <= i < |tiers| :: tiers[i].rate >= 0.0
    ensures TierRate(tiers, volume) >= 0.0
  {
    if tiers != [] {
      RateFromNonNegative(tiers, volume, 0, tiers[0].rate);
    }
  }

  lemma {:induction false} RateFromNonNegative(tiers: seq<Tier>, volume: real, k: nat, rate: real)
    requires k <= |tiers| && rate >= 0.0 && forall i | 0 <= i < |tiers| :: tiers[i].rate >= 0.0
    ensures RateFrom(tiers, volume, k, rate) >= 0.0
    decreases |tiers| - k
  {
    if k < |tiers| && volume >= tiers[k].threshold {
      RateFromNonNegative(tiers, volume, k + 1, tiers[k].rate);
    }
  }

  /** A commission is the difference of what the order owes after and before, plus the flat fee again on dust. */
  lemma {:induction false} CommissionIsMarginal(m: Model, t: Terms, before: real, quantity: real)
    requires Valid(m) && Priced(t) && before >= 0.0 && quantity > 0.0
    ensures CommissionOf(m, t, before, quantity) ==
            CommissionOf(m, t, 0.0, before + quantity)
            - (if before == 0.0 then 0.0 else CommissionOf(m, t, 0.0, before))
            + (if OnDust(before) then FlatFee(m, t) else 0.0)
    ensures CommissionOf(m, t, before, quantity) >= 0.0
    decreases m
  {
    hide Times, PerShareOwed, FlooredOwed, PerShareCap, UnitNotional, TierRate, CommissionSum, FlatSum;
    var after := before + quantity;
    match m
    case Zero =>
    case PerShare(rate, minimum, pct) =>
      CapNonNegative(pct, t);
      PerShareMonotone(rate, minimum, PerShareCap(pct, t), before, after);
    case PerTrade(fee) =>
    case PercentValue(rate, minimum) =>
      CapNonNegative(None, t);
      TimesGrows(rate, UnitNotional(t), UnitNotional(t));
      FlooredMonotone(Times(rate, UnitNotional(t)), minimum, before, after);
    case PerContract(each, order, waive) =>
      TimesAdds(each, before, quantity);
      TimesGrows(each, quantity, quantity);
    case Regulatory(_, _, _, _) =>
    case Tiered(tiers, minimum) =>
      RateNonNegative(tiers, t.periodVolume);
      FlooredMonotone(TierRate(tiers, t.periodVolume), minimum, before, after);
    case Composite(models) =>
      CommissionSumIsMarginal(models, t, before, quantity);
  }

  lemma {:induction false} CommissionSumIsMarginal(models: seq<Model>, t: Terms, before: real, quantity: real)
    requires (forall i | 0 <= i < |models| :: Valid(models[i])) && Priced(t) && before >= 0.0 && quantity > 0.0
    ensures CommissionSum(models, t, before, quantity) ==
            CommissionSum(models, t, 0.0, before + quantity)
            - (if before == 0.0 then 0.0 else CommissionSum(models, t, 0.0, before))
            + (if OnDust(before) then FlatSum(models, t) else 0.0)
    ensures CommissionSum(models, t, before, quantity) >= 0.0
    decreases models
  {
    if models != [] {
      CommissionIsMarginal(models[0], t, before, quantity);
      CommissionSumIsMarginal(models[1..], t, before, quantity);
    }
  }

  lemma {:induction false} FeesAreMarginal(m: Model, t: Terms, before: real, quantity: real)
    requires Valid(m) && Priced(t) && before >= 0.0 && quantity > 0.0
    ensures FeesOf(m, t, before, quantity) ==
            FeesOf(m, t, 0.0, before + quantity) - (if before == 0.0 then 0.0 else FeesOf(m, t, 0.0, before))
    ensures FeesOf(m, t, before, quantity) >= 0.0
    decreases m
  {
    hide Times, UnitNotional, CappedOwed, FeesSum;
    match m
    case Regulatory(sec, taf, cap, orf) =>
      CapNonNegative(None, t);
      TimesGrows(sec, UnitNotional(t), UnitNotional(t));
      LinearIsMarginal(Times(sec, UnitNotional(t)), before, quantity);
      LinearIsMarginal(orf, before, quantity);
      CappedMonotone(taf, cap, before, before + quantity);
    case Composite(models) =>
      FeesSumAreMarginal(models, t, before, quantity);
    case _ =>
  }

  lemma LinearIsMarginal(k: real, before: real, quantity: real)
    requires k >= 0.0 && quantity > 0.0
    ensures Times(k, quantity) == Times(k, before + quantity) - Times(k, before) && Times(k, quantity) >= 0.0
    ensures Times(k, 0.0) == 0.0
  {
    TimesAdds(k, before, quantity);
    TimesGrows(k, quantity, quantity);
    hide Times;
  }

  lemma {:induction false} FeesSumAreMarginal(models: seq<Model>, t: Terms, before: real, quantity: real)
    requires (forall i | 0 <= i < |models| :: Valid(models[i])) && Priced(t) && before >= 0.0 && quantity > 0.0
    ensures FeesSum(models, t, before, quantity) ==
            FeesSum(models, t, 0.0,
                    before + quantity) - (if before == 0.0 then 0.0 else FeesSum(models, t, 0.0, before))
    ensures FeesSum(models, t, before, quantity) >= 0.0
    decreases models
  {
    if models != [] {
      FeesAreMarginal(models[0], t, before, quantity);
      FeesSumAreMarginal(models[1..], t, before, quantity);
    }
  }

  // ---- split invariance ------------------------------------------------------------------------------------------

  predicate AllPositive(prints: seq<real>) {
    forall i | 0 <= i < |prints| :: prints[i] > 0.0
  }

  /** How many later prints of an order start while no more than dust has printed. */
  function DustStarts(before: real, prints: seq<real>): nat
    decreases prints
  {
    if prints == [] then 0
    else DustStarts(before + prints[0], prints[1..]) + if OnDust(before) then 1 else 0
  }

  lemma {:induction false} SplitsTelescope(m: Model, t: Terms, before: real, prints: seq<real>)
    requires Valid(m) && Priced(t) && before >= 0.0 && AllPositive(prints)
    ensures TotalCost(m, t, before, prints) ==
            Owed(m, t, before + Sum(prints)) - Owed(m, t, before) + Times(FlatFee(m, t),
                  DustStarts(before, prints) as real)
    decreases prints
  {
    var fee := FlatFee(m, t);
    hide CommissionOf, FeesOf, FlatFee, Times;
    TimesGrowsNot(fee);
    if prints != [] {
      var after, n := before + prints[0], DustStarts(before + prints[0], prints[1..]);
      PrintIsMarginal(m, t, before, prints[0]);
      SplitsTelescope(m, t, after, prints[1..]);
      TimesAdds(fee, n as real, 1.0);
      assert after + Sum(prints[1..]) == before + Sum(prints);
    }
  }

  lemma TimesGrowsNot(k: real)
    ensures Times(k, 0.0) == 0.0 && Times(k, 1.0) == k
  {
  }

  /** One print's cost, commission and fees together. */
  lemma PrintIsMarginal(m: Model, t: Terms, before: real, quantity: real)
    requires Valid(m) && Priced(t) && before >= 0.0 && quantity > 0.0
    ensures Cost(m, t, before, quantity) ==
            Owed(m, t, before + quantity) - Owed(m, t, before) + (if OnDust(before) then FlatFee(m, t) else 0.0)
  {
    CommissionIsMarginal(m, t, before, quantity);
    FeesAreMarginal(m, t, before, quantity);
    hide CommissionOf, FeesOf, FlatFee;
  }

  /** Splitting an order costs what one print would, plus the flat fees again for every print that starts on dust. */
  lemma SplitCost(m: Model, t: Terms, prints: seq<real>)
    requires Valid(m) && Priced(t) && AllPositive(prints) && prints != []
    ensures TotalCost(m, t, 0.0, prints)
              == Cost(m, t, 0.0, Sum(prints)) + Times(FlatFee(m, t), DustStarts(0.0, prints) as real)
  {
    SplitsTelescope(m, t, 0.0, prints);
    SumPositive(prints);
    hide Times, FlatFee, Cost;
  }

  lemma {:induction false} SumPositive(prints: seq<real>)
    requires AllPositive(prints) && prints != []
    ensures Sum(prints) > 0.0
  {
    if |prints| > 1 {
      SumPositive(prints[1..]);
    } else {
      assert prints[1..] == [];
    }
  }

  /** Split invariance, exactly: the split is free unless the schedule has a flat fee and the order's first print,
      followed by another, is dust. */
  lemma SplitInvariance(m: Model, t: Terms, prints: seq<real>)
    requires Valid(m) && Priced(t) && AllPositive(prints) && prints != []
    ensures TotalCost(m, t, 0.0, prints) == Cost(m, t, 0.0, Sum(prints)) <==>
            FlatFee(m, t) == 0.0 || |prints| == 1 || prints[0] > QUANTITY_TOLERANCE
  {
    SplitCost(m, t, prints);
    hide TotalCost, Cost;
    var n := DustStarts(0.0, prints);
    DustCounts(prints);
    assert Times(FlatFee(m, t), n as real) == 0.0 <==> n == 0 || FlatFee(m, t) == 0.0;
  }

  lemma {:induction false} DustCounts(prints: seq<real>)
    requires AllPositive(prints) && prints != []
    ensures DustStarts(0.0, prints) == 0 <==> |prints| == 1 || prints[0] > QUANTITY_TOLERANCE
  {
    if prints[0] > QUANTITY_TOLERANCE {
      NoDustAfter(prints[0], prints[1..]);
    } else if |prints| > 1 {
      assert DustStarts(prints[0], prints[1..]) >= 1;
    } else {
      assert prints[1..] == [];
    }
  }

  lemma {:induction false} NoDustAfter(before: real, prints: seq<real>)
    requires before > QUANTITY_TOLERANCE && AllPositive(prints)
    ensures DustStarts(before, prints) == 0
    decreases prints
  {
    if prints != [] {
      NoDustAfter(before + prints[0], prints[1..]);
    }
  }

  /** One more print at the end. */
  lemma {:induction false} TotalCostAppend(m: Model, t: Terms, before: real, prints: seq<real>, last: real)
    ensures TotalCost(m, t, before, prints + [last])
              == TotalCost(m, t, before, prints) + Cost(m, t, before + Sum(prints), last)
    decreases prints
  {
    hide Cost;
    if prints == [] {
      assert [] + [last] == [last] && [last][1..] == [];
    } else {
      assert (prints + [last])[1..] == prints[1..] + [last];
      TotalCostAppend(m, t, before + prints[0], prints[1..], last);
      assert before + prints[0] + Sum(prints[1..]) == before + Sum(prints);
    }
  }

  lemma {:induction false} SumAppend(prints: seq<real>, last: real)
    ensures Sum(prints + [last]) == Sum(prints) + last
    decreases prints
  {
    if prints == [] {
      assert [] + [last] == [last] && [last][1..] == [];
    } else {
      assert (prints + [last])[1..] == prints[1..] + [last];
      SumAppend(prints[1..], last);
    }
  }

  // ---- what a schedule asks of one print -------------------------------------------------------------------------

  /** The value traded. */
  function Notional(t: Terms, quantity: real): real {
    t.price * t.multiplier * quantity
  }

  /** A charge of so much, but no less than a floor. */
  predicate Floored(charge: real, asked: real, floor: real) {
    charge >= asked && charge >= floor && (charge == asked || charge == floor)
  }

  /** And no more than a cap, which prevails over the floor. */
  predicate FlooredAndCapped(charge: real, asked: real, floor: real, cap: Option<real>) {
    if cap.Some? && (cap.value <= asked || cap.value <= floor) then charge == cap.value
    else Floored(charge, asked, floor)
  }

  /** The rate of the highest band the month's volume has reached, or of the lowest band. */
  predicate BandRate(tiers: seq<Tier>, volume: real, rate: real) {
    exists k | 0 <= k < |tiers| :: rate == tiers[k].rate && (k == 0 || tiers[k].threshold <= volume)
                                   && forall j | k < j < |tiers| :: volume < tiers[j].threshold
  }

  predicate Banded(tiers: seq<Tier>) {
    forall i, j | 0 <= i < j < |tiers| :: tiers[i].threshold <= tiers[j].threshold
  }

  lemma BandReached(tiers: seq<Tier>, volume: real)
    requires tiers != [] && Banded(tiers)
    ensures BandRate(tiers, volume, TierRate(tiers, volume))
  {
    BandReachedFrom(tiers, volume, 0, tiers[0].rate);
  }

  lemma {:induction false} BandReachedFrom(tiers: seq<Tier>, volume: real, k: nat, rate: real)
    requires tiers != [] && Banded(tiers) && k <= |tiers| && rate == tiers[if k == 0 then 0 else k - 1].rate
    requires k > 0 ==> tiers[k - 1].threshold <= volume
    ensures BandRate(tiers, volume, RateFrom(tiers, volume, k, rate))
    decreases |tiers| - k
  {
    if k < |tiers| && volume >= tiers[k].threshold {
      BandReachedFrom(tiers, volume, k + 1, tiers[k].rate);
    } else {
      var band := if k == 0 then 0 else k - 1;
      assert forall j | k < j < |tiers| :: tiers[k].threshold <= tiers[j].threshold;
      assert forall j | band < j < |tiers| :: volume < tiers[j].threshold;
    }
  }

  /** What an order that prints at once pays in commission: per share, at the rate but no less than the floor, and no
      more than a part of its value; a flat fee; a part of its value but no less than the floor; per contract with a
      base, unless it closes below the price at which that is waived; or by the month's band, but no less than the
      floor. */
  ghost predicate Asks(m: Model, t: Terms, quantity: real, charge: real) {
    var value := Notional(t, quantity);
    match m
    case Zero => charge == 0.0
    case PerShare(rate, minimum, pct) =>
      FlooredAndCapped(charge, Times(rate, quantity), minimum,
                       if pct.Some? then Some(Times(pct.value, value)) else None)
    case PerTrade(fee) => charge == fee
    case PercentValue(rate, minimum) => Floored(charge, Times(rate, value), minimum)
    case PerContract(each, order, waive) =>
      if waive.Some? && t.isClosing
      && waive.value > t.price then charge == 0.0 else charge - order == Times(each, quantity)
    case Regulatory(_, _, _, _) => charge == 0.0
    case Tiered(tiers, minimum) =>
      exists rate: real :: BandRate(tiers, t.periodVolume, rate) && Floored(charge, Times(rate, quantity), minimum)
    case Composite(models) => charge == CommissionSum(models, t, 0.0, quantity)
  }

  lemma CommissionAsked(m: Model, t: Terms, quantity: real)
    requires Valid(m) && Priced(t) && quantity > QUANTITY_TOLERANCE
    ensures Asks(m, t, quantity, CommissionOf(m, t, 0.0, quantity))
  {
    hide Times, UnitNotional, Notional, CommissionSum;
    match m
    case PerShare(rate, minimum, pct) =>
      PerShareAsked(rate, minimum, pct, t, quantity);
    case PercentValue(rate, minimum) =>
      CapNonNegative(None, t);
      TimesGrows(rate, UnitNotional(t), UnitNotional(t));
      FlooredAsked(Times(rate, UnitNotional(t)), minimum, quantity);
      ScaledValue(rate, t, quantity);
    case Tiered(tiers, minimum) =>
      RateNonNegative(tiers, t.periodVolume);
      FlooredAsked(TierRate(tiers, t.periodVolume), minimum, quantity);
      BandReached(tiers, t.periodVolume);
      hide TierRate, BandRate;
    case _ =>
  }

  /** Until more than dust has printed no floor is owed. */
  lemma DustOwesNothing(m: Model, t: Terms, before: real, quantity: real)
    requires m.PerShare? || m.PercentValue? || m.Tiered?
    requires before <= before + quantity <= QUANTITY_TOLERANCE
    ensures CommissionOf(m, t, before, quantity) == 0.0
  {
    hide TierRate, Times;
  }

  lemma PerShareAsked(rate: real, minimum: real, pct: Option<real>, t: Terms, quantity: real)
    requires rate >= 0.0 && minimum >= 0.0 && (pct.Some? ==> pct.value >= 0.0) && Priced(t)
    requires quantity > QUANTITY_TOLERANCE
    ensures
      var cap := if pct.Some? then Some(Times(pct.value, Notional(t, quantity))) else None;
      FlooredAndCapped(CommissionOf(PerShare(rate, minimum, pct), t, 0.0, quantity), Times(rate, quantity), minimum,
                       cap)
  {
    hide Times, UnitNotional, Notional;
    CapNonNegative(pct, t);
    PerShareMonotone(rate, minimum, PerShareCap(pct, t), 0.0, quantity);
    if pct.Some? {
      ScaledValue(pct.value, t, quantity);
    }
  }

  lemma FlooredAsked(rate: real, minimum: real, quantity: real)
    requires rate >= 0.0 && minimum >= 0.0 && quantity > QUANTITY_TOLERANCE
    ensures Floored(Incremental(FlooredOwed(rate, minimum, 0.0), FlooredOwed(rate, minimum, quantity)),
                    Times(rate, quantity), minimum)
  {
    hide Times;
    FlooredMonotone(rate, minimum, 0.0, quantity);
  }

  /** Regulatory fees at once: the options fee on either side of a contract; on a sale a part of its value; and on a
      sale
      of shares so much for each, but no more than a cap. */
  lemma FeesAsked(m: Model, t: Terms, quantity: real)
    requires Valid(m) && Priced(t) && quantity > 0.0 && m.Regulatory?
    ensures
      var onSale := if t.side.Sell? then Times(m.secRate, Notional(t, quantity)) else 0.0;
      var rest := FeesOf(m, t, 0.0, quantity) - onSale;
      if t.isOption then rest == Times(m.orfPerContract, quantity)
      else if t.side.Buy? then rest == 0.0
      else rest <= m.tafCap && rest <= Times(m.tafPerShare, quantity)
           && (rest == m.tafCap || rest == Times(m.tafPerShare, quantity))
  {
    hide Times, UnitNotional, Notional;
    CapNonNegative(None, t);
    ScaledValue(m.secRate, t, quantity);
    CappedMonotone(m.tafPerShare, m.tafCap, 0.0, quantity);
  }

  lemma ScaledValue(rate: real, t: Terms, quantity: real)
    ensures Times(Times(rate, UnitNotional(t)), quantity) == Times(rate, Notional(t, quantity))
  {
    var unit := UnitNotional(t);
    assert rate * unit * quantity == rate * (unit * quantity);
  }

  // ---- tiers -----------------------------------------------------------------------------------------------------

  /** The band a month's volume has reached: scan up until a threshold is out of reach. */
  method FindRate(tiers: seq<Tier>, volume: real) returns (rate: real)
    requires tiers != [] && Banded(tiers)
    ensures rate == TierRate(tiers, volume) && BandRate(tiers, volume, rate)
  {
    rate := tiers[0].rate;
    ghost var band := 0;
    for k := 0 to |tiers|
      invariant RateFrom(tiers, volume, k, rate) == TierRate(tiers, volume)
      invariant 0 <= band < |tiers| && band == (if k == 0 then 0 else k - 1)
      invariant rate == tiers[band].rate && (band == 0 || tiers[band].threshold <= volume)
    {
      if volume < tiers[k].threshold {
        assert forall j | k <= j < |tiers| :: volume < tiers[j].threshold;
        break;
      }
      rate, band := tiers[k].rate, k;
    }
  }

  /** Two month volumes that every tiered part of a schedule puts in one band. */
  predicate SameBand(m: Model, v: real, w: real)
    decreases m
  {
    match m
    case Tiered(tiers, _) => TierRate(tiers, v) == TierRate(tiers, w)
    case Composite(models) => forall i | 0 <= i < |models| :: SameBand(models[i], v, w)
    case _ => true
  }

  /** A print costs the same at either. */
  lemma {:induction false} BandPricesAlike(m: Model, t: Terms, v: real, before: real, quantity: real)
    requires SameBand(m, v, t.periodVolume)
    ensures CommissionOf(m, t.(periodVolume := v), before, quantity) == CommissionOf(m, t, before, quantity)
    ensures FeesOf(m, t.(periodVolume := v), before, quantity) == FeesOf(m, t, before, quantity)
    decreases m
  {
    hide Times, TierRate;
    if m.Composite? {
      BandPricesAlikeEach(m.models, t, v, before, quantity);
    }
  }

  lemma {:induction false} BandPricesAlikeEach(models: seq<Model>, t: Terms, v: real, before: real, quantity: real)
    requires forall i | 0 <= i < |models| :: SameBand(models[i], v, t.periodVolume)
    ensures CommissionSum(models, t.(periodVolume := v), before, quantity) == CommissionSum(models, t, before, quantity)
    ensures FeesSum(models, t.(periodVolume := v), before, quantity) == FeesSum(models, t, before, quantity)
    decreases models
  {
    if models != [] {
      BandPricesAlike(models[0], t, v, before, quantity);
      BandPricesAlikeEach(models[1..], t, v, before, quantity);
    }
  }
}
