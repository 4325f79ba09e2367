/** The position ledger: a FIFO deque of lots, proved against a queue that matches one unit at a time —
    `sigmaloop/domain/position.py`. Quantities count grains, the smallest tradeable step. */
module Positions {
  import opened Types

  /** One acquisition tranche, signed like the position it belongs to. */
  datatype Lot = Lot(quantity: int, price: real)

  datatype Print = Print(instrument: InstrumentId, side: Side, quantity: int, price: real, commission: real,
                         fees: real) {
    function Signed(): int {
      if side.Buy? then quantity else -quantity
    }
  }

  // ---- the specification: one unit at a time -------------------------------------------------------------------

  /** Entry prices of the open units, oldest first, and what closing units has earned. */
  datatype Queue = Queue(long: bool, units: seq<real>, realized: real) {
    function Net(): int {
      if long then |units| else -|units|
    }
  }

  const FLAT := Queue(false, [], 0.0)

  /** What one unit earns per point the price rises. */
  function PerPoint(long: bool, multiplier: real): real {
    if long then multiplier else -multiplier
  }

  /** What one unit entered at one price earns when it leaves at another. */
  function UnitGain(long: bool, entry: real, exit: real, multiplier: real): real {
    (exit - entry) * PerPoint(long, multiplier)
  }

  /** So many units bought or sold, signed. */
  function Along(buy: bool, n: nat): int {
    var k: int := n;
    if buy then k else -k
  }

  /** Trade one unit: join the queue, or match the oldest unit open on the other side. */
  function OneUnit(q: Queue, buy: bool, price: real, multiplier: real): Queue {
    if q.units == [] || q.long == buy then Queue(buy, q.units + [price], q.realized)
    else
      Queue(q.long && |q.units| > 1, q.units[1..], q.realized + UnitGain(q.long, q.units[0], price, multiplier))
  }

  function Feed(q: Queue, buy: bool, n: nat, price: real, multiplier: real): Queue {
    if n == 0 then q else OneUnit(Feed(q, buy, n - 1, price, multiplier), buy, price, multiplier)
  }

  /** A position opened flat and traded through a sequence of prints. */
  function Replay(prints: seq<Print>, multiplier: real): Queue
    requires forall p | p in prints :: p.quantity > 0
  {
    if prints == [] then FLAT
    else
      var p := prints[|prints| - 1];
      Feed(Replay(prints[..|prints| - 1], multiplier), p.side.Buy?, p.quantity, p.price, multiplier)
  }

  function Sum(xs: seq<real>): real {
    if xs == [] then 0.0 else Sum(xs[..|xs| - 1]) + xs[|xs| - 1]
  }

  function Copies(x: real, n: nat): (r: seq<real>)
    ensures |r| == n
  {
    seq(n, _ => x)
  }

  /** What closing every listed unit at `exit` earns. */
  function Gains(long: bool, units: seq<real>, exit: real, multiplier: real): real {
    if units == [] then 0.0
    else Gains(long, units[..|units| - 1], exit, multiplier) + UnitGain(long, units[|units| - 1], exit, multiplier)
  }

  // ---- sums ----------------------------------------------------------------------------------------------------

  lemma Sums(a: real, b: real, c: real, k: real)
    requires a + b == c
    ensures a * k + b * k == c * k
  {
  }

  /** The sum of so many equal terms. */
  function Times(n: nat, x: real): real {
    n as real * x
  }

  lemma TimesStep(n: nat, x: real)
    ensures Times(n, x) == if n == 0 then 0.0 else Times(n - 1, x) + x
  {
    if n > 0 {
      Sums((n - 1) as real, 1.0, n as real, x);
    }
  }

  lemma Associate(a: real, b: real, c: real)
    ensures a * (b * c) == a * b * c
  {
  }

  lemma {:induction false} SumConcat(a: seq<real>, b: seq<real>)
    ensures Sum(a + b) == Sum(a) + Sum(b)
  {
    if b == [] {
      assert a + b == a;
    } else {
      assert (a + b)[..|a + b| - 1] == a + b[..|b| - 1];
      SumConcat(a, b[..|b| - 1]);
    }
  }

  lemma {:induction false} SumCopies(x: real, n: nat)
    ensures Sum(Copies(x, n)) == Times(n, x)
  {
    TimesStep(n, x);
    hide Times;
    if n > 0 {
      assert Copies(x, n)[..n - 1] == Copies(x, n - 1);
      SumCopies(x, n - 1);
    }
  }

  lemma {:induction false} GainsConcat(long: bool, a: seq<real>, b: seq<real>, exit: real, multiplier: real)
    ensures Gains(long, a + b, exit, multiplier) == Gains(long, a, exit, multiplier) + Gains(long, b, exit, multiplier)
  {
    hide UnitGain;
    if b == [] {
      assert a + b == a;
    } else {
      assert (a + b)[..|a + b| - 1] == a + b[..|b| - 1];
      GainsConcat(long, a, b[..|b| - 1], exit, multiplier);
    }
  }

  lemma {:induction false} GainsCopies(long: bool, x: real, n: nat, exit: real, multiplier: real)
    ensures Gains(long, Copies(x, n), exit, multiplier) == Times(n, UnitGain(long, x, exit, multiplier))
  {
    TimesStep(n, UnitGain(long, x, exit, multiplier));
    hide UnitGain, Times;
    if n > 0 {
      assert Copies(x, n)[..n - 1] == Copies(x, n - 1);
      GainsCopies(long, x, n - 1, exit, multiplier);
    }
  }

  lemma GainsStep(long: bool, units: seq<real>, n: nat, exit: real, multiplier: real)
    requires n < |units|
    ensures Gains(long, units[..n + 1], exit, multiplier) ==
            Gains(long, units[..n], exit, multiplier) + UnitGain(long, units[n], exit, multiplier)
  {
    hide UnitGain;
    assert units[..n + 1][..n] == units[..n];
  }

  /** At a mark, the units together earn what their total size earns from their average price. */
  lemma {:induction false} GainsFromCost(long: bool, units: seq<real>, mark: real, multiplier: real)
    ensures Gains(long, units, mark, multiplier) == (|units| as real * mark - Sum(units)) * PerPoint(long, multiplier)
  {
    hide PerPoint;
    if units != [] {
      var rest, entry, n := units[..|units| - 1], units[|units| - 1], |units| as real;
      GainsFromCost(long, rest, mark, multiplier);
      Sums(n - 1.0, 1.0, n, mark);
      Sums((n - 1.0) * mark - Sum(rest), mark - entry, n * mark - Sum(units), PerPoint(long, multiplier));
    }
  }

  // ---- many units at once --------------------------------------------------------------------------------------

  lemma {:induction false} FeedSplit(q: Queue, buy: bool, a: nat, b: nat, price: real, multiplier: real)
    ensures Feed(q, buy, a + b, price, multiplier)
              == Feed(Feed(q, buy, a, price, multiplier), buy, b, price, multiplier)
  {
    if b > 0 {
      FeedSplit(q, buy, a, b - 1, price, multiplier);
      assert a + b - 1 == a + (b - 1);
    }
  }

  /** Adding in the position's own direction queues that many units at the price. */
  lemma {:induction false} FeedOpens(q: Queue, buy: bool, n: nat, price: real, multiplier: real)
    requires q.units == [] || q.long == buy
    ensures n > 0 ==> Feed(q, buy, n, price, multiplier) == Queue(buy, q.units + Copies(price, n), q.realized)
  {
    if n > 1 {
      FeedOpens(q, buy, n - 1, price, multiplier);
      assert q.units + Copies(price, n - 1) + [price] == q.units + Copies(price, n);
    } else if n == 1 {
      assert Feed(q, buy, 0, price, multiplier) == q;
      assert Copies(price, 1) == [price];
    }
  }

  /** Trading against the position closes its oldest units. */
  lemma {:induction false} FeedCloses(q: Queue, buy: bool, n: nat, price: real, multiplier: real)
    requires q.long != buy && n <= |q.units|
    ensures Feed(q, buy, n, price, multiplier) ==
            Queue(if n == 0 then q.long else q.long && n < |q.units|, q.units[n..],
                  q.realized + Gains(q.long, q.units[..n], price, multiplier))
  {
    if n == 0 {
      assert q.units[0..] == q.units && q.units[..0] == [];
    } else {
      hide UnitGain, Gains;
      FeedCloses(q, buy, n - 1, price, multiplier);
      GainsStep(q.long, q.units, n - 1, price, multiplier);
      assert q.units[n - 1..][1..] == q.units[n..];
    }
  }

  // ---- cash ----------------------------------------------------------------------------------------------------

  /** Realised plus unrealised P&L at a mark. */
  function Equity(q: Queue, mark: real, multiplier: real): real {
    q.realized + Gains(q.long, q.units, mark, multiplier)
  }

  /** Cash paid out and received for the prints, before costs. */
  function Cash(prints: seq<Print>, multiplier: real): real {
    if prints == [] then 0.0
    else
      var p := prints[|prints| - 1];
      Cash(prints[..|prints| - 1], multiplier) - p.Signed() as real * (p.price * multiplier)
  }

  function Traded(prints: seq<Print>): int {
    if prints == [] then 0 else Traded(prints[..|prints| - 1]) + prints[|prints| - 1].Signed()
  }

  /** A unit's gain splits at any price on the way, and is its mirror image's loss. */
  lemma Telescope(long: bool, entry: real, price: real, mark: real, multiplier: real)
    ensures UnitGain(long, entry, price, multiplier) + UnitGain(long, price, mark, multiplier)
              == UnitGain(long, entry, mark, multiplier)
    ensures UnitGain(!long, price, mark, multiplier) == -UnitGain(long, price, mark, multiplier)
  {
    Sums(price - entry, mark - price, mark - entry, PerPoint(long, multiplier));
  }

  /** Every unit traded at a price moves equity at the mark by the difference, whichever side it closes or opens. */
  lemma OneUnitConserves(q: Queue, buy: bool, price: real, mark: real, multiplier: real)
    ensures Equity(OneUnit(q, buy, price, multiplier), mark, multiplier) ==
            Equity(q, mark, multiplier) + UnitGain(buy, price, mark, multiplier)
    ensures OneUnit(q, buy, price, multiplier).Net() == q.Net() + Along(buy, 1)
  {
    hide UnitGain;
    if q.units == [] || q.long == buy {
      assert (q.units + [price])[..|q.units|] == q.units && (q.units + [price])[..|q.units| + 1] == q.units + [price];
      GainsStep(buy, q.units + [price], |q.units|, mark, multiplier);
    } else {
      Telescope(q.long, q.units[0], price, mark, multiplier);
      GainsConcat(q.long, [q.units[0]], q.units[1..], mark, multiplier);
      assert [q.units[0]] + q.units[1..] == q.units;
      assert [q.units[0]][..0] == [];
      if |q.units| == 1 {
        assert q.units[1..] == [];
      }
    }
  }

  lemma {:induction false} FeedConserves(q: Queue, buy: bool, n: nat, price: real, mark: real, multiplier: real)
    ensures Equity(Feed(q, buy, n, price, multiplier), mark, multiplier) ==
            Equity(q, mark, multiplier) + Times(n, UnitGain(buy, price, mark, multiplier))
    ensures Feed(q, buy, n, price, multiplier).Net() == q.Net() + Along(buy, n)
  {
    TimesStep(n, UnitGain(buy, price, mark, multiplier));
    hide OneUnit, Equity, UnitGain, Times;
    if n > 0 {
      FeedConserves(q, buy, n - 1, price, mark, multiplier);
      OneUnitConserves(Feed(q, buy, n - 1, price, multiplier), buy, price, mark, multiplier);
    }
  }

  /** What a print gains by the mark: its units revalued, less the cash paid for them. */
  lemma PrintGain(buy: bool, n: nat, price: real, mark: real, multiplier: real)
    ensures Times(n, UnitGain(buy, price, mark, multiplier)) ==
            Along(buy, n) as real * (mark * multiplier) - Along(buy, n) as real * (price * multiplier)
  {
    var m, value, paid := n as real, mark * multiplier, price * multiplier;
    Sums(mark, -price, mark - price, multiplier);
    assert UnitGain(buy, price, mark, multiplier) == if buy then value - paid else paid - value;
    assert Along(buy, n) as real == if buy then m else -m;
    hide UnitGain, Along;
    assert m * (value - paid) == m * value - m * paid;
  }

  /** Cash conservation: over any prints from flat and at every mark, realised plus unrealised P&L is the cash the
      prints moved plus the value of what is held. */
  lemma {:induction false} CashConservation(prints: seq<Print>, mark: real, multiplier: real)
    requires forall p | p in prints :: p.quantity > 0
    ensures Replay(prints, multiplier).Net() == Traded(prints)
    ensures Equity(Replay(prints, multiplier), mark, multiplier) ==
            Cash(prints, multiplier) + Traded(prints) as real * (mark * multiplier)
  {
    hide Equity, Feed, UnitGain, Times;
    if prints == [] {
      FlatEquity(mark, multiplier);
    } else {
      var before, p := prints[..|prints| - 1], prints[|prints| - 1];
      CashConservation(before, mark, multiplier);
      FeedConserves(Replay(before, multiplier), p.side.Buy?, p.quantity, p.price, mark, multiplier);
      PrintGain(p.side.Buy?, p.quantity, p.price, mark, multiplier);
      Sums(Traded(before) as real, p.Signed() as real, Traded(prints) as real, mark * multiplier);
    }
  }

  lemma FlatEquity(mark: real, multiplier: real)
    ensures Equity(FLAT, mark, multiplier) == 0.0
  {
  }

  // ---- lots ----------------------------------------------------------------------------------------------------

  function Size(quantity: int): nat {
    if quantity < 0 then -quantity else quantity
  }

  /** The units a deque of lots stands for, oldest first. */
  function Units(lots: seq<Lot>): (r: seq<real>)
    ensures lots == [] ==> r == []
  {
    if lots == [] then [] else Copies(lots[0].price, Size(lots[0].quantity)) + Units(lots[1..])
  }

  function LotTotal(lots: seq<Lot>): nat {
    if lots == [] then 0 else Size(lots[0].quantity) + LotTotal(lots[1..])
  }

  function LotCost(lots: seq<Lot>): real {
    if lots == [] then 0.0 else Times(Size(lots[0].quantity), lots[0].price) + LotCost(lots[1..])
  }

  function LotSum(lots: seq<Lot>): int {
    if lots == [] then 0 else lots[0].quantity + LotSum(lots[1..])
  }

  /** Every lot is on one side. */
  predicate OneSided(lots: seq<Lot>, long: bool) {
    forall lot | lot in lots :: lot.quantity != 0 && (lot.quantity > 0) == long
  }

  lemma {:induction false} UnitsConcat(a: seq<Lot>, b: seq<Lot>)
    ensures Units(a + b) == Units(a) + Units(b)
  {
    if a == [] {
      assert a + b == b;
    } else {
      assert (a + b)[1..] == a[1..] + b;
      UnitsConcat(a[1..], b);
    }
  }

  lemma {:induction false} LotsCount(lots: seq<Lot>)
    ensures LotTotal(lots) == |Units(lots)|
  {
    if lots != [] {
      LotsCount(lots[1..]);
    }
  }

  /** The lots' cost is that of the units they stand for. */
  lemma {:induction false} LotsCost(lots: seq<Lot>)
    ensures LotCost(lots) == Sum(Units(lots))
  {
    if lots != [] {
      var n, p := Size(lots[0].quantity), lots[0].price;
      LotsCost(lots[1..]);
      CostStep(p, n, Units(lots[1..]));
      hide Sum, Copies, Size, Times;
    }
  }

  lemma CostStep(p: real, n: nat, rest: seq<real>)
    ensures Sum(Copies(p, n) + rest) == Times(n, p) + Sum(rest)
  {
    SumConcat(Copies(p, n), rest);
    SumCopies(p, n);
  }

  /** The average entry price of a queue; nothing held has none. */
  function Average(units: seq<real>): (r: real)
    ensures units == [] ==> r == 0.0
  {
    if units == [] then 0.0 else Sum(units) / |units| as real
  }

  /** The average over units held at one price and units added at another. */
  function Blend(average: real, prior: nat, price: real, added: nat): real
    requires added > 0
  {
    (average * prior as real + price * added as real) / (prior + added) as real
  }

  /** What closing part of a lot earns. */
  function LotGain(long: bool, entry: real, exit: real, take: nat, multiplier: real): real {
    (exit - entry) * take as real * (if long then 1.0 else -1.0) * multiplier
  }

  lemma LotGainByUnit(long: bool, entry: real, exit: real, take: nat, multiplier: real)
    ensures LotGain(long, entry, exit, take, multiplier) == Times(take, UnitGain(long, entry, exit, multiplier))
  {
    var x, n := exit - entry, take as real;
    Associate(n, x, PerPoint(long, multiplier));
    if long {
      assert x * n * 1.0 * multiplier == n * x * multiplier;
    } else {
      assert x * n * -1.0 * multiplier == n * x * -multiplier;
    }
  }

  lemma NoGain(long: bool, entry: real, exit: real, multiplier: real)
    ensures LotGain(long, entry, exit, 0, multiplier) == 0.0 && Gains(long, [], exit, multiplier) == 0.0
  {
  }

  /** Taking `take` units from the oldest lot. */
  function Consumed(lots: seq<Lot>, take: nat): seq<Lot>
    requires lots != [] && take <= Size(lots[0].quantity)
  {
    if Size(lots[0].quantity) - take == 0 then lots[1..]
    else
      lots[0 := lots[0].(quantity := if lots[0].quantity < 0 then lots[0].quantity + take else lots[0].quantity - take)]
  }

  lemma ConsumedOneSided(lots: seq<Lot>, long: bool, take: nat)
    requires OneSided(lots, long) && lots != [] && take <= Size(lots[0].quantity)
    ensures OneSided(Consumed(lots, take), long)
  {
    assert lots[0] in lots;
  }

  lemma ConsumedUnits(lots: seq<Lot>, take: nat)
    requires lots != [] && take <= Size(lots[0].quantity)
    ensures take <= |Units(lots)| && Units(lots)[..take] == Copies(lots[0].price, take)
    ensures Units(Consumed(lots, take)) == Units(lots)[take..]
  {
    var n, p := Size(lots[0].quantity), lots[0].price;
    assert Copies(p, n)[..take] == Copies(p, take) && Copies(p, n)[take..] == Copies(p, n - take);
    if take < n {
      assert Consumed(lots, take)[1..] == lots[1..];
    }
  }

  // ---- the position ------------------------------------------------------------------------------------------

  class Position {
    const instrument: InstrumentId
    const multiplier: real
    var quantity: int
    var avgPrice: real
    var realizedPnl: real
    var commissionPaid: real
    var feesPaid: real
    var markPrice: real
    var lots: seq<Lot>
    ghost var prints: seq<Print>

    /** Lots are on the position's side, and a flat position has none. */
    ghost predicate Valid()
      reads this
    {
      && OneSided(lots, quantity > 0)
      && (quantity == 0 ==> lots == [])
      && forall p | p in prints :: p.quantity > 0
    }

    /** The position as a queue of units. */
    ghost function View(): Queue
      reads this
    {
      Queue(quantity > 0, Units(lots), realizedPnl)
    }

    /** Built from prints alone: the lots account for every unit and for the average price. A position seeded
        directly, without lots, is valid but not this. */
    ghost predicate Backed()
      requires Valid()
      reads this
    {
      View() == Replay(prints, multiplier) && Accounted()
    }

    constructor (instrument: InstrumentId, multiplier: real)
      ensures Valid() && Backed() && prints == [] && this.instrument == instrument && this.multiplier == multiplier
    {
      this.instrument, this.multiplier := instrument, multiplier;
      quantity, lots, prints := 0, [], [];
      avgPrice, realizedPnl, commissionPaid, feesPaid, markPrice := 0.0, 0.0, 0.0, 0.0, 0.0;
    }

    method ResetEntry()
      modifies this`avgPrice, this`lots
      ensures avgPrice == 0.0 && lots == []
    {
      avgPrice, lots := 0.0, [];
    }

    /** Lengthen the position: the units join the deque as its youngest lot. */
    method OpenOrIncrease(delta: int, price: real)
      requires delta != 0 && (quantity == 0 || (quantity > 0) == (delta > 0))
      requires quantity == 0 ==> lots == []
      requires OneSided(lots, quantity > 0)
      modifies this`avgPrice, this`quantity, this`lots
      ensures quantity == old(quantity) + delta && OneSided(lots, quantity > 0)
      ensures Units(lots) == Units(old(lots)) + Copies(price, Size(delta))
      ensures avgPrice == Blend(old(avgPrice), Size(old(quantity)), price, Size(delta))
    {
      var prior, added := Size(quantity), Size(delta);
      UnitsConcat(lots, [Lot(delta, price)]);
      assert Units([Lot(delta, price)]) == Copies(price, added);
      hide Size, Units, Copies, Blend;
      avgPrice := Blend(avgPrice, prior, price, added);
      quantity := quantity + delta;
      lots := lots + [Lot(delta, price)];
    }

    /** Consume units from the oldest lots and return what they earned; past the last lot, fall back to average cost. */
    method Realise(closing: nat, exit: real) returns (gain: real)
      requires OneSided(lots, quantity > 0)
      modifies this`lots
      ensures OneSided(lots, quantity > 0)
      ensures var units := Units(old(lots));
              var matched := if closing < |units| then closing else |units|;
              && Units(lots) == units[matched..]
              && gain == Gains(quantity > 0, units[..matched], exit, multiplier)
                         + LotGain(quantity > 0, avgPrice, exit, closing - matched, multiplier)
    {
      NoGain(quantity > 0, avgPrice, exit, multiplier);
      hide Gains, Consumed, Units, Copies, Sum, LotGain;
      var outstanding: nat := closing;
      gain := 0.0;
      ghost var units, matched := Units(lots), 0;
      while outstanding > 0 && lots != []
        invariant OneSided(lots, quantity > 0)
        invariant outstanding + matched == closing && matched <= |units| && Units(lots) == units[matched..]
        invariant gain == Gains(quantity > 0, units[..matched], exit, multiplier)
        decreases outstanding
      {
        var lot := lots[0];
        var take := if outstanding < Size(lot.quantity) then outstanding else Size(lot.quantity);
        gain := gain + LotGain(lot.quantity > 0, lot.price, exit, take, multiplier);
        GainsRun(quantity > 0, units, matched, lots, take, exit, multiplier);
        outstanding, matched := outstanding - take, matched + take;
        ConsumedOneSided(lots, quantity > 0, take);
        lots := Consumed(lots, take);
      }
      assert outstanding > 0 ==> matched == |units|;
      if outstanding > 0 {
        gain := gain + LotGain(quantity > 0, avgPrice, exit, outstanding, multiplier);
      }
    }

    /** The average price of what a partial exit left. */
    method RemainingAvgPrice() returns (average: real)
      ensures average == if Units(lots) == [] then avgPrice else Average(Units(lots))
    {
      LotsCount(lots);
      LotsCost(lots);
      average := if LotTotal(lots) == 0 then avgPrice else LotCost(lots) / LotTotal(lots) as real;
    }

    /** Trade against the position: realise, then flip, go flat, or keep what is left. */
    method Reduce(signed: int, price: real) returns (gain: real)
      requires Valid() && quantity != 0 && signed != 0 && (quantity > 0) != (signed > 0)
      modifies this`avgPrice, this`quantity, this`lots, this`realizedPnl
      ensures Valid() && quantity == old(quantity) + signed && realizedPnl == old(realizedPnl) + gain
      ensures old(Accounted()) ==>
          Accounted() && View() == Feed(old(View()), signed > 0, Size(signed), price, multiplier)
    {
      NoGain(quantity > 0, avgPrice, price, multiplier);
      hide Feed, Gains, Blend, Average, Copies, Units, LotGain;
      ghost var q, backed := View(), Accounted();
      var current, size := quantity, Size(signed);
      var closing := if size < Size(current) then size else Size(current);
      gain := Realise(closing, price);
      realizedPnl := realizedPnl + gain;
      quantity := current + signed;
      if backed {
        CloseThenOpen(q, signed > 0, closing, size - closing, price, multiplier);
      }
      if size > closing {
        quantity := 0;
        ResetEntry();
        OpenOrIncrease(if signed > 0 then size - closing else closing - size, price);
        assert [] + Copies(price, size - closing) == Copies(price, size - closing);
        FreshAverage(price, size - closing);
      } else if quantity == 0 {
        ResetEntry();
      } else {
        avgPrice := RemainingAvgPrice();
      }
    }

    /** Trade with the position, or from flat. */
    method Add(signed: int, price: real)
      requires Valid() && signed != 0 && (quantity == 0 || (quantity > 0) == (signed > 0))
      modifies this`avgPrice, this`quantity, this`lots
      ensures Valid() && quantity == old(quantity) + signed
      ensures old(Accounted()) ==>
          Accounted() && View() == Feed(old(View()), signed > 0, Size(signed), price, multiplier)
    {
      hide Feed, Gains, Blend, Average, Copies;
      ghost var q := View();
      FeedOpens(q, signed > 0, Size(signed), price, multiplier);
      if quantity == 0 {
        ResetEntry();
        FreshAverage(price, Size(signed));
        assert [] + Copies(price, Size(signed)) == Copies(price, Size(signed));
      } else {
        IncreasedAverage(q.units, avgPrice, price, Size(signed));
      }
      OpenOrIncrease(signed, price);
    }

    /** Fold a fill in and return the P&L it realised, or refuse it. */
    method ApplyFill(p: Print) returns (error: Option<Error>, gain: real)
      requires Valid()
      modifies this
      ensures Valid()
      ensures error == if p.instrument != instrument then Some(ForeignFill)
                       else if p.quantity <= 0 then Some(BadFillQuantity) else None
      ensures error.Some? ==> unchanged(this)
      ensures error.None? ==>
          && prints == old(prints) + [p]
          && quantity == old(quantity) + p.Signed()
          && realizedPnl == old(realizedPnl) + gain
      ensures error.None? ==>
          && commissionPaid == old(commissionPaid) + p.commission
          && feesPaid == old(feesPaid) + p.fees
          && markPrice == p.price
      ensures error.None? && old(Backed()) ==> Backed()
    {
      if p.instrument != instrument {
        return Some(ForeignFill), 0.0;
      }
      if p.quantity <= 0 {
        return Some(BadFillQuantity), 0.0;
      }
      hide Replay, Feed, Average, Units, OneSided;
      commissionPaid := commissionPaid + p.commission;
      feesPaid := feesPaid + p.fees;
      markPrice := p.price;
      ReplayNext(prints, p, multiplier);
      prints := prints + [p];
      var signed := if p.side.Buy? then p.quantity else -p.quantity;
      error, gain := None, 0.0;
      if quantity == 0 || (quantity > 0) == (signed > 0) {
        Add(signed, p.price);
      } else {
        gain := Reduce(signed, p.price);
      }
    }

    /** The lots of a position built from fills sum to the quantity held and cost what the average says. They always
        suffice, so a closing fill never reaches `Realise`'s average-cost fallback. */
    lemma LotsAccount()
      requires Valid() && Accounted()
      ensures quantity == LotSum(lots) && LotTotal(lots) == Size(quantity) == |Units(lots)|
      ensures Size(quantity) as real * avgPrice == LotCost(lots)
    {
      LotsCount(lots);
      LotsCost(lots);
      OneSidedSum(lots, quantity > 0);
      AverageTimesSize(Units(lots));
      hide Average, Units, Gains, Sum, LotCost, LotTotal, LotSum;
    }

    /** Over any fills from flat and at every mark, realised plus unrealised P&L is the cash the fills moved plus the
        value of what is held. */
    lemma BooksBalance(mark: real)
      requires Valid() && Backed()
      ensures quantity == Traded(prints)
      ensures realizedPnl + UnrealizedPnl(mark) == Cash(prints, multiplier) + quantity as real * (mark * multiplier)
    {
      hide Replay, Average, Units, Gains, Cash, Traded;
      CashConservation(prints, mark, multiplier);
      MarkedGains(View(), mark, avgPrice, multiplier);
    }

    function UnrealizedPnl(mark: real): real
      reads this
    {
      (mark - avgPrice) * quantity as real * multiplier
    }

    /** The lots account for every unit held and for the average price. */
    ghost predicate Accounted()
      reads this
    {
      View().Net() == quantity && avgPrice == Average(Units(lots))
    }
  }

  lemma ReplayNext(prints: seq<Print>, p: Print, multiplier: real)
    requires p.quantity > 0 && forall x | x in prints :: x.quantity > 0
    ensures Replay(prints + [p], multiplier)
              == Feed(Replay(prints, multiplier), p.side.Buy?, p.quantity, p.price, multiplier)
  {
    assert (prints + [p])[..|prints|] == prints;
  }

  lemma {:induction false} OneSidedSum(lots: seq<Lot>, long: bool)
    requires OneSided(lots, long)
    ensures LotSum(lots) == Along(long, LotTotal(lots))
  {
    if lots != [] {
      assert lots[0] in lots;
      OneSidedSum(lots[1..], long);
    }
  }

  lemma AverageTimesSize(units: seq<real>)
    ensures |units| as real * Average(units) == Sum(units)
  {
  }

  lemma MarkedGains(q: Queue, mark: real, average: real, multiplier: real)
    requires average == Average(q.units)
    ensures Gains(q.long, q.units, mark, multiplier) == (mark - average) * q.Net() as real * multiplier
  {
    var n, g := |q.units| as real, mark - average;
    AverageTimesSize(q.units);
    GainsFromCost(q.long, q.units, mark, multiplier);
    hide Gains, Average, Sum;
    assert n * mark - Sum(q.units) == n * g;
    if q.long {
      assert n * g * multiplier == g * n * multiplier;
    } else {
      assert q.Net() as real == -n;
      assert n * g * -multiplier == g * -n * multiplier;
    }
  }

  /** A closing trade larger than the position closes it all and opens the rest on the other side. */
  lemma CloseThenOpen(q: Queue, buy: bool, closing: nat, opening: nat, price: real, multiplier: real)
    requires q.long != buy && closing <= |q.units| && (opening > 0 ==> closing == |q.units|)
    requires closing > 0
    ensures var realized := q.realized + Gains(q.long, q.units[..closing], price, multiplier);
            Feed(q, buy, closing + opening, price, multiplier) ==
            if opening > 0 then Queue(buy, Copies(price, opening), realized)
            else Queue(q.long && closing < |q.units|, q.units[closing..], realized)
  {
    hide Gains;
    FeedCloses(q, buy, closing, price, multiplier);
    FeedSplit(q, buy, closing, opening, price, multiplier);
    if opening > 0 {
      FeedOpens(Feed(q, buy, closing, price, multiplier), buy, opening, price, multiplier);
    }
    assert [] + Copies(price, opening) == Copies(price, opening);
  }

  lemma FreshAverage(price: real, n: nat)
    requires n > 0
    ensures Blend(0.0, 0, price, n) == Average(Copies(price, n))
  {
    SumCopies(price, n);
  }

  lemma IncreasedAverage(units: seq<real>, average: real, price: real, n: nat)
    requires n > 0
    ensures average == Average(units) ==> Blend(average, |units|, price, n) == Average(units + Copies(price, n))
  {
    SumConcat(units, Copies(price, n));
    SumCopies(price, n);
    AverageTimesSize(units);
    hide Sum, Copies;
  }

  /** What one lot adds to the units matched so far. */
  lemma GainsRun(long: bool, units: seq<real>, matched: nat, lots: seq<Lot>, take: nat, exit: real, multiplier: real)
    requires matched <= |units| && Units(lots) == units[matched..] && lots != [] && take <= Size(lots[0].quantity)
    ensures matched + take <= |units| && Units(Consumed(lots, take)) == units[matched + take..]
    ensures Gains(long, units[..matched + take], exit, multiplier) ==
            Gains(long, units[..matched], exit, multiplier) + LotGain(long, lots[0].price, exit, take, multiplier)
  {
    hide Gains, Consumed, Size, LotGain, UnitGain, Times;
    ConsumedUnits(lots, take);
    assert units[..matched + take] == units[..matched] + Copies(lots[0].price, take);
    assert units[matched..][take..] == units[matched + take..];
    GainsConcat(long, units[..matched], Copies(lots[0].price, take), exit, multiplier);
    GainsCopies(long, lots[0].price, take, exit, multiplier);
    LotGainByUnit(long, lots[0].price, exit, take, multiplier);
  }
}
