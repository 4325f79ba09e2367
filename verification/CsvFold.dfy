/** Folding quote rows into bars, and why slicing never changes the bars: `sigmaloop/data/providers/csv_provider.py`. */
module CsvFold {
  import opened Types
  import opened Division
  import opened CsvSlices
  import opened CsvTables

  datatype PriceBasis = BidPrice | AskPrice | MidPrice

  function PriceOf(basis: PriceBasis, row: Row): real {
    match basis
    case BidPrice => row.bid
    case AskPrice => row.ask
    case MidPrice => (row.bid + row.ask) * 0.5
  }

  /** A bar folded from quotes; `closing` is the last row inside it. */
  datatype FoldedBar = FoldedBar(ts: Time, symbol: int, open: real, high: real, low: real, close: real, closing: Row) {
    predicate Before(other: FoldedBar) {
      ts < other.ts || (ts == other.ts && symbol < other.symbol)
    }

    function Extend(row: Row, price: real): FoldedBar {
      this.(high := Max(high, price), low := Min(low, price), close := price, closing := row)
    }
  }

  /** What the fold is asked for: the bar width and which side of the quote prices it. */
  datatype Fold = Fold(width: nat, basis: PriceBasis) {
    function BucketOf(row: Row): Time {
      Bucket(row.ts, width)
    }

    function First(row: Row): FoldedBar {
      var price := PriceOf(basis, row);
      FoldedBar(BucketOf(row), row.symbol, price, price, price, price, row)
    }

    /** One bar from all its rows, in order. */
    function BarOf(rows: seq<Row>): FoldedBar
      requires rows != []
    {
      if |rows| == 1 then First(rows[0])
      else BarOf(rows[..|rows| - 1]).Extend(rows[|rows| - 1], PriceOf(basis, rows[|rows| - 1]))
    }

    predicate In(row: Row, symbol: int, bucket: Time) {
      row.symbol == symbol && BucketOf(row) == bucket
    }

    /** The rows of one symbol's bar. */
    function Select(rows: seq<Row>, symbol: int, bucket: Time): seq<Row> {
      if rows == [] then []
      else
        var last := rows[|rows| - 1];
        Select(rows[..|rows| - 1], symbol, bucket) + if In(last, symbol, bucket) then [last] else []
    }

    /** The first row's bar comes before the second's. */
    predicate Earlier(x: Row, y: Row) {
      BucketOf(x) < BucketOf(y) || (BucketOf(x) == BucketOf(y) && x.symbol < y.symbol)
    }

    /** Bars of one symbol: a change of bucket closes one and opens the next. */
    function Segments(rows: seq<Row>): seq<FoldedBar> {
      if rows == [] then []
      else
        Grow(Segments(rows[..|rows| - 1]), rows[|rows| - 1])
    }

    /** Take one more row into the last bar, or open the next. */
    function Grow(bars: seq<FoldedBar>, row: Row): seq<FoldedBar> {
      if bars != [] && bars[|bars| - 1].ts == BucketOf(row) then
        bars[..|bars| - 1] + [bars[|bars| - 1].Extend(row, PriceOf(basis, row))]
      else bars + [First(row)]
    }
  }

  /** The rows of one symbol. */
  function Own(rows: seq<Row>, symbol: int): seq<Row> {
    if rows == [] then []
    else
      var last := rows[|rows| - 1];
      Own(rows[..|rows| - 1], symbol) + if last.symbol == symbol then [last] else []
  }

  /** Distinct symbols in order of first appearance. */
  function Symbols(rows: seq<Row>): (symbols: seq<int>)
    ensures forall x :: x in symbols <==> exists row :: row in rows && row.symbol == x
    ensures forall i, j | 0 <= i < j < |symbols| :: symbols[i] != symbols[j]
  {
    if rows == [] then []
    else
      var before, last := Symbols(rows[..|rows| - 1]), rows[|rows| - 1];
      assert rows == rows[..|rows| - 1] + [last];
      if last.symbol in before then before else before + [last.symbol]
  }

  function FoldEach(fold: Fold, rows: seq<Row>, symbols: seq<int>): seq<FoldedBar> {
    if symbols == [] then []
    else
      var last := symbols[|symbols| - 1];
      FoldEach(fold, rows, symbols[..|symbols| - 1]) + fold.Segments(Own(rows, last))
  }

  function InsertBar(bars: seq<FoldedBar>, x: FoldedBar): seq<FoldedBar> {
    if bars == [] || !x.Before(bars[|bars| - 1]) then bars + [x]
    else InsertBar(bars[..|bars| - 1], x) + [bars[|bars| - 1]]
  }

  function SortBars(bars: seq<FoldedBar>): seq<FoldedBar> {
    if bars == [] then [] else InsertBar(SortBars(bars[..|bars| - 1]), bars[|bars| - 1])
  }

  /** Fold every symbol's rows, then order the bars by close and symbol. */
  function BarsFromQuotes(fold: Fold, rows: seq<Row>): seq<FoldedBar> {
    SortBars(FoldEach(fold, rows, Symbols(rows)))
  }

  // ---- what a fold is --------------------------------------------------------------------------------------------

  predicate InOrder(bars: seq<FoldedBar>) {
    forall i, j | 0 <= i < j < |bars| :: bars[i].Before(bars[j])
  }

  /** A bar is the bar of its own rows. */
  predicate Genuine(fold: Fold, rows: seq<Row>, b: FoldedBar) {
    var own := fold.Select(rows, b.symbol, b.ts);
    own != [] && b == fold.BarOf(own)
  }

  /** Some bar is this row's. */
  predicate Barred(fold: Fold, bars: seq<FoldedBar>, row: Row) {
    exists b | b in bars :: b.symbol == row.symbol && b.ts == fold.BucketOf(row)
  }

  /** The bars of `rows`: in order, one for every symbol and bucket with a row, each folded from exactly its rows. */
  predicate IsFold(fold: Fold, rows: seq<Row>, bars: seq<FoldedBar>) {
    && InOrder(bars)
    && (forall b | b in bars :: Genuine(fold, rows, b))
    && (forall row | row in rows :: Barred(fold, bars, row))
  }

  /** The side of a quote a basis prices by; the middle is as far from the one as from the other. */
  predicate PricedBy(basis: PriceBasis, row: Row, price: real) {
    match basis
    case BidPrice => price == row.bid
    case AskPrice => price == row.ask
    case MidPrice => price - row.bid == row.ask - price
  }

  /** What one bar says of its rows: the first and last prices, the extremes, and the last quote. */
  lemma {:induction false} BarOfMeans(fold: Fold, rows: seq<Row>)
    requires rows != []
    ensures var b := fold.BarOf(rows);
            && PricedBy(fold.basis, rows[0], b.open) && PricedBy(fold.basis, rows[|rows| - 1], b.close)
            && b.closing == rows[|rows| - 1]
            && b.ts == fold.BucketOf(rows[0]) && b.symbol == rows[0].symbol
            && (forall row, price | row in rows && PricedBy(fold.basis, row, price) :: b.low <= price <= b.high)
            && (exists row | row in rows :: PricedBy(fold.basis, row, b.high))
            && (exists row | row in rows :: PricedBy(fold.basis, row, b.low))
  {
    if |rows| > 1 {
      var before, last := rows[..|rows| - 1], rows[|rows| - 1];
      BarOfMeans(fold, before);
      assert before[0] == rows[0] && rows == before + [last];
      var top :| top in before && PricedBy(fold.basis, top, fold.BarOf(before).high);
      var bottom :| bottom in before && PricedBy(fold.basis, bottom, fold.BarOf(before).low);
      assert PricedBy(fold.basis, last, PriceOf(fold.basis, last));
      assert top in rows && bottom in rows && last in rows;
    } else {
      assert rows[0] in rows;
    }
  }

  lemma HeadIn<T>(xs: seq<T>)
    ensures xs == [] || xs[0] in xs
  {
  }

  // ---- one symbol ------------------------------------------------------------------------------------------------

  lemma BucketMonotone(t: Time, u: Time, width: nat)
    requires t <= u
    ensures Bucket(t, width) <= Bucket(u, width)
  {
    if width > 0 {
      var q := (t - 1) / width;
      assert t - 1 == q * width + (t - 1) % width;
      QuotientAtLeast(u - 1, q, width);
      Scale(q + 1, (u - 1) / width + 1, width);
    }
  }

  lemma SelectNext(fold: Fold, before: seq<Row>, row: Row, symbol: int, bucket: Time)
    ensures fold.Select(before + [row], symbol, bucket) ==
            fold.Select(before, symbol, bucket) + if fold.In(row, symbol, bucket) then [row] else []
  {
    assert (before + [row])[..|before|] == before;
  }

  lemma {:induction false} SelectMembers(fold: Fold, rows: seq<Row>, symbol: int, bucket: Time)
    ensures forall row :: row in fold.Select(rows, symbol, bucket) <==> row in rows && fold.In(row, symbol, bucket)
  {
    if rows != [] {
      SelectMembers(fold, rows[..|rows| - 1], symbol, bucket);
      assert rows == rows[..|rows| - 1] + [rows[|rows| - 1]];
    }
  }

  /** Rows of one symbol in time order. */
  predicate OneSymbol(rows: seq<Row>, symbol: int) {
    && (forall row | row in rows :: row.symbol == symbol)
    && (forall i, j | 0 <= i < j < |rows| :: rows[i].ts <= rows[j].ts)
  }

  predicate Segmented(fold: Fold, rows: seq<Row>, symbol: int, bars: seq<FoldedBar>) {
    && (forall i, j | 0 <= i < j < |bars| :: bars[i].ts < bars[j].ts)
    && (forall b | b in bars :: b.symbol == symbol && Genuine(fold, rows, b))
    && (forall row | row in rows :: Barred(fold, bars, row))
    && (rows != [] ==> bars != [] && bars[|bars| - 1].ts == fold.BucketOf(rows[|rows| - 1]))
  }

  /** A bar whose bucket the next row is not in stays as it is. */
  lemma GenuineKept(fold: Fold, before: seq<Row>, row: Row, b: FoldedBar)
    requires Genuine(fold, before, b) && !fold.In(row, b.symbol, b.ts)
    ensures Genuine(fold, before + [row], b)
  {
    SelectNext(fold, before, row, b.symbol, b.ts);
    assert fold.Select(before, b.symbol, b.ts) + [] == fold.Select(before, b.symbol, b.ts);
  }

  lemma GenuineExtended(fold: Fold, before: seq<Row>, row: Row, b: FoldedBar)
    requires Genuine(fold, before, b) && fold.In(row, b.symbol, b.ts)
    ensures Genuine(fold, before + [row], b.Extend(row, PriceOf(fold.basis, row)))
  {
    var own := fold.Select(before, b.symbol, b.ts);
    SelectNext(fold, before, row, b.symbol, b.ts);
    assert (own + [row])[..|own|] == own;
  }

  lemma GenuineFirst(fold: Fold, before: seq<Row>, row: Row)
    requires fold.Select(before, row.symbol, fold.BucketOf(row)) == []
    ensures Genuine(fold, before + [row], fold.First(row))
  {
    SelectNext(fold, before, row, row.symbol, fold.BucketOf(row));
  }

  lemma {:induction false} SegmentsAreBars(fold: Fold, rows: seq<Row>, symbol: int)
    requires OneSymbol(rows, symbol)
    ensures Segmented(fold, rows, symbol, fold.Segments(rows))
  {
    if rows != [] {
      var before, row := rows[..|rows| - 1], rows[|rows| - 1];
      assert before + [row] == rows && row in rows;
      hide Segmented, Fold.Grow;
      SegmentsAreBars(fold, before, symbol);
      SegmentsNext(fold, before, row, symbol, fold.Segments(before));
    }
  }

  lemma SegmentsNext(fold: Fold, before: seq<Row>, row: Row, symbol: int, bars: seq<FoldedBar>)
    requires Segmented(fold, before, symbol, bars) && row.symbol == symbol
    requires before != [] ==> before[|before| - 1].ts <= row.ts
    requires before == [] ==> bars == []
    ensures Segmented(fold, before + [row], symbol, fold.Grow(bars, row))
  {
    if before != [] {
      BucketMonotone(before[|before| - 1].ts, row.ts, fold.width);
    }
    var bucket, rows := fold.BucketOf(row), before + [row];
    hide Genuine, Bucket, PriceOf;
    if bars != [] && bars[|bars| - 1].ts == bucket {
      var last := bars[|bars| - 1];
      var grown := last.Extend(row, PriceOf(fold.basis, row));
      var more := bars[..|bars| - 1] + [grown];
      GenuineExtended(fold, before, row, last);
      forall b | b in more
        ensures b.symbol == symbol && Genuine(fold, rows, b)
      {
        if b != grown {
          GenuineKept(fold, before, row, b);
        }
      }
      AllBarred(fold, bars, more, before, row);
    } else {
      var more := bars + [fold.First(row)];
      NoneYet(fold, before, row, symbol, bars);
      GenuineFirst(fold, before, row);
      forall b | b in more
        ensures b.symbol == symbol && Genuine(fold, rows, b)
      {
        if b in bars {
          GenuineKept(fold, before, row, b);
        }
      }
      AllBarred(fold, bars, more, before, row);
    }
  }

  /** No row so far is in a bucket past the last bar. */
  lemma NoneYet(fold: Fold, before: seq<Row>, row: Row, symbol: int, bars: seq<FoldedBar>)
    requires Segmented(fold, before, symbol, bars) && row.symbol == symbol
    requires before == [] ==> bars == []
    requires bars != [] ==> bars[|bars| - 1].ts < fold.BucketOf(row)
    ensures fold.Select(before, symbol, fold.BucketOf(row)) == []
  {
    var own := fold.Select(before, symbol, fold.BucketOf(row));
    SelectMembers(fold, before, symbol, fold.BucketOf(row));
    forall r | r in before
      ensures fold.BucketOf(r) < fold.BucketOf(row)
    {
      var b :| b in bars && b.symbol == r.symbol && b.ts == fold.BucketOf(r);
      assert b == bars[|bars| - 1] || b.ts < bars[|bars| - 1].ts;
    }
    HeadIn(own);
  }

  lemma AllBarred(fold: Fold, bars: seq<FoldedBar>, more: seq<FoldedBar>, before: seq<Row>, row: Row)
    requires forall r | r in before :: Barred(fold, bars, r)
    requires |bars| <= |more| && forall k | 0 <= k < |bars| ::
        more[k].symbol == bars[k].symbol && more[k].ts == bars[k].ts
    requires more != [] && more[|more| - 1].symbol == row.symbol && more[|more| - 1].ts == fold.BucketOf(row)
    ensures forall r | r in before + [row] :: Barred(fold, more, r)
  {
    forall r | r in before + [row]
      ensures Barred(fold, more, r)
    {
      if r in before {
        var b :| b in bars && b.symbol == r.symbol && b.ts == fold.BucketOf(r);
        var k :| 0 <= k < |bars| && bars[k] == b;
        assert more[k] in more;
      } else {
        assert more[|more| - 1] in more;
      }
    }
  }

  // ---- all symbols -----------------------------------------------------------------------------------------------

  lemma {:induction false} OwnMembers(rows: seq<Row>, symbol: int)
    requires Ascending(rows)
    ensures forall row :: row in Own(rows, symbol) <==> row in rows && row.symbol == symbol
    ensures OneSymbol(Own(rows, symbol), symbol)
  {
    if rows != [] {
      OwnMembers(rows[..|rows| - 1], symbol);
      assert rows == rows[..|rows| - 1] + [rows[|rows| - 1]];
    }
  }

  lemma {:induction false} SelectOwn(fold: Fold, rows: seq<Row>, symbol: int, bucket: Time)
    ensures fold.Select(Own(rows, symbol), symbol, bucket) == fold.Select(rows, symbol, bucket)
  {
    if rows != [] {
      var before, last := rows[..|rows| - 1], rows[|rows| - 1];
      SelectOwn(fold, before, symbol, bucket);
      SelectNext(fold, Own(before, symbol), last, symbol, bucket);
      assert Own(before, symbol) + [] == Own(before, symbol);
    }
  }

  predicate DistinctBars(bars: seq<FoldedBar>) {
    forall i, j | 0 <= i < j < |bars| :: bars[i].ts != bars[j].ts || bars[i].symbol != bars[j].symbol
  }

  /** Folding each symbol in turn gives every bar once, each from its own rows. */
  lemma {:induction false} FoldEachIsGenuine(fold: Fold, rows: seq<Row>, symbols: seq<int>)
    requires Ascending(rows) && forall i, j | 0 <= i < j < |symbols| :: symbols[i] != symbols[j]
    ensures DistinctBars(FoldEach(fold, rows, symbols))
    ensures forall b | b in FoldEach(fold, rows, symbols) :: b.symbol in symbols && Genuine(fold, rows, b)
    ensures forall row | row in rows && row.symbol in symbols :: Barred(fold, FoldEach(fold, rows, symbols), row)
  {
    if symbols != [] {
      var before, last := symbols[..|symbols| - 1], symbols[|symbols| - 1];
      var earlier, own := FoldEach(fold, rows, before), fold.Segments(Own(rows, last));
      FoldEachIsGenuine(fold, rows, before);
      SymbolIsGenuine(fold, rows, last);
      assert symbols == before + [last];
      hide Genuine, Ascending;
      forall row | row in rows && row.symbol in symbols
        ensures Barred(fold, earlier + own, row)
      {
        if row.symbol in before {
          var b :| b in earlier && b.symbol == row.symbol && b.ts == fold.BucketOf(row);
          assert b in earlier + own;
        } else {
          var b :| b in own && b.symbol == row.symbol && b.ts == fold.BucketOf(row);
          assert b in earlier + own;
        }
      }
    }
  }

  lemma SymbolIsGenuine(fold: Fold, rows: seq<Row>, symbol: int)
    requires Ascending(rows)
    ensures DistinctBars(fold.Segments(Own(rows, symbol)))
    ensures forall b | b in fold.Segments(Own(rows, symbol)) :: b.symbol == symbol && Genuine(fold, rows, b)
    ensures forall row | row in rows && row.symbol == symbol :: Barred(fold, fold.Segments(Own(rows, symbol)), row)
  {
    OwnMembers(rows, symbol);
    SegmentsAreBars(fold, Own(rows, symbol), symbol);
    var bars := fold.Segments(Own(rows, symbol));
    forall b | b in bars
      ensures Genuine(fold, rows, b)
    {
      SelectOwn(fold, rows, symbol, b.ts);
    }
  }

  lemma {:induction false} InsertBarMembers(bars: seq<FoldedBar>, x: FoldedBar)
    ensures forall b :: b in InsertBar(bars, x) <==> b == x || b in bars
  {
    if bars != [] && x.Before(bars[|bars| - 1]) {
      InsertBarMembers(bars[..|bars| - 1], x);
      assert bars == bars[..|bars| - 1] + [bars[|bars| - 1]];
    }
  }

  lemma {:induction false} InsertBarOrder(bars: seq<FoldedBar>, x: FoldedBar)
    requires InOrder(bars) && forall b | b in bars :: b.ts != x.ts || b.symbol != x.symbol
    ensures InOrder(InsertBar(bars, x))
  {
    if bars != [] && x.Before(bars[|bars| - 1]) {
      var before, last := bars[..|bars| - 1], bars[|bars| - 1];
      InsertBarOrder(before, x);
      InsertBarMembers(before, x);
      forall b | b in InsertBar(before, x)
        ensures b.Before(last)
      {
        assert b != x ==> exists k :: 0 <= k < |before| && bars[k] == b;
      }
    } else if bars != [] {
      assert bars[|bars| - 1] in bars && bars[|bars| - 1].Before(x);
    }
  }

  lemma {:induction false} SortBarsOrder(bars: seq<FoldedBar>)
    requires DistinctBars(bars)
    ensures InOrder(SortBars(bars)) && forall b :: b in SortBars(bars) <==> b in bars
  {
    if bars != [] {
      var before, last := bars[..|bars| - 1], bars[|bars| - 1];
      hide InOrder, InsertBar;
      SortBarsOrder(before);
      InsertBarMembers(SortBars(before), last);
      assert bars == before + [last];
      forall b | b in SortBars(before)
        ensures b.ts != last.ts || b.symbol != last.symbol
      {
        var k :| 0 <= k < |before| && bars[k] == b;
      }
      InsertBarOrder(SortBars(before), last);
    }
  }

  /** The fold produces the bars of its rows. */
  lemma BarsFromQuotesIsFold(fold: Fold, rows: seq<Row>)
    requires Ascending(rows)
    ensures IsFold(fold, rows, BarsFromQuotes(fold, rows))
  {
    var bars := FoldEach(fold, rows, Symbols(rows));
    FoldEachIsGenuine(fold, rows, Symbols(rows));
    SortBarsOrder(bars);
    hide Genuine, FoldEach, SortBars, Ascending, InOrder, DistinctBars;
    forall row | row in rows
      ensures Barred(fold, SortBars(bars), row)
    {
      assert Barred(fold, bars, row);
      var b :| b in bars && b.symbol == row.symbol && b.ts == fold.BucketOf(row);
      assert b in SortBars(bars);
    }
  }

  // ---- there is only one fold --------------------------------------------------------------------------------------

  /** Ordered sequences with the same members are the same. */
  lemma {:induction false} OrderedUnique(a: seq<FoldedBar>, b: seq<FoldedBar>)
    requires InOrder(a) && InOrder(b) && forall x :: x in a <==> x in b
    ensures a == b
  {
    HeadIn(a);
    HeadIn(b);
    if a != [] && b != [] {
      var a1, b1 := a[..|a| - 1], b[..|b| - 1];
      LastOnce(a);
      LastOnce(b);
      SameLast(a, b);
      hide InOrder, FoldedBar.Before;
      assert a == a1 + [a[|a| - 1]] && b == b1 + [b[|b| - 1]];
      forall z ensures z in a1 <==> z in b1 {
        assert z in a1 ==> z in a && z != a[|a| - 1];
        assert z in b1 ==> z in b && z != b[|b| - 1];
      }
      OrderedUnique(a1, b1);
    }
  }

  lemma SameLast(a: seq<FoldedBar>, b: seq<FoldedBar>)
    requires InOrder(a) && InOrder(b) && (forall x :: x in a <==> x in b) && a != [] && b != []
    ensures a[|a| - 1] == b[|b| - 1]
  {
    var x, y := a[|a| - 1], b[|b| - 1];
    assert x in b && y in a;
  }

  lemma LastOnce(bars: seq<FoldedBar>)
    requires InOrder(bars) && bars != []
    ensures InOrder(bars[..|bars| - 1]) && bars[|bars| - 1] !in bars[..|bars| - 1]
    ensures forall i | 0 <= i < |bars| - 1 :: bars[i].Before(bars[|bars| - 1])
  {
  }

  lemma FoldIsUnique(fold: Fold, rows: seq<Row>, a: seq<FoldedBar>, b: seq<FoldedBar>)
    requires IsFold(fold, rows, a) && IsFold(fold, rows, b)
    ensures a == b
  {
    Contained(fold, rows, a, b);
    Contained(fold, rows, b, a);
    OrderedUnique(a, b);
  }

  lemma Contained(fold: Fold, rows: seq<Row>, a: seq<FoldedBar>, b: seq<FoldedBar>)
    requires IsFold(fold, rows, a) && IsFold(fold, rows, b)
    ensures forall x | x in a :: x in b
  {
    forall x | x in a
      ensures x in b
    {
      assert Genuine(fold, rows, x);
      var own := fold.Select(rows, x.symbol, x.ts);
      SelectMembers(fold, rows, x.symbol, x.ts);
      assert own[0] in own && Barred(fold, b, own[0]);
      var y :| y in b && y.symbol == x.symbol && y.ts == x.ts;
      assert Genuine(fold, rows, y);
    }
  }

  // ---- slice independence ------------------------------------------------------------------------------------------

  /** Every bar of the one side comes before every bar of the other. */
  ghost predicate BarsApart(fold: Fold, a: seq<Row>, b: seq<Row>) {
    forall x, y | x in a && y in b :: fold.Earlier(x, y)
  }

  lemma {:induction false} SelectConcat(fold: Fold, a: seq<Row>, b: seq<Row>, symbol: int, bucket: Time)
    ensures fold.Select(a + b, symbol, bucket) == fold.Select(a, symbol, bucket) + fold.Select(b, symbol, bucket)
  {
    if b == [] {
      assert a + b == a;
    } else {
      assert (a + b)[..|a + b| - 1] == a + b[..|b| - 1];
      SelectConcat(fold, a, b[..|b| - 1], symbol, bucket);
    }
  }

  /** A bar's rows, and so the bar, lie on one side. */
  lemma GenuineEitherSide(fold: Fold, a: seq<Row>, b: seq<Row>, x: FoldedBar)
    requires BarsApart(fold, a, b)
    ensures Genuine(fold, a, x) || Genuine(fold, b, x) ==> Genuine(fold, a + b, x)
  {
    var left, right := fold.Select(a, x.symbol, x.ts), fold.Select(b, x.symbol, x.ts);
    SelectConcat(fold, a, b, x.symbol, x.ts);
    SelectMembers(fold, a, x.symbol, x.ts);
    SelectMembers(fold, b, x.symbol, x.ts);
    HeadIn(left);
    HeadIn(right);
    assert left == [] || right == [];
    assert left + [] == left && [] + right == right;
  }

  lemma GenuineBucket(fold: Fold, rows: seq<Row>, x: FoldedBar) returns (row: Row)
    requires Genuine(fold, rows, x)
    ensures row in rows && fold.BucketOf(row) == x.ts && row.symbol == x.symbol
  {
    var own := fold.Select(rows, x.symbol, x.ts);
    SelectMembers(fold, rows, x.symbol, x.ts);
    HeadIn(own);
    row := own[0];
  }

  lemma SidesInOrder(fold: Fold, a: seq<Row>, b: seq<Row>, left: seq<FoldedBar>, right: seq<FoldedBar>)
    requires BarsApart(fold, a, b) && IsFold(fold, a, left) && IsFold(fold, b, right)
    ensures InOrder(left + right)
  {
    forall i, j | 0 <= i < |left| && 0 <= j < |right|
      ensures left[i].Before(right[j])
    {
      assert left[i] in left && right[j] in right;
      var x := GenuineBucket(fold, a, left[i]);
      var y := GenuineBucket(fold, b, right[j]);
    }
  }

  /** Folding apart is folding together exactly when every bar before the cut comes before every bar after it. */
  lemma FoldSplitsIff(fold: Fold, a: seq<Row>, b: seq<Row>)
    requires Ascending(a) && Ascending(b) && Ascending(a + b)
    ensures BarsFromQuotes(fold, a + b) == BarsFromQuotes(fold, a) + BarsFromQuotes(fold, b) <==> BarsApart(fold, a, b)
  {
    BarsFromQuotesIsFold(fold, a);
    BarsFromQuotesIsFold(fold, b);
    BarsFromQuotesIsFold(fold, a + b);
    hide BarsFromQuotes, Ascending, BarsApart, InOrder, Genuine, Barred;
    if BarsApart(fold, a, b) {
      FoldSplits(fold, a, b);
    } else if BarsFromQuotes(fold, a + b) == BarsFromQuotes(fold, a) + BarsFromQuotes(fold, b) {
      OrderedSides(fold, a, b, BarsFromQuotes(fold, a), BarsFromQuotes(fold, b));
    }
  }

  /** In bars that are in order, the bars of the earlier rows come first. */
  lemma OrderedSides(fold: Fold, a: seq<Row>, b: seq<Row>, left: seq<FoldedBar>, right: seq<FoldedBar>)
    requires InOrder(left + right)
    requires (forall x | x in a :: Barred(fold, left, x)) && (forall y | y in b :: Barred(fold, right, y))
    ensures BarsApart(fold, a, b)
  {
    forall x, y | x in a && y in b
      ensures fold.Earlier(x, y)
    {
      assert Barred(fold, left, x) && Barred(fold, right, y);
      var i :| 0 <= i < |left| && left[i].symbol == x.symbol && left[i].ts == fold.BucketOf(x);
      var j :| 0 <= j < |right| && right[j].symbol == y.symbol && right[j].ts == fold.BucketOf(y);
      assert (left + right)[i] == left[i] && (left + right)[|left| + j] == right[j];
    }
  }

  lemma FoldSplits(fold: Fold, a: seq<Row>, b: seq<Row>)
    requires Ascending(a) && Ascending(b) && Ascending(a + b) && BarsApart(fold, a, b)
    ensures BarsFromQuotes(fold, a + b) == BarsFromQuotes(fold, a) + BarsFromQuotes(fold, b)
  {
    var left, right := BarsFromQuotes(fold, a), BarsFromQuotes(fold, b);
    BarsFromQuotesIsFold(fold, a);
    BarsFromQuotesIsFold(fold, b);
    BarsFromQuotesIsFold(fold, a + b);
    SidesInOrder(fold, a, b, left, right);
    hide BarsFromQuotes, Ascending, BarsApart, InOrder, Genuine;
    forall x | x in left + right
      ensures Genuine(fold, a + b, x)
    {
      GenuineEitherSide(fold, a, b, x);
    }
    forall row | row in a + b
      ensures Barred(fold, left + right, row)
    {
      BarredEitherSide(fold, left, right, row);
    }
    FoldIsUnique(fold, a + b, BarsFromQuotes(fold, a + b), left + right);
  }

  lemma BarredEitherSide(fold: Fold, left: seq<FoldedBar>, right: seq<FoldedBar>, row: Row)
    ensures Barred(fold, left, row) || Barred(fold, right, row) ==> Barred(fold, left + right, row)
  {
    if Barred(fold, left, row) {
      var x :| x in left && x.symbol == row.symbol && x.ts == fold.BucketOf(row);
      assert x in left + right;
    }
    if Barred(fold, right, row) {
      var x :| x in right && x.symbol == row.symbol && x.ts == fold.BucketOf(row);
      assert x in left + right;
    }
  }

  /** What streaming quote bars slice by slice yields, before bars past the end are dropped. */
  function FoldAll(fold: Fold, files: seq<seq<Row>>, slices: seq<Slice>,
                   policy: DuplicatePolicy): Outcome<seq<FoldedBar>> {
    if slices == [] then Ok([])
    else
      var before :- FoldAll(fold, files, slices[..|slices| - 1], policy);
      var last := slices[|slices| - 1];
      var rows :- Gather(files, last.lo, last.hi, policy);
      Ok(before + BarsFromQuotes(fold, rows))
  }

  /** Gather the window whole and fold it. */
  function FoldWindow(fold: Fold, files: seq<seq<Row>>, start: Time, end: Time,
                      policy: DuplicatePolicy): Outcome<seq<FoldedBar>> {
    var rows :- Gather(files, start, end, policy);
    Ok(BarsFromQuotes(fold, rows))
  }

  /** A slice boundary no bar straddles: any boundary for updates taken one by one, else a bar's first instant. */
  predicate OnEdge(fold: Fold, edge: Time) {
    fold.width == 0 || (edge - 1) % fold.width == 0
  }

  lemma CutApart(fold: Fold, files: seq<seq<Row>>, lo: Time, edge: Time, hi: Time, policy: DuplicatePolicy)
    requires forall f | f in files :: Ascending(f)
    requires lo <= edge <= hi && OnEdge(fold, edge)
    requires Gather(files, lo, edge - 1, policy).Ok? && Gather(files, edge, hi, policy).Ok?
    ensures BarsApart(fold, Gather(files, lo, edge - 1, policy).value, Gather(files, edge, hi, policy).value)
  {
    var a, b := Gather(files, lo, edge - 1, policy).value, Gather(files, edge, hi, policy).value;
    GatheredWithin(files, lo, edge - 1, policy);
    GatheredWithin(files, edge, hi, policy);
    hide Gather, Ascending;
    forall x, y | x in a && y in b
      ensures fold.Earlier(x, y)
    {
      if fold.width > 0 {
        EdgeSeparates(x.ts, edge, y.ts, fold.width);
      }
    }
  }

  /** However a window is cut on bar edges, streaming its slices folds the bars of the whole window. */
  lemma {:induction false} SlicesFoldTheWindow(fold: Fold, files: seq<seq<Row>>, slices: seq<Slice>, start: Time,
                                               end: Time, policy: DuplicatePolicy)
    requires Partition(slices, start, end) && forall f | f in files :: Ascending(f)
    requires forall k | 0 < k < |slices| :: OnEdge(fold, slices[k].lo)
    ensures FoldAll(fold, files, slices, policy) == FoldWindow(fold, files, start, end, policy)
  {
    hide Gather, Ascending, FoldAll, FoldWindow;
    if |slices| == 1 {
      assert slices == [slices[0]];
      OneFold(fold, files, slices[0], policy);
    } else {
      var before, last := slices[..|slices| - 1], slices[|slices| - 1];
      PartitionInit(slices, start, end);
      SlicesFoldTheWindow(fold, files, before, start, last.lo - 1, policy);
      NextFold(fold, files, before, last, start, policy);
      assert before + [last] == slices;
    }
  }

  lemma OneFold(fold: Fold, files: seq<seq<Row>>, slice: Slice, policy: DuplicatePolicy)
    ensures FoldAll(fold, files, [slice], policy) == FoldWindow(fold, files, slice.lo, slice.hi, policy)
  {
    hide Gather, BarsFromQuotes;
    assert [slice][..0] == [];
    var rows := Gather(files, slice.lo, slice.hi, policy);
    if rows.Ok? {
      assert [] + BarsFromQuotes(fold, rows.value) == BarsFromQuotes(fold, rows.value);
    }
  }

  lemma NextFold(fold: Fold, files: seq<seq<Row>>, before: seq<Slice>, last: Slice, start: Time,
                 policy: DuplicatePolicy)
    requires start <= last.lo <= last.hi && OnEdge(fold, last.lo) && forall f | f in files :: Ascending(f)
    requires FoldAll(fold, files, before, policy) == FoldWindow(fold, files, start, last.lo - 1, policy)
    ensures FoldAll(fold, files, before + [last], policy) == FoldWindow(fold, files, start, last.hi, policy)
  {
    hide Gather, BarsFromQuotes, Ascending, OnEdge;
    assert (before + [last])[..|before|] == before;
    GatherSplits(files, start, last.lo - 1, last.hi, policy);
    var a, b := Gather(files, start, last.lo - 1, policy), Gather(files, last.lo, last.hi, policy);
    if a.Ok? && b.Ok? {
      CutApart(fold, files, start, last.lo, last.hi, policy);
      AscendingParts(files, start, last.lo - 1, last.hi, policy);
      FoldSplits(fold, a.value, b.value);
    }
  }

  lemma AscendingParts(files: seq<seq<Row>>, lo: Time, mid: Time, hi: Time, policy: DuplicatePolicy)
    requires lo <= mid + 1 <= hi + 1 && forall f | f in files :: Ascending(f)
    requires Gather(files, lo, mid, policy).Ok? && Gather(files, mid + 1, hi, policy).Ok?
    ensures var a, b := Gather(files, lo, mid, policy).value, Gather(files, mid + 1, hi, policy).value;
            Ascending(a) && Ascending(b) && Ascending(a + b)
  {
    GatherSplits(files, lo, mid, hi, policy);
    GatheredRowsAreDistinct(files, lo, mid, policy);
    GatheredRowsAreDistinct(files, mid + 1, hi, policy);
    GatheredRowsAreDistinct(files, lo, hi, policy);
    hide Gather, Within, Concat, HasKey;
  }

  // ---- exactly when ------------------------------------------------------------------------------------------------

  /** No row's bar comes at or after the bar of a row in a later slice. */
  ghost predicate Undivided(fold: Fold, rows: seq<Row>, slices: seq<Slice>) {
    forall j, k, x, y |
      0 <= j < k < |slices| && x in rows && y in rows && slices[j].Holds(x.ts) && slices[k].Holds(y.ts) ::
      fold.Earlier(x, y)
  }

  /** The rows of a window cut in two. */
  lemma CutRows(files: seq<seq<Row>>, start: Time, edge: Time, end: Time, policy: DuplicatePolicy)
    returns (a: seq<Row>, b: seq<Row>)
    requires start <= edge <= end && (forall f | f in files :: Ascending(f)) && Gather(files, start, end, policy).Ok?
    ensures Gather(files, start, edge - 1, policy) == Ok(a) && Gather(files, edge, end, policy) == Ok(b)
    ensures Gather(files, start, end, policy) == Ok(a + b) && Ascending(a) && Ascending(b) && Ascending(a + b)
    ensures (forall x | x in a :: start <= x.ts < edge) && (forall y | y in b :: edge <= y.ts <= end)
  {
    hide Gather, Ascending;
    GatherSplits(files, start, edge - 1, end, policy);
    AscendingParts(files, start, edge - 1, end, policy);
    GatheredWithin(files, start, edge - 1, policy);
    GatheredWithin(files, edge, end, policy);
    a, b := Gather(files, start, edge - 1, policy).value, Gather(files, edge, end, policy).value;
  }

  /** The rows of a window cut before its last slice. */
  lemma LastCut(files: seq<seq<Row>>, slices: seq<Slice>, start: Time, end: Time, policy: DuplicatePolicy)
    returns (a: seq<Row>, b: seq<Row>)
    requires Partition(slices, start, end) && |slices| > 1 && forall f | f in files :: Ascending(f)
    requires Gather(files, start, end, policy).Ok?
    ensures Partition(slices[..|slices| - 1], start, slices[|slices| - 1].lo - 1)
    ensures Gather(files, start, slices[|slices| - 1].lo - 1, policy) == Ok(a)
    ensures Gather(files, slices[|slices| - 1].lo, slices[|slices| - 1].hi, policy) == Ok(b)
    ensures Gather(files, start, end, policy) == Ok(a + b) && Ascending(a) && Ascending(b) && Ascending(a + b)
    ensures forall x | x in a :: start <= x.ts < slices[|slices| - 1].lo
    ensures forall y | y in b :: slices[|slices| - 1].Holds(y.ts)
  {
    hide Gather, Ascending, Partition;
    var last := slices[|slices| - 1];
    PartitionInit(slices, start, end);
    a, b := CutRows(files, start, last.lo, end, policy);
  }

  /** Cutting rows in time before the last slice, what lies in two slices lies on one side or on both. */
  lemma UndividedNext(fold: Fold, a: seq<Row>, b: seq<Row>, slices: seq<Slice>, start: Time, end: Time)
    requires Partition(slices, start, end) && |slices| > 1
    requires forall x | x in a :: start <= x.ts < slices[|slices| - 1].lo
    requires forall y | y in b :: slices[|slices| - 1].Holds(y.ts)
    ensures Undivided(fold, a + b, slices) <==>
            Undivided(fold, a, slices[..|slices| - 1]) && BarsApart(fold, a, b)
  {
    var n := |slices| - 1;
    var before, last := slices[..n], slices[n];
    PartitionBounds(slices, start, end, n);
    PartitionInit(slices, start, end);
    hide Fold.Earlier, Partition;
    assert slices == before + [last];
    if Undivided(fold, a + b, slices) {
      forall j, k, x, y | 0 <= j < k < |before| && x in a && y in a && before[j].Holds(x.ts) && before[k].Holds(y.ts)
        ensures fold.Earlier(x, y)
      {
        assert slices[j].Holds(x.ts) && slices[k].Holds(y.ts) && x in a + b && y in a + b;
      }
      forall x, y | x in a && y in b
        ensures fold.Earlier(x, y)
      {
        var j := PartitionCovers(before, start, last.lo - 1, x.ts);
        assert slices[j].Holds(x.ts) && slices[n].Holds(y.ts) && x in a + b && y in a + b;
      }
    }
    if Undivided(fold, a, before) && BarsApart(fold, a, b) {
      forall j, k, x, y | 0 <= j < k < |slices| && x in a + b && y in a + b && slices[j].Holds(x.ts)
                          && slices[k].Holds(y.ts)
        ensures fold.Earlier(x, y)
      {
        assert slices[j].hi < last.lo;
        assert x in a;
        if k < n {
          assert slices[k].hi < last.lo;
          assert before[j].Holds(x.ts) && before[k].Holds(y.ts) && y in a;
        } else {
          assert y in b;
        }
      }
    }
  }

  /** Streaming bars every row, and in order only if no bar is divided. */
  lemma {:induction false} StreamedBars(fold: Fold, files: seq<seq<Row>>, slices: seq<Slice>, start: Time, end: Time,
                                        policy: DuplicatePolicy)
    requires Partition(slices, start, end) && forall f | f in files :: Ascending(f)
    requires Gather(files, start, end, policy).Ok? && FoldAll(fold, files, slices, policy).Ok?
    ensures
      var rows, bars := Gather(files, start, end, policy).value, FoldAll(fold, files, slices, policy).value;
      (forall x | x in rows :: Barred(fold, bars, x)) && (InOrder(bars) ==> Undivided(fold, rows, slices))
    decreases |slices|
  {
    if |slices| == 1 {
      assert slices == [slices[0]];
      OneFold(fold, files, slices[0], policy);
      GatheredRowsAreDistinct(files, start, end, policy);
      BarsFromQuotesIsFold(fold, Gather(files, start, end, policy).value);
    } else {
      var before, last := slices[..|slices| - 1], slices[|slices| - 1];
      var a, b := LastCut(files, slices, start, end, policy);
      hide Gather, Partition, BarsFromQuotes, Ascending, InOrder, Barred, Undivided, BarsApart;
      StreamedBars(fold, files, before, start, last.lo - 1, policy);
      var left, right := FoldAll(fold, files, before, policy).value, BarsFromQuotes(fold, b);
      assert FoldAll(fold, files, slices, policy) == Ok(left + right);
      BarsFromQuotesIsFold(fold, b);
      forall x | x in a + b ensures Barred(fold, left + right, x) {
        BarredEitherSide(fold, left, right, x);
      }
      if InOrder(left + right) {
        InOrderLeft(left, right);
        OrderedSides(fold, a, b, left, right);
        UndividedNext(fold, a, b, slices, start, end);
      }
    }
  }

  lemma InOrderLeft(left: seq<FoldedBar>, right: seq<FoldedBar>)
    requires InOrder(left + right)
    ensures InOrder(left)
  {
    assert forall i | 0 <= i < |left| :: (left + right)[i] == left[i];
  }

  /** Undivided bars stream whole. */
  lemma {:induction false} UndividedStreams(fold: Fold, files: seq<seq<Row>>, slices: seq<Slice>, start: Time,
                                            end: Time, policy: DuplicatePolicy)
    requires Partition(slices, start, end) && forall f | f in files :: Ascending(f)
    requires Gather(files, start, end, policy).Ok? && Undivided(fold, Gather(files, start, end, policy).value, slices)
    ensures FoldAll(fold, files, slices, policy) == FoldWindow(fold, files, start, end, policy)
    decreases |slices|
  {
    if |slices| == 1 {
      assert slices == [slices[0]];
      OneFold(fold, files, slices[0], policy);
    } else {
      var before, last := slices[..|slices| - 1], slices[|slices| - 1];
      var a, b := LastCut(files, slices, start, end, policy);
      hide Gather, Partition, BarsFromQuotes, Ascending, Undivided, BarsApart;
      UndividedNext(fold, a, b, slices, start, end);
      UndividedStreams(fold, files, before, start, last.lo - 1, policy);
      FoldSplits(fold, a, b);
    }
  }

  /** However a window is cut, streaming its slices folds the bars of the whole window exactly when no row's bar comes
      at or after the bar of a row in a later slice: a bar two slices share comes out twice, or out of order. */
  lemma SlicesFoldIff(fold: Fold, files: seq<seq<Row>>, slices: seq<Slice>, start: Time, end: Time,
                      policy: DuplicatePolicy)
    requires Partition(slices, start, end) && forall f | f in files :: Ascending(f)
    requires Gather(files, start, end, policy).Ok?
    ensures FoldAll(fold, files, slices, policy) == FoldWindow(fold, files, start, end, policy) <==>
            Undivided(fold, Gather(files, start, end, policy).value, slices)
  {
    var rows := Gather(files, start, end, policy).value;
    GatheredRowsAreDistinct(files, start, end, policy);
    BarsFromQuotesIsFold(fold, rows);
    hide Gather, Partition, BarsFromQuotes, Undivided, InOrder, FoldAll, Genuine, Barred;
    if Undivided(fold, rows, slices) {
      UndividedStreams(fold, files, slices, start, end, policy);
    } else if FoldAll(fold, files, slices, policy) == FoldWindow(fold, files, start, end, policy) {
      StreamedBars(fold, files, slices, start, end, policy);
    }
  }

  // ---- a window from the epoch -------------------------------------------------------------------------------------

  /** Two quotes of one symbol, an instant apart in one two-wide bar. */
  const EARLY := Row(1, 0, 1.0, 2.0, 0)
  const LATER := Row(2, 0, 1.0, 2.0, 0)

  /** Aligned from the epoch, slices two wide, as a budget of one row makes them, cut that bar in half: it is streamed
      as two bars of one close. */
  lemma EpochStartDividesABar(basis: PriceBasis)
    ensures
      var fold, files, slices := Fold(2, basis), [[EARLY, LATER]], [Slice(0, 1), Slice(2, 3)];
      && Partition(slices, 0, 3) && fold.BucketOf(EARLY) == fold.BucketOf(LATER) == 2
      && FoldAll(fold, files, slices, KeepFirst) != FoldWindow(fold, files, 0, 3, KeepFirst)
  {
    var fold, files, slices := Fold(2, basis), [[EARLY, LATER]], [Slice(0, 1), Slice(2, 3)];
    hide Gather, FoldAll, FoldWindow;
    var rows := BothGathered();
    var i :| 0 <= i < |rows| && rows[i].SameKey(EARLY);
    var j :| 0 <= j < |rows| && rows[j].SameKey(LATER);
    assert slices[0].Holds(rows[i].ts) && slices[1].Holds(rows[j].ts) && !fold.Earlier(rows[i], rows[j]);
    SlicesFoldIff(fold, files, slices, 0, 3, KeepFirst);
  }

  lemma BothGathered() returns (rows: seq<Row>)
    ensures Ascending([EARLY, LATER]) && Gather([[EARLY, LATER]], 0, 3, KeepFirst) == Ok(rows)
    ensures HasKey(rows, EARLY) && HasKey(rows, LATER)
  {
    var files := [[EARLY, LATER]];
    assert Concat(files) == [EARLY, LATER] by {
      assert files[..0] == [];
      assert [] + [EARLY, LATER] == [EARLY, LATER];
    }
    WithinTwo(EARLY, LATER, 0, 3);
    assert Gather(files, 0, 3, KeepFirst).Ok?;
    rows := Gather(files, 0, 3, KeepFirst).value;
    hide Gather, Within, Concat;
    GatheredRowsAreDistinct(files, 0, 3, KeepFirst);
  }

  /** One file of those two rows, read from the epoch one row at a time, is cut so. */
  lemma EpochStartStep()
    ensures AlignedStart(0, 2) == 0 && TotalRows([FileEntry(2, 1, 2)]) == 2
    ensures StepFor([FileEntry(2, 1, 2)], 3, 1, 2) == 2
  {
    var entries := [FileEntry(2, 1, 2)];
    assert TotalRows(entries) == 2 && Earliest(entries) == 1 && Latest(entries) == 2;
  }

  lemma WithinTwo(x: Row, y: Row, lo: Time, hi: Time)
    requires lo <= x.ts <= hi && lo <= y.ts <= hi
    ensures x in Within([x, y], lo, hi) && y in Within([x, y], lo, hi)
  {
    assert [x, y][..1] == [x] && [x][..0] == [];
    assert Within([x], lo, hi) == Within([], lo, hi) + [x];
  }

  // ---- streaming and loading ---------------------------------------------------------------------------------------

  /** The bars that close by the end of the window. */
  function ClosedBy(bars: seq<FoldedBar>, end: Time): seq<FoldedBar> {
    if bars == [] then []
    else
      var last := bars[|bars| - 1];
      ClosedBy(bars[..|bars| - 1], end) + if last.ts <= end then [last] else []
  }

  lemma {:induction false} ClosedByConcat(a: seq<FoldedBar>, b: seq<FoldedBar>, end: Time)
    ensures ClosedBy(a + b, end) == ClosedBy(a, end) + ClosedBy(b, end)
  {
    if b == [] {
      assert a + b == a;
    } else {
      assert (a + b)[..|a + b| - 1] == a + b[..|b| - 1];
      ClosedByConcat(a, b[..|b| - 1], end);
    }
  }

  lemma {:induction false} ClosedByAll(bars: seq<FoldedBar>, end: Time)
    ensures ClosedBy(bars, end) == bars <==> forall b | b in bars :: b.ts <= end
    ensures |ClosedBy(bars, end)| <= |bars|
  {
    if bars != [] {
      var before, last := bars[..|bars| - 1], bars[|bars| - 1];
      ClosedByAll(before, end);
      assert bars == before + [last];
    }
  }

  function Closed(bars: Outcome<seq<FoldedBar>>, end: Time): Outcome<seq<FoldedBar>> {
    var x :- bars;
    Ok(ClosedBy(x, end))
  }

  /** Stream quote bars slice by slice, from the start of the bar that contains `start`. Past the epoch the result is
      the fold of the whole window, whatever the row budget. */
  method Stream(fold: Fold, entries: seq<FileEntry>, files: seq<seq<Row>>, start: Time, end: Time, rowBudget: int,
                policy: DuplicatePolicy)
    returns (bars: Outcome<seq<FoldedBar>>)
    requires forall f | f in files :: Ascending(f)
    ensures start >= 1 && AlignedStart(start, fold.width) <= end ==>
              bars == Closed(FoldWindow(fold, files, AlignedStart(start, fold.width), end, policy), end)
  {
    hide Gather, BarsFromQuotes, FoldAll, FoldWindow, ClosedBy, Ascending, AlignedStart, Unbroken, OnEdge, OnGrid;
    var from := AlignedStart(start, fold.width);
    var slices := Slices(entries, from, end, rowBudget, fold.width);
    if start >= 1 && from <= end {
      CutOnEdges(fold, slices, start);
      SlicesFoldTheWindow(fold, files, slices, from, end, policy);
    }
    var streamed := [];
    NothingStreamed(fold, files, end, policy);
    for k := 0 to |slices|
      invariant Closed(FoldAll(fold, files, slices[..k], policy), end) == Ok(streamed)
    {
      assert slices[..k + 1] == slices[..k] + [slices[k]];
      var rows := Gather(files, slices[k].lo, slices[k].hi, policy);
      if rows.Raised? {
        FoldStops(fold, files, slices, k, policy);
        return Raised(rows.error);
      }
      StreamedNext(fold, files, slices[..k], slices[k], end, policy);
      streamed := streamed + ClosedBy(BarsFromQuotes(fold, rows.value), end);
    }
    assert slices[..|slices|] == slices;
    return Ok(streamed);
  }

  lemma NothingStreamed(fold: Fold, files: seq<seq<Row>>, end: Time, policy: DuplicatePolicy)
    ensures Closed(FoldAll(fold, files, [], policy), end) == Ok([])
  {
  }

  lemma StreamedNext(fold: Fold, files: seq<seq<Row>>, before: seq<Slice>, slice: Slice, end: Time,
                     policy: DuplicatePolicy)
    requires FoldAll(fold, files, before, policy).Ok? && Gather(files, slice.lo, slice.hi, policy).Ok?
    ensures Closed(FoldAll(fold, files, before + [slice], policy), end) ==
            Ok(ClosedBy(FoldAll(fold, files, before, policy).value, end)
               + ClosedBy(BarsFromQuotes(fold, Gather(files, slice.lo, slice.hi, policy).value), end))
  {
    hide Gather, BarsFromQuotes;
    assert (before + [slice])[..|before|] == before;
    ClosedByConcat(FoldAll(fold, files, before, policy).value,
                   BarsFromQuotes(fold, Gather(files, slice.lo, slice.hi, policy).value), end);
  }

  /** Cuts on the grid of an aligned start past the epoch are bar edges. */
  lemma CutOnEdges(fold: Fold, slices: seq<Slice>, start: Time)
    requires start >= 1 && (fold.width > 0 ==> OnGrid(slices, AlignedStart(start, fold.width), fold.width))
    ensures forall k | 0 < k < |slices| :: OnEdge(fold, slices[k].lo)
  {
    if fold.width > 0 {
      AlignedStartOnEdge(start, fold.width);
    }
  }

  /** An error in one slice ends the stream. */
  lemma {:induction false} FoldStops(fold: Fold, files: seq<seq<Row>>, slices: seq<Slice>, k: nat,
                                     policy: DuplicatePolicy)
    requires k < |slices| && FoldAll(fold, files, slices[..k], policy).Ok?
    requires Gather(files, slices[k].lo, slices[k].hi, policy).Raised?
    ensures FoldAll(fold, files, slices, policy) == Raised(Gather(files, slices[k].lo, slices[k].hi, policy).error)
    decreases |slices|
  {
    hide Gather, BarsFromQuotes;
    var n := |slices| - 1;
    if k < n {
      assert slices[..n][..k] == slices[..k];
      assert slices[..n][k] == slices[k];
      FoldStops(fold, files, slices[..n], k, policy);
    }
  }

  /** Dropping the bars that close after the end drops none exactly when no row's bar does, and so whenever the end is
      itself a bar close. */
  lemma EndDecides(fold: Fold, files: seq<seq<Row>>, start: Time, end: Time, policy: DuplicatePolicy)
    requires (forall f | f in files :: Ascending(f)) && Gather(files, start, end, policy).Ok?
    ensures var rows := Gather(files, start, end, policy).value;
            && (ClosedBy(BarsFromQuotes(fold, rows), end) == BarsFromQuotes(fold, rows) <==> forall row | row in rows ::
                  fold.BucketOf(row) <= end)
            && (fold.width == 0 || end % fold.width == 0 ==>
                  ClosedBy(BarsFromQuotes(fold, rows), end) == BarsFromQuotes(fold, rows))
  {
    var rows := Gather(files, start, end, policy).value;
    var bars := BarsFromQuotes(fold, rows);
    GatheredRowsAreDistinct(files, start, end, policy);
    WithinBounds(Concat(files), start, end);
    hide Gather, Within, Concat, HasKey, BarsFromQuotes, ClosedBy;
    BarsFromQuotesIsFold(fold, rows);
    ClosedByAll(bars, end);
    forall row | row in rows
      ensures (forall b | b in bars :: b.ts <= end) ==> fold.BucketOf(row) <= end
      ensures fold.width == 0 || end % fold.width == 0 ==> fold.BucketOf(row) <= end
    {
      var b :| b in bars && b.symbol == row.symbol && b.ts == fold.BucketOf(row);
      if fold.width > 0 && end % fold.width == 0 {
        ClosesBy(row.ts, end, fold.width);
      }
    }
    forall b | b in bars
      ensures (forall row | row in rows :: fold.BucketOf(row) <= end) ==> b.ts <= end
    {
      var row := GenuineBucket(fold, rows, b);
    }
  }

  lemma ClosesBy(t: Time, end: Time, width: nat)
    requires width > 0 && t <= end && end % width == 0
    ensures Bucket(t, width) <= end
  {
    var q := end / width;
    assert end == q * width;
    QuotientBelow(t - 1, q, width);
  }
}
