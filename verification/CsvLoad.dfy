/** Loading a symbol's bars whole, beside streaming them: `_load_many_uncached` and `_trim_warmup` in
    `sigmaloop/data/providers/csv_provider.py`. */
module CsvLoad {
  import opened Types
  import opened CsvSlices
  import opened CsvTables
  import opened CsvFold

  /** One symbol's bars. */
  function Series(bars: seq<FoldedBar>, symbol: int): seq<FoldedBar> {
    if bars == [] then []
    else Series(bars[..|bars| - 1], symbol) + if bars[|bars| - 1].symbol == symbol then [bars[|bars| - 1]] else []
  }

  /** How many bars close before an instant. */
  function CountBefore(own: seq<FoldedBar>, start: Time): (n: nat)
    ensures n <= |own|
  {
    if own == [] then 0
    else CountBefore(own[..|own| - 1], start) + if own[|own| - 1].ts < start then 1 else 0
  }

  /** The bars of the window and the wanted number before it. */
  function TrimWarmup(own: seq<FoldedBar>, start: Time, warmup: nat): seq<FoldedBar> {
    own[Larger(CountBefore(own, start) - warmup, 0)..]
  }

  /** A symbol's series: read from `readFrom`, which reaches back for the warm-up bars, fold, and trim. */
  function Load(fold: Fold, files: seq<seq<Row>>, readFrom: Time, start: Time, end: Time, policy: DuplicatePolicy,
                warmup: nat, symbol: int): Outcome<seq<FoldedBar>>
  {
    var bars :- FoldWindow(fold, files, AlignedStart(readFrom, fold.width), end, policy);
    Ok(TrimWarmup(Series(bars, symbol), start, warmup))
  }

  // ---- trimming ------------------------------------------------------------------------------------------------

  predicate InTime(own: seq<FoldedBar>) {
    forall i, j | 0 <= i < j < |own| :: own[i].ts <= own[j].ts
  }

  /** In time order the bars before an instant come first. */
  lemma {:induction false} CountSplits(own: seq<FoldedBar>, start: Time)
    requires InTime(own)
    ensures forall i | 0 <= i < |own| :: own[i].ts < start <==> i < CountBefore(own, start)
  {
    if own != [] {
      CountSplits(own[..|own| - 1], start);
      assert forall i | 0 <= i < |own| - 1 :: own[..|own| - 1][i] == own[i];
    }
  }

  /** Trimming keeps every bar of the window and exactly the wanted number before it, or all there are: the latest. */
  lemma TrimKeepsWindow(own: seq<FoldedBar>, start: Time, warmup: nat)
    requires InTime(own)
    ensures
      var kept := TrimWarmup(own, start, warmup);
      && own == own[..|own| - |kept|] + kept
      && (forall b | b in own[..|own| - |kept|] :: b.ts < start)
      && CountBefore(kept, start) == Smaller(warmup, CountBefore(own, start))
  {
    var cut := Larger(CountBefore(own, start) - warmup, 0);
    CountSplits(own, start);
    assert own == own[..cut] + own[cut..];
    CountConcat(own[..cut], own[cut..], start);
    AllBefore(own[..cut], start);
  }

  lemma {:induction false} CountConcat(a: seq<FoldedBar>, b: seq<FoldedBar>, start: Time)
    ensures CountBefore(a + b, start) == CountBefore(a, start) + CountBefore(b, start)
  {
    if b == [] {
      assert a + b == a;
    } else {
      assert (a + b)[..|a + b| - 1] == a + b[..|b| - 1];
      CountConcat(a, b[..|b| - 1], start);
    }
  }

  lemma {:induction false} AllBefore(own: seq<FoldedBar>, start: Time)
    requires forall b | b in own :: b.ts < start
    ensures CountBefore(own, start) == |own|
  {
    if own != [] {
      AllBefore(own[..|own| - 1], start);
    }
  }

  // ---- one symbol at a time ------------------------------------------------------------------------------------

  lemma {:induction false} SeriesMembers(bars: seq<FoldedBar>, symbol: int)
    ensures forall b :: b in Series(bars, symbol) <==> b in bars && b.symbol == symbol
  {
    if bars != [] {
      SeriesMembers(bars[..|bars| - 1], symbol);
      assert bars == bars[..|bars| - 1] + [bars[|bars| - 1]];
    }
  }

  /** Dropping what closes after the end, and picking a symbol, may be done in either order. */
  lemma {:induction false} SeriesClosed(bars: seq<FoldedBar>, end: Time, symbol: int)
    ensures Series(ClosedBy(bars, end), symbol) == ClosedBy(Series(bars, symbol), end)
  {
    if bars != [] {
      var before, last := bars[..|bars| - 1], bars[|bars| - 1];
      assert before + [last] == bars;
      SeriesClosed(before, end, symbol);
      SeriesNext(before, last, symbol);
      SeriesNext(ClosedBy(before, end), last, symbol);
      ClosedNext(before, last, end);
      ClosedNext(Series(before, symbol), last, end);
      hide Series, ClosedBy;
      SeriesClosedNext(Series(before, symbol), ClosedBy(before, end), last, end, symbol);
    }
  }

  lemma SeriesClosedNext(own: seq<FoldedBar>, closed: seq<FoldedBar>, last: FoldedBar, end: Time, symbol: int)
    ensures own + (if last.symbol == symbol then [last] else []) == if last.symbol == symbol then own + [last] else own
    ensures closed + (if last.ts <= end then [last] else []) == if last.ts <= end then closed + [last] else closed
  {
    assert own + [] == own && closed + [] == closed;
  }

  lemma ClosedNext(bars: seq<FoldedBar>, b: FoldedBar, end: Time)
    ensures ClosedBy(bars + [b], end) == ClosedBy(bars, end) + if b.ts <= end then [b] else []
  {
    assert (bars + [b])[..|bars|] == bars;
  }

  lemma SeriesNext(bars: seq<FoldedBar>, b: FoldedBar, symbol: int)
    ensures Series(bars + [b], symbol) == Series(bars, symbol) + if b.symbol == symbol then [b] else []
  {
    assert (bars + [b])[..|bars|] == bars;
  }

  // ---- streaming and loading -----------------------------------------------------------------------------------

  /** Every bar of a window read from its aligned start closes at or after the start. */
  lemma WindowClosesLater(fold: Fold, files: seq<seq<Row>>, start: Time, end: Time, policy: DuplicatePolicy)
    requires start >= 1 && (forall f | f in files :: Ascending(f))
    requires Gather(files, AlignedStart(start, fold.width), end, policy).Ok?
    ensures
      var rows := Gather(files, AlignedStart(start, fold.width), end, policy).value;
      Ascending(rows) && forall b | b in BarsFromQuotes(fold, rows) :: b.ts >= start
  {
    var from := AlignedStart(start, fold.width);
    var rows := Gather(files, from, end, policy).value;
    GatheredRowsAreDistinct(files, from, end, policy);
    WithinBounds(Concat(files), from, end);
    hide Gather, Within, Concat, HasKey, BarsFromQuotes, AlignedStart;
    BarsFromQuotesIsFold(fold, rows);
    forall b | b in BarsFromQuotes(fold, rows) ensures b.ts >= start {
      var row := GenuineBucket(fold, rows, b);
      assert row.ts >= from;
      BucketStart(start, row.ts, fold.width);
    }
  }

  lemma BucketStart(start: Time, t: Time, width: nat)
    requires start >= 1 && t >= AlignedStart(start, width)
    ensures Bucket(t, width) >= start
  {
    if width > 0 {
      AlignedStartOnEdge(start, width);
      BucketMonotone(AlignedStart(start, width), t, width);
      CoversOwn(start, width);
    }
  }

  /** A bar closes no earlier than any instant in it. */
  lemma CoversOwn(t: Time, width: nat)
    requires width > 0
    ensures Bucket(t, width) >= t
  {
    var q := (t - 1) / width;
    assert t - 1 == q * width + (t - 1) % width;
    assert (q + 1) * width == q * width + width;
  }

  lemma NothingTrimmed(own: seq<FoldedBar>, start: Time)
    requires forall b | b in own :: b.ts >= start
    ensures TrimWarmup(own, start, 0) == own
  {
    NoneBefore(own, start);
  }

  lemma {:induction false} NoneBefore(own: seq<FoldedBar>, start: Time)
    requires forall b | b in own :: b.ts >= start
    ensures CountBefore(own, start) == 0
  {
    if own != [] {
      NoneBefore(own[..|own| - 1], start);
    }
  }

  /** Without warm-up, past the epoch, a symbol's loaded series is its bars of the fold, those that close after the end
      included; streaming drops those, so the two agree for every symbol exactly when no row's bar closes after the end,
      and so whenever the end is itself a bar close. */
  lemma StreamingMatchesLoading(fold: Fold, files: seq<seq<Row>>, start: Time, end: Time, policy: DuplicatePolicy)
    requires start >= 1 && (forall f | f in files :: Ascending(f))
    requires Gather(files, AlignedStart(start, fold.width), end, policy).Ok?
    ensures
      var rows := Gather(files, AlignedStart(start, fold.width), end, policy).value;
      var streamed := Closed(FoldWindow(fold, files, AlignedStart(start, fold.width), end, policy), end);
      && streamed.Ok?
      && (forall symbol ::
            Load(fold, files, start, start, end, policy, 0, symbol) == Ok(Series(BarsFromQuotes(fold, rows), symbol)))
      && ((forall symbol ::
             Load(fold, files, start, start, end, policy, 0, symbol) == Ok(Series(streamed.value, symbol)))
            <==> forall row | row in rows :: fold.BucketOf(row) <= end)
      && (fold.width == 0 || end % fold.width == 0 ==> forall row | row in rows :: fold.BucketOf(row) <= end)
  {
    var from := AlignedStart(start, fold.width);
    var rows := Gather(files, from, end, policy).value;
    var bars := BarsFromQuotes(fold, rows);
    assert FoldWindow(fold, files, from, end, policy) == Ok(bars);
    WindowClosesLater(fold, files, start, end, policy);
    EndDecides(fold, files, from, end, policy);
    hide Gather, BarsFromQuotes, AlignedStart, Ascending;
    forall symbol ensures TrimWarmup(Series(bars, symbol), start, 0) == Series(bars, symbol) {
      SeriesMembers(bars, symbol);
      NothingTrimmed(Series(bars, symbol), start);
    }
    SeriesAgree(bars, end);
    forall symbol
      ensures SameSeries(ClosedBy(bars, end), bars, symbol) <==>
              Load(fold, files, start, start, end, policy, 0, symbol) == Ok(Series(ClosedBy(bars, end), symbol))
    {
      assert Load(fold, files, start, start, end, policy, 0, symbol) == Ok(Series(bars, symbol));
    }
  }

  predicate SameSeries(a: seq<FoldedBar>, b: seq<FoldedBar>, symbol: int) {
    Series(a, symbol) == Series(b, symbol)
  }

  /** All symbols' series lose nothing exactly when no bar is dropped. */
  lemma SeriesAgree(bars: seq<FoldedBar>, end: Time)
    ensures (forall symbol :: SameSeries(ClosedBy(bars, end), bars, symbol)) <==> ClosedBy(bars, end) == bars
  {
    ClosedByAll(bars, end);
    if forall symbol :: SameSeries(ClosedBy(bars, end), bars, symbol) {
      forall b | b in bars ensures b.ts <= end {
        assert SameSeries(ClosedBy(bars, end), bars, b.symbol);
        SeriesMembers(bars, b.symbol);
        SeriesClosed(bars, end, b.symbol);
        ClosedByAll(Series(bars, b.symbol), end);
      }
    }
  }
}
