/** Attaching quotes to bars as of each close, slice by slice: `_QuoteReader` in
    `sigmaloop/data/providers/csv_provider.py`. */
module CsvJoin {
  import opened Types
  import opened CsvSlices
  import opened CsvTables

  /** The key of a bar: which symbol, closing when. */
  datatype BarKey = BarKey(symbol: int, ts: Time)

  /** The last row of a symbol at or before an instant. */
  function AsOf(rows: seq<Row>, symbol: int, t: Time): Option<Row> {
    if rows == [] then None
    else
      var last := rows[|rows| - 1];
      if last.symbol == symbol && last.ts <= t then Some(last) else AsOf(rows[..|rows| - 1], symbol, t)
  }

  function LastOf(rows: seq<Row>, symbol: int): Option<Row> {
    if rows == [] then None
    else
      var last := rows[|rows| - 1];
      if last.symbol == symbol then Some(last) else LastOf(rows[..|rows| - 1], symbol)
  }

  function Held(carry: map<int, Row>, symbol: int): Option<Row> {
    if symbol in carry then Some(carry[symbol]) else None
  }

  /** The quote a bar gets before the age limit: the slice's, else the one carried over. */
  function Best(carry: map<int, Row>, rows: seq<Row>, bar: BarKey): Option<Row> {
    var found := AsOf(rows, bar.symbol, bar.ts);
    if found.Some? then found else Held(carry, bar.symbol)
  }

  /** A quote older than the limit is no quote. */
  function Limited(maxAge: Option<nat>, at: Time, quote: Option<Row>): Option<Row> {
    if quote.Some? && maxAge.Some? && at - quote.value.ts > maxAge.value then None else quote
  }

  /** A quote stays exactly while the limit added to its time reaches the bar. */
  lemma AgeDecides(maxAge: Option<nat>, at: Time, quote: Option<Row>)
    requires quote.Some?
    ensures Limited(maxAge, at, quote) == if maxAge.None? || quote.value.ts + maxAge.value >= at then quote else None
  {
  }

  // ---- as-of lookups ---------------------------------------------------------------------------------------------

  /** In rows sorted by time, as-of is the latest row not after the instant. */
  lemma {:induction false} AsOfIsLatest(rows: seq<Row>, symbol: int, t: Time)
    requires Ascending(rows)
    ensures match AsOf(rows, symbol, t)
            case None => forall x | x in rows && x.symbol == symbol :: x.ts > t
            case Some(found) => found in rows && found.symbol == symbol && found.ts <= t
                                && forall x | x in rows && x.symbol == symbol && x.ts <= t :: x.ts <= found.ts
  {
    if rows != [] {
      var before, last := rows[..|rows| - 1], rows[|rows| - 1];
      AsOfIsLatest(before, symbol, t);
      assert rows == before + [last];
      assert forall k | 0 <= k < |before| :: rows[k].Leq(rows[|before|]);
    }
  }

  // ---- the carry -------------------------------------------------------------------------------------------------

  /** The quote sources of a read. */
  datatype Quotes = Quotes(files: seq<seq<Row>>, policy: DuplicatePolicy) {
    function Window(lo: Time, hi: Time): Outcome<seq<Row>> {
      Gather(files, lo, hi, policy)
    }

    predicate Sorted() {
      forall f | f in files :: Ascending(f)
    }
  }

  lemma WindowBounds(q: Quotes, lo: Time, hi: Time)
    requires q.Sorted() && q.Window(lo, hi).Ok?
    ensures forall x | x in q.Window(lo, hi).value :: lo <= x.ts <= hi
    ensures Ascending(q.Window(lo, hi).value)
  {
    GatheredWithin(q.files, lo, hi, q.policy);
  }

  lemma WindowJoins(q: Quotes, lo: Time, mid: Time, hi: Time)
    requires q.Sorted() && lo <= mid + 1 <= hi + 1 && q.Window(lo, hi).Ok?
    ensures q.Window(lo, mid).Ok? && q.Window(mid + 1, hi).Ok?
    ensures q.Window(lo, hi).value == q.Window(lo, mid).value + q.Window(mid + 1, hi).value
  {
    GatherSplits(q.files, lo, mid, hi, q.policy);
  }

  /** The rows of some instants. */
  ghost predicate IsRead(rows: seq<Row>, own: seq<Row>, lo: Time, hi: Time) {
    Ascending(own) && forall x :: x in own <==> x in rows && lo <= x.ts <= hi
  }

  /** A window inside another holds exactly the other's rows of its instants. */
  lemma WindowInside(q: Quotes, from: Time, lo: Time, hi: Time, end: Time)
    requires q.Sorted() && from <= lo <= hi + 1 <= end + 1 && q.Window(from, end).Ok?
    ensures q.Window(lo, hi).Ok? && IsRead(q.Window(from, end).value, q.Window(lo, hi).value, lo, hi)
  {
    hide Quotes.Window, Quotes.Sorted, Ascending;
    WindowJoins(q, from, lo - 1, end);
    WindowJoins(q, lo, hi, end);
    WindowBounds(q, from, lo - 1);
    WindowBounds(q, lo, hi);
    WindowBounds(q, hi + 1, end);
  }

  // ---- what a run has read ---------------------------------------------------------------------------------------

  /** Some slice before the `k`-th was read, its bars not being none, and reached back over the instant. */
  ghost predicate Covered(slices: seq<Slice>, bars: seq<seq<BarKey>>, frame: nat, k: nat, t: Time)
    requires k <= |slices| == |bars|
  {
    exists m :: 0 <= m < k && bars[m] != [] && slices[m].lo - frame <= t <= slices[m].hi
  }

  /** The last of the rows read before slice `k` that is a symbol's and not after an instant. */
  ghost function AsOfRead(rows: seq<Row>, slices: seq<Slice>, bars: seq<seq<BarKey>>, frame: nat, k: nat, symbol: int,
                          t: Time): Option<Row>
    requires k <= |slices| == |bars|
  {
    if rows == [] then None
    else
      var last := rows[|rows| - 1];
      if last.symbol == symbol && last.ts <= t && Covered(slices, bars, frame, k, last.ts) then Some(last)
      else AsOfRead(rows[..|rows| - 1], slices, bars, frame, k, symbol, t)
  }

  /** `found` is the latest of a symbol's rows that were read before slice `k`, up to an instant if one is given. */
  ghost predicate IsLatest(found: Option<Row>, rows: seq<Row>, slices: seq<Slice>, bars: seq<seq<BarKey>>, frame: nat,
                           k: nat, symbol: int, t: Option<Time>)
    requires k <= |slices| == |bars|
  {
    match found
    case None => forall x | x in rows && x.symbol == symbol && (t.None? || x.ts <= t.value) ::
        !Covered(slices, bars, frame, k, x.ts)
    case Some(r) =>
      && r in rows && r.symbol == symbol && (t.None? || r.ts <= t.value) && Covered(slices, bars, frame, k, r.ts)
      && forall x | x in rows && x.symbol == symbol && (t.None? || x.ts <= t.value)
                    && Covered(slices, bars, frame, k, x.ts) :: x.ts <= r.ts
  }

  lemma NoneAfterLast(rows: seq<Row>)
    requires Ascending(rows) && rows != []
    ensures Ascending(rows[..|rows| - 1]) && forall x | x in rows :: x.ts <= rows[|rows| - 1].ts
  {
    assert forall j | 0 <= j < |rows| - 1 :: rows[j].Leq(rows[|rows| - 1]);
  }

  lemma {:induction false} AsOfReadIsLatest(rows: seq<Row>, slices: seq<Slice>, bars: seq<seq<BarKey>>, frame: nat,
                                            k: nat, symbol: int, t: Time)
    requires Ascending(rows) && k <= |slices| == |bars|
    ensures IsLatest(AsOfRead(rows, slices, bars, frame, k, symbol, t), rows, slices, bars, frame, k, symbol, Some(t))
  {
    if rows != [] {
      var before, last := rows[..|rows| - 1], rows[|rows| - 1];
      hide Covered;
      NoneAfterLast(rows);
      hide Ascending;
      AsOfReadIsLatest(before, slices, bars, frame, k, symbol, t);
      assert rows == before + [last];
    }
  }

  /** Among rows with one per symbol and instant the latest is one row. */
  lemma LatestIsUnique(a: Option<Row>, b: Option<Row>, rows: seq<Row>, slices: seq<Slice>, bars: seq<seq<BarKey>>,
                       frame: nat, k: nat, symbol: int, t: Option<Time>)
    requires StrictlyAscending(rows) && k <= |slices| == |bars|
    requires IsLatest(a, rows, slices, bars, frame, k, symbol, t)
    requires IsLatest(b, rows, slices, bars, frame, k, symbol, t)
    ensures a == b
  {
    hide Covered;
    if a.Some? && b.Some? {
      var i :| 0 <= i < |rows| && rows[i] == a.value;
      var j :| 0 <= j < |rows| && rows[j] == b.value;
      assert rows[i].SameKey(rows[j]);
      OneOfEachKey(rows, i, j);
    }
  }

  lemma OneOfEachKey(rows: seq<Row>, i: nat, j: nat)
    requires StrictlyAscending(rows) && i < |rows| && j < |rows| && rows[i].SameKey(rows[j])
    ensures i == j
  {
  }

  /** What a bar misses: it gets the whole window's quote exactly if there is none, or if some slice read by then, its
      own included, reached back over it. */
  lemma GapDecides(rows: seq<Row>, slices: seq<Slice>, bars: seq<seq<BarKey>>, frame: nat, k: nat, symbol: int, t: Time)
    requires StrictlyAscending(rows) && k <= |slices| == |bars|
    ensures
      var whole := AsOf(rows, symbol, t);
      AsOfRead(rows, slices, bars, frame, k, symbol, t) == whole <==>
          whole.None? || Covered(slices, bars, frame, k, whole.value.ts)
  {
    hide Covered;
    var whole, read := AsOf(rows, symbol, t), AsOfRead(rows, slices, bars, frame, k, symbol, t);
    AsOfIsLatest(rows, symbol, t);
    AsOfReadIsLatest(rows, slices, bars, frame, k, symbol, t);
    if whole.Some? && Covered(slices, bars, frame, k, whole.value.ts) {
      LatestIsUnique(whole, read, rows, slices, bars, frame, k, symbol, Some(t));
    }
  }

  // ---- the carry -------------------------------------------------------------------------------------------------

  /** The carry is each symbol's last row of the windows read before slice `k`. */
  ghost predicate CarryIs(rows: seq<Row>, slices: seq<Slice>, bars: seq<seq<BarKey>>, frame: nat, k: nat,
                          carry: map<int, Row>)
    requires k <= |slices| == |bars|
  {
    forall s :: IsLatest(Held(carry, s), rows, slices, bars, frame, k, s, None)
  }

  /** Slices are read in time order. */
  lemma EarlierEnds(slices: seq<Slice>, bars: seq<seq<BarKey>>, start: Time, end: Time, frame: nat, k: nat, t: Time)
    requires Partition(slices, start, end) && k < |slices| == |bars| && Covered(slices, bars, frame, k, t)
    ensures t < slices[k].lo && Covered(slices, bars, frame, k + 1, t)
  {
    PartitionBounds(slices, start, end, k);
    var m :| 0 <= m < k && bars[m] != [] && slices[m].lo - frame <= t <= slices[m].hi;
  }

  lemma OneMore(slices: seq<Slice>, bars: seq<seq<BarKey>>, frame: nat, k: nat, t: Time)
    requires k < |slices| == |bars|
    ensures Covered(slices, bars, frame, k + 1, t) <==>
            Covered(slices, bars, frame, k, t) || (bars[k] != [] && slices[k].lo - frame <= t <= slices[k].hi)
  {
    if bars[k] != [] && slices[k].lo - frame <= t <= slices[k].hi {
      assert Covered(slices, bars, frame, k + 1, t);
    }
    if Covered(slices, bars, frame, k, t) {
      var m :| 0 <= m < k && bars[m] != [] && slices[m].lo - frame <= t <= slices[m].hi;
      assert Covered(slices, bars, frame, k + 1, t);
    }
  }

  /** A slice's window with the carry behind it sees what all the windows read so far do: the last quote among them at
      or before a bar. */
  lemma CarryBridges(rows: seq<Row>, slices: seq<Slice>, bars: seq<seq<BarKey>>, start: Time, end: Time, frame: nat,
                     k: nat, carry: map<int, Row>, own: seq<Row>, bar: BarKey)
    requires StrictlyAscending(rows) && Partition(slices, start, end) && k < |slices| == |bars|
    requires CarryIs(rows, slices, bars, frame, k, carry) && IsRead(rows, own, slices[k].lo - frame, slices[k].hi)
    requires bars[k] != [] && slices[k].Holds(bar.ts)
    ensures Best(carry, own, bar) == AsOfRead(rows, slices, bars, frame, k + 1, bar.symbol, bar.ts)
  {
    var best := Best(carry, own, bar);
    AsOfIsLatest(own, bar.symbol, bar.ts);
    assert IsLatest(Held(carry, bar.symbol), rows, slices, bars, frame, k, bar.symbol, None);
    forall x | x in rows
      ensures Covered(slices, bars, frame, k + 1, x.ts) <==> Covered(slices, bars, frame, k, x.ts) || x in own
      ensures Covered(slices, bars, frame, k, x.ts) ==> x.ts < slices[k].lo
    {
      OneMore(slices, bars, frame, k, x.ts);
      if Covered(slices, bars, frame, k, x.ts) {
        EarlierEnds(slices, bars, start, end, frame, k, x.ts);
      }
    }
    hide Covered, AsOf, Held, Ascending;
    assert IsLatest(best, rows, slices, bars, frame, k + 1, bar.symbol, Some(bar.ts));
    AsOfReadIsLatest(rows, slices, bars, frame, k + 1, bar.symbol, bar.ts);
    LatestIsUnique(best, AsOfRead(rows, slices, bars, frame, k + 1, bar.symbol, bar.ts), rows, slices, bars, frame,
                   k + 1, bar.symbol, Some(bar.ts));
  }

  lemma {:induction false} LastOfIsLatest(rows: seq<Row>, symbol: int)
    requires Ascending(rows)
    ensures match LastOf(rows, symbol)
            case None => forall x | x in rows :: x.symbol != symbol
            case Some(found) =>
              found in rows && found.symbol == symbol && forall x | x in rows && x.symbol == symbol :: x.ts <= found.ts
  {
    if rows != [] {
      var before, last := rows[..|rows| - 1], rows[|rows| - 1];
      LastOfIsLatest(before, symbol);
      assert rows == before + [last];
      assert forall k | 0 <= k < |before| :: rows[k].Leq(rows[|before|]);
    }
  }

  /** Taking each symbol's last quote of the slice over moves the carry past it. */
  lemma CarryAdvances(rows: seq<Row>, slices: seq<Slice>, bars: seq<seq<BarKey>>, start: Time, end: Time, frame: nat,
                      k: nat, carry: map<int, Row>, own: seq<Row>, after: map<int, Row>)
    requires Partition(slices, start, end) && k < |slices| == |bars|
    requires CarryIs(rows, slices, bars, frame, k, carry) && IsRead(rows, own, slices[k].lo - frame, slices[k].hi)
    requires bars[k] != []
    requires forall s :: Held(after, s) == if LastOf(own, s).Some? then LastOf(own, s) else Held(carry, s)
    ensures CarryIs(rows, slices, bars, frame, k + 1, after)
  {
    forall x | x in rows
      ensures Covered(slices, bars, frame, k + 1, x.ts) <==> Covered(slices, bars, frame, k, x.ts) || x in own
      ensures Covered(slices, bars, frame, k, x.ts) ==> x.ts < slices[k].lo
    {
      OneMore(slices, bars, frame, k, x.ts);
      if Covered(slices, bars, frame, k, x.ts) {
        EarlierEnds(slices, bars, start, end, frame, k, x.ts);
      }
    }
    hide Covered, LastOf, Held, Ascending;
    forall s ensures IsLatest(Held(after, s), rows, slices, bars, frame, k + 1, s, None) {
      LastOfIsLatest(own, s);
      assert IsLatest(Held(carry, s), rows, slices, bars, frame, k, s, None);
    }
  }

  /** A slice passed over unread changes nothing. */
  lemma CarryStays(rows: seq<Row>, slices: seq<Slice>, bars: seq<seq<BarKey>>, frame: nat, k: nat, carry: map<int, Row>)
    requires k < |slices| == |bars| && CarryIs(rows, slices, bars, frame, k, carry) && bars[k] == []
    ensures CarryIs(rows, slices, bars, frame, k + 1, carry)
  {
    forall t: Time ensures Covered(slices, bars, frame, k + 1, t) <==> Covered(slices, bars, frame, k, t) {
      OneMore(slices, bars, frame, k, t);
    }
    hide Covered, Held;
    forall s ensures IsLatest(Held(carry, s), rows, slices, bars, frame, k + 1, s, None) {
      assert IsLatest(Held(carry, s), rows, slices, bars, frame, k, s, None);
    }
  }

  /** What attaching a slice does: each bar gets the slice's quote or the carried one, and the carry takes each symbol's
      last quote; an unreadable slice changes nothing. */
  ghost predicate Attached(q: Quotes, maxAge: Option<nat>, carry: map<int, Row>, back: Time, hi: Time,
                           bars: seq<BarKey>, out: Outcome<seq<Option<Row>>>, after: map<int, Row>) {
    match q.Window(back, hi)
    case Raised(e) => out == Raised(e) && after == carry
    case Ok(rows) =>
      && out.Ok? && |out.value| == |bars|
      && (forall k | 0 <= k < |bars| :: out.value[k] == Limited(maxAge, bars[k].ts, Best(carry, rows, bars[k])))
      && (forall s :: Held(after, s) == if LastOf(rows, s).Some? then LastOf(rows, s) else Held(carry, s))
  }

  /** How far the reader has got before slice `k`: slices without bars are passed over unread. */
  function Reached(slices: seq<Slice>, bars: seq<seq<BarKey>>, k: nat, from: Time): Time
    requires k <= |slices| == |bars|
  {
    if k == 0 then from - 1
    else if bars[k - 1] != [] then slices[k - 1].hi
    else Reached(slices, bars, k - 1, from)
  }

  /** Every slice read reaches back to where the reader got. */
  predicate NoGaps(slices: seq<Slice>, bars: seq<seq<BarKey>>, from: Time, frame: nat) {
    |bars| == |slices| && forall k | 0 <= k < |slices| && bars[k] != [] ::
        slices[k].lo - frame <= Reached(slices, bars, k, from) + 1
  }

  predicate InTheirSlices(slices: seq<Slice>, bars: seq<seq<BarKey>>) {
    |bars| == |slices| && forall k, bar | 0 <= k < |slices| && bar in bars[k] :: slices[k].Holds(bar.ts)
  }

  /** A bar in every slice leaves no gap. */
  lemma BarsEverywhere(slices: seq<Slice>, bars: seq<seq<BarKey>>, start: Time, end: Time, frame: nat)
    requires Partition(slices, start, end) && |bars| == |slices| && forall k | 0 <= k < |bars| :: bars[k] != []
    ensures NoGaps(slices, bars, start - frame, frame)
  {
  }

  // ---- the reader ------------------------------------------------------------------------------------------------

  class QuoteReader {
    const quotes: Quotes
    const frame: nat
    const maxAge: Option<nat>
    var carry: map<int, Row>
    ghost var reached: Time

    /** Every carried quote is its symbol's, and none is later than where the reader has got to. */
    ghost predicate Valid()
      reads this
    {
      quotes.Sorted() && forall s | s in carry :: carry[s].symbol == s && carry[s].ts <= reached
    }

    /** A reader for a window that starts at `start`, which it reads from a frame earlier. */
    constructor (quotes: Quotes, frame: nat, maxAge: Option<nat>, ghost start: Time)
      requires quotes.Sorted()
      ensures Valid() && carry == map[] && reached == start - frame - 1
      ensures this.quotes == quotes && this.frame == frame && this.maxAge == maxAge
    {
      this.quotes, this.frame, this.maxAge, carry, reached := quotes, frame, maxAge, map[], start - frame - 1;
    }

    /** One quote, or none, per bar of a slice; then carry each symbol's last quote over. No quote is from a bar's
        future. */
    method Attach(bars: seq<BarKey>, lo: Time, hi: Time) returns (out: Outcome<seq<Option<Row>>>)
      requires Valid() && reached <= hi
      modifies this
      ensures Valid() && reached == (if out.Ok? then hi else old(reached))
      ensures Attached(quotes, maxAge, old(carry), lo - frame, hi, bars, out, carry)
      ensures out.Ok? ==> |out.value| == |bars|
      ensures out.Ok? ==> forall k | 0 <= k < |bars| && bars[k].ts >= old(reached) && out.value[k].Some? ::
                out.value[k].value.ts <= bars[k].ts && out.value[k].value.symbol == bars[k].symbol
    {
      var gathered := quotes.Window(lo - frame, hi);
      if gathered.Raised? {
        return Raised(gathered.error);
      }
      WindowBounds(quotes, lo - frame, hi);
      hide Gather, Quotes.Window, Quotes.Sorted, AsOf, LastOf, Best, Limited, Ascending, Held;
      var rows, attached := gathered.value, [];
      for k := 0 to |bars|
        invariant |attached| == k && carry == old(carry) && reached == old(reached)
        invariant forall j | 0 <= j < k :: attached[j] == Limited(maxAge, bars[j].ts, Best(carry, rows, bars[j]))
        invariant forall j | 0 <= j < k && bars[j].ts >= reached && attached[j].Some? ::
                    attached[j].value.ts <= bars[j].ts && attached[j].value.symbol == bars[j].symbol
      {
        NoFuture(carry, rows, reached, bars[k], maxAge);
        attached := attached + [Limited(maxAge, bars[k].ts, Best(carry, rows, bars[k]))];
      }
      CarryOver(rows, hi);
      return Ok(attached);
    }

    method CarryOver(rows: seq<Row>, ghost hi: Time)
      requires Valid() && reached <= hi && forall x | x in rows :: x.ts <= hi
      modifies this
      ensures Valid() && reached == hi
      ensures forall s :: Held(carry, s) == if LastOf(rows, s).Some? then LastOf(rows, s) else Held(old(carry), s)
    {
      reached := hi;
      for k := 0 to |rows|
        invariant Valid() && reached == hi
        invariant forall s ::
            Held(carry, s) == if LastOf(rows[..k], s).Some? then LastOf(rows[..k], s) else Held(old(carry), s)
      {
        assert rows[..k + 1][..k] == rows[..k];
        carry := carry[rows[k].symbol := rows[k]];
      }
      assert rows[..|rows|] == rows;
    }

    /** Join a window slice by slice, as streaming does: a slice without bars is passed over. Whatever the slicing, each
        bar gets the last quote at or before it among the windows read by then, and never one from its future. */
    method AttachAll(slices: seq<Slice>, bars: seq<seq<BarKey>>, start: Time, end: Time)
      returns (out: Outcome<seq<seq<Option<Row>>>>)
      requires Valid() && carry == map[] && reached == start - frame - 1
      requires Partition(slices, start, end) && InTheirSlices(slices, bars)
      modifies this
      ensures quotes.Window(start - frame, end).Ok? ==>
                && out.Ok? && |out.value| == |slices|
                && forall k | 0 <= k < |slices| ::
                     JoinedAsRead(quotes.Window(start - frame, end).value, slices, bars, frame, k, maxAge, out.value[k])
      ensures out.Ok? ==> |out.value| == |slices| && forall k | 0 <= k < |slices| :: FromThePast(bars[k], out.value[k])
    {
      hide Quotes.Window, CarryIs, Partition, JoinedAsRead, FromThePast, Attached, Reached;
      ghost var from := start - frame;
      ghost var fine := quotes.Window(from, end).Ok?;
      ghost var rows := if fine then quotes.Window(from, end).value else [];
      var joined := [];
      NothingReached(rows, slices, bars, frame, from);
      for k := 0 to |slices|
        invariant Valid() && reached == Reached(slices, bars, k, from) && |joined| == k
        invariant fine ==> CarryIs(rows, slices, bars, frame, k, carry)
        invariant fine ==> forall j | 0 <= j < k :: JoinedAsRead(rows, slices, bars, frame, j, maxAge, joined[j])
        invariant forall j | 0 <= j < k :: FromThePast(bars[j], joined[j])
      {
        ReachedBefore(slices, bars, k, start, end, from);
        ghost var before := carry;
        if bars[k] == [] {
          joined := joined + [[]];
          NoBars(rows, slices, bars, frame, k, maxAge);
          if fine {
            CarryStays(rows, slices, bars, frame, k, carry);
          }
        } else {
          ghost var earlier := reached;
          var attached := Attach(bars[k], slices[k].lo, slices[k].hi);
          if fine {
            SliceJoins(quotes, slices, bars, start, end, frame, k, before, maxAge, attached, carry);
          }
          if attached.Raised? {
            return Raised(attached.error);
          }
          InTheirTime(slices, bars, k, earlier);
          PastAttached(bars[k], earlier, attached.value);
          joined := joined + [attached.value];
        }
      }
      return Ok(joined);
    }
  }

  /** Each bar of slice `k` has the last quote at or before it among the windows read, subject to the age limit. */
  ghost predicate JoinedAsRead(rows: seq<Row>, slices: seq<Slice>, bars: seq<seq<BarKey>>, frame: nat, k: nat,
                               maxAge: Option<nat>, out: seq<Option<Row>>)
    requires k < |slices| == |bars|
  {
    && |out| == |bars[k]|
    && forall j | 0 <= j < |out| ::
         out[j] == Limited(maxAge, bars[k][j].ts,
                           AsOfRead(rows, slices, bars, frame, k + 1, bars[k][j].symbol, bars[k][j].ts))
  }

  /** No quote is later than its bar, or another symbol's. */
  predicate FromThePast(bars: seq<BarKey>, out: seq<Option<Row>>) {
    |out| == |bars| && forall j | 0 <= j < |bars| && out[j].Some? ::
        out[j].value.ts <= bars[j].ts && out[j].value.symbol == bars[j].symbol
  }

  lemma PastAttached(bars: seq<BarKey>, reached: Time, out: seq<Option<Row>>)
    requires |out| == |bars| && forall bar | bar in bars :: bar.ts >= reached
    requires forall k | 0 <= k < |bars| && bars[k].ts >= reached && out[k].Some? ::
        out[k].value.ts <= bars[k].ts && out[k].value.symbol == bars[k].symbol
    ensures FromThePast(bars, out)
  {
    forall j | 0 <= j < |bars| ensures bars[j].ts >= reached {
      assert bars[j] in bars;
    }
  }

  lemma InTheirTime(slices: seq<Slice>, bars: seq<seq<BarKey>>, k: nat, reached: Time)
    requires InTheirSlices(slices, bars) && k < |slices| && reached < slices[k].lo
    ensures forall bar | bar in bars[k] :: bar.ts >= reached
  {
  }

  lemma NothingReached(rows: seq<Row>, slices: seq<Slice>, bars: seq<seq<BarKey>>, frame: nat, from: Time)
    requires |bars| == |slices|
    ensures Reached(slices, bars, 0, from) == from - 1 && CarryIs(rows, slices, bars, frame, 0, map[])
  {
  }

  lemma NoBars(rows: seq<Row>, slices: seq<Slice>, bars: seq<seq<BarKey>>, frame: nat, k: nat, maxAge: Option<nat>)
    requires k < |slices| == |bars| && bars[k] == []
    ensures JoinedAsRead(rows, slices, bars, frame, k, maxAge, []) && FromThePast(bars[k], [])
  {
  }

  lemma {:induction false} ReachedBefore(slices: seq<Slice>, bars: seq<seq<BarKey>>, k: nat, start: Time, end: Time,
                                         from: Time)
    requires Partition(slices, start, end) && |bars| == |slices| && k < |slices| && from <= start
    ensures from - 1 <= Reached(slices, bars, k, from) < slices[k].lo <= slices[k].hi <= end && start <= slices[k].lo
    ensures Reached(slices, bars, k + 1, from) == if bars[k] != [] then slices[k].hi else Reached(slices, bars, k, from)
  {
    PartitionBounds(slices, start, end, k);
    PartitionBounds(slices, start, end, |slices| - 1);
    if k > 0 {
      ReachedBefore(slices, bars, k - 1, start, end, from);
    }
  }

  /** One slice of a run: its lookups are those of the windows read, and the carry moves past it. */
  lemma SliceJoins(q: Quotes, slices: seq<Slice>, bars: seq<seq<BarKey>>, start: Time, end: Time, frame: nat, k: nat,
                   carry: map<int, Row>, maxAge: Option<nat>, out: Outcome<seq<Option<Row>>>, after: map<int, Row>)
    requires q.Sorted() && q.Window(start - frame, end).Ok? && Partition(slices, start, end)
    requires InTheirSlices(slices, bars)
    requires k < |slices| && bars[k] != [] && CarryIs(q.Window(start - frame, end).value, slices, bars, frame, k, carry)
    requires Attached(q, maxAge, carry, slices[k].lo - frame, slices[k].hi, bars[k], out, after)
    ensures out.Ok? && JoinedAsRead(q.Window(start - frame, end).value, slices, bars, frame, k, maxAge, out.value)
    ensures CarryIs(q.Window(start - frame, end).value, slices, bars, frame, k + 1, after)
  {
    assert |bars| == |slices|;
    hide Quotes.Window, CarryIs, Partition, InTheirSlices, JoinedAsRead;
    var rows := q.Window(start - frame, end).value;
    var own := OwnRows(q, slices, start, end, frame, k);
    SliceLookups(rows, slices, bars, start, end, frame, k, carry, maxAge, own, out.value);
    hide AsOf, AsOfRead, Best, Limited, LastOf, Held, StrictlyAscending, IsRead;
    CarryAdvances(rows, slices, bars, start, end, frame, k, carry, own, after);
  }

  lemma OwnRows(q: Quotes, slices: seq<Slice>, start: Time, end: Time, frame: nat, k: nat) returns (own: seq<Row>)
    requires q.Sorted() && q.Window(start - frame, end).Ok? && Partition(slices, start, end) && k < |slices|
    ensures q.Window(slices[k].lo - frame, slices[k].hi) == Ok(own)
    ensures StrictlyAscending(q.Window(start - frame, end).value)
    ensures IsRead(q.Window(start - frame, end).value, own, slices[k].lo - frame, slices[k].hi)
  {
    hide *;
    SliceWithin(slices, start, end, k);
    WindowInside(q, start - frame, slices[k].lo - frame, slices[k].hi, end);
    WindowDistinct(q, start - frame, end);
    own := q.Window(slices[k].lo - frame, slices[k].hi).value;
  }

  lemma SliceWithin(slices: seq<Slice>, start: Time, end: Time, k: nat)
    requires Partition(slices, start, end) && k < |slices|
    ensures start <= slices[k].lo <= slices[k].hi <= end
  {
    PartitionBounds(slices, start, end, k);
    PartitionBounds(slices, start, end, |slices| - 1);
  }

  lemma SliceLookups(rows: seq<Row>, slices: seq<Slice>, bars: seq<seq<BarKey>>, start: Time, end: Time, frame: nat,
                     k: nat, carry: map<int, Row>, maxAge: Option<nat>, own: seq<Row>, out: seq<Option<Row>>)
    requires StrictlyAscending(rows) && Partition(slices, start, end) && InTheirSlices(slices, bars) && k < |slices|
    requires bars[k] != []
    requires CarryIs(rows, slices, bars, frame, k, carry) && IsRead(rows, own, slices[k].lo - frame, slices[k].hi)
    requires |out| == |bars[k]|
    requires forall j | 0 <= j < |bars[k]| :: out[j] == Limited(maxAge, bars[k][j].ts, Best(carry, own, bars[k][j]))
    ensures JoinedAsRead(rows, slices, bars, frame, k, maxAge, out)
  {
    hide AsOf, AsOfRead, Best, Limited, CarryIs, Partition, StrictlyAscending, IsRead;
    forall j | 0 <= j < |bars[k]|
      ensures Best(carry, own, bars[k][j])
              == AsOfRead(rows, slices, bars, frame, k + 1, bars[k][j].symbol, bars[k][j].ts)
    {
      assert bars[k][j] in bars[k];
      CarryBridges(rows, slices, bars, start, end, frame, k, carry, own, bars[k][j]);
    }
  }

  lemma WindowDistinct(q: Quotes, lo: Time, hi: Time)
    requires q.Sorted() && q.Window(lo, hi).Ok?
    ensures StrictlyAscending(q.Window(lo, hi).value)
  {
    GatheredRowsAreDistinct(q.files, lo, hi, q.policy);
  }

  // ---- runs without gaps, and with one ---------------------------------------------------------------------------

  lemma {:induction false} NoGapsCover(slices: seq<Slice>, bars: seq<seq<BarKey>>, from: Time, frame: nat, k: nat,
                                       t: Time)
    requires NoGaps(slices, bars, from, frame) && k <= |slices| && from <= t <= Reached(slices, bars, k, from)
    ensures Covered(slices, bars, frame, k, t)
  {
    if k > 0 {
      hide Covered;
      OneMore(slices, bars, frame, k - 1, t);
      if t <= Reached(slices, bars, k - 1, from) {
        NoGapsCover(slices, bars, from, frame, k - 1, t);
      }
    }
  }

  /** When every slice read reaches back to where the reader got, each bar gets the whole window's quote. */
  lemma GaplessSeesAll(rows: seq<Row>, slices: seq<Slice>, bars: seq<seq<BarKey>>, start: Time, end: Time, frame: nat,
                       k: nat, bar: BarKey)
    requires StrictlyAscending(rows) && (forall x | x in rows :: start - frame <= x.ts)
    requires Partition(slices, start, end) && NoGaps(slices, bars, start - frame, frame) && InTheirSlices(slices, bars)
    requires k < |slices| && bar in bars[k]
    ensures AsOfRead(rows, slices, bars, frame, k + 1, bar.symbol, bar.ts) == AsOf(rows, bar.symbol, bar.ts)
  {
    GapDecides(rows, slices, bars, frame, k + 1, bar.symbol, bar.ts);
    AsOfIsLatest(rows, bar.symbol, bar.ts);
    var whole := AsOf(rows, bar.symbol, bar.ts);
    if whole.Some? {
      hide Covered;
      NoGapsCover(slices, bars, start - frame, frame, k + 1, whole.value.ts);
    }
  }

  const LONE := Row(15, 1, 0.0, 0.0, 0)
  const TENS := [Slice(0, 9), Slice(10, 19), Slice(20, 29), Slice(30, 39)]
  const ALL_BUT_ONE := [[BarKey(1, 5)], [], [BarKey(1, 25)], [BarKey(1, 35)]]

  /** A quote in a slice without bars is lost to every later one, not only to the next. */
  lemma SkippedQuoteIsLost()
    ensures Partition(TENS, 0, 39) && InTheirSlices(TENS, ALL_BUT_ONE)
    ensures AsOf([LONE], 1, 35) == Some(LONE)
    ensures AsOfRead([LONE], TENS, ALL_BUT_ONE, 1, 3, 1, 25) == None
    ensures AsOfRead([LONE], TENS, ALL_BUT_ONE, 1, 4, 1, 35) == None
  {
    assert [LONE][..0] == [];
    forall k, bar | 0 <= k < 4 && bar in ALL_BUT_ONE[k] ensures TENS[k].Holds(bar.ts) {
      assert k == 0 || k == 1 || k == 2 || k == 3;
    }
    assert forall m | 0 <= m < 4 && ALL_BUT_ONE[m] != [] :: m == 0 || m == 2 || m == 3;
    assert !Covered(TENS, ALL_BUT_ONE, 1, 3, 15) && !Covered(TENS, ALL_BUT_ONE, 1, 4, 15);
  }

  /** What a bar is given was quoted by the time it closed. */
  lemma NoFuture(carry: map<int, Row>, rows: seq<Row>, reached: Time, bar: BarKey, maxAge: Option<nat>)
    requires forall s | s in carry :: carry[s].symbol == s && carry[s].ts <= reached
    ensures var q := Limited(maxAge, bar.ts, Best(carry, rows, bar));
            bar.ts >= reached && q.Some? ==> q.value.ts <= bar.ts && q.value.symbol == bar.symbol
  {
    AsOfFits(rows, bar.symbol, bar.ts);
  }

  lemma {:induction false} AsOfFits(rows: seq<Row>, symbol: int, t: Time)
    ensures var found := AsOf(rows, symbol, t);
            found.Some? ==> found.value.ts <= t && found.value.symbol == symbol
  {
    if rows != [] {
      AsOfFits(rows[..|rows| - 1], symbol, t);
    }
  }
}
