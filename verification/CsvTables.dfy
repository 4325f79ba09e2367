/** Gathering rows from several files, window by window: `sigmaloop/data/providers/csv_provider.py`. */
module CsvTables {
  import opened Types
  import opened CsvSlices

  /** One row; `symbol` is the ticker's rank in string order, `rest` the columns nothing here reads. */
  datatype Row = Row(ts: Time, symbol: int, bid: real, ask: real, rest: int) {
    predicate Leq(other: Row) {
      ts < other.ts || (ts == other.ts && symbol <= other.symbol)
    }

    predicate SameKey(other: Row) {
      ts == other.ts && symbol == other.symbol
    }
  }

  datatype DuplicatePolicy = KeepFirst | KeepLast | Strict

  predicate Ascending(rows: seq<Row>) {
    forall i, j | 0 <= i < j < |rows| :: rows[i].Leq(rows[j])
  }

  predicate StrictlyAscending(rows: seq<Row>) {
    Ascending(rows) && forall i, j | 0 <= i < j < |rows| :: !rows[i].SameKey(rows[j])
  }

  /** The rows of a window, in file order. */
  function Within(rows: seq<Row>, lo: Time, hi: Time): seq<Row> {
    if rows == [] then []
    else
      var last := rows[|rows| - 1];
      Within(rows[..|rows| - 1], lo, hi) + if lo <= last.ts <= hi then [last] else []
  }

  function Concat(tables: seq<seq<Row>>): seq<Row> {
    if tables == [] then [] else Concat(tables[..|tables| - 1]) + tables[|tables| - 1]
  }

  /** Place a row after every row not later than it. */
  function Insert(rows: seq<Row>, x: Row): seq<Row> {
    if rows == [] || rows[|rows| - 1].Leq(x) then rows + [x]
    else Insert(rows[..|rows| - 1], x) + [rows[|rows| - 1]]
  }

  /** A stable sort by timestamp, then symbol. */
  function StableSort(rows: seq<Row>): seq<Row> {
    if rows == [] then [] else Insert(StableSort(rows[..|rows| - 1]), rows[|rows| - 1])
  }

  /** Row `i` has the key of the row before it. */
  predicate Repeats(rows: seq<Row>, i: int) {
    0 < i < |rows| && rows[i].SameKey(rows[i - 1])
  }

  predicate HasDuplicates(rows: seq<Row>) {
    exists i | 0 < i < |rows| :: Repeats(rows, i)
  }

  /** Of each run of rows with one key, the first. */
  function Firsts(rows: seq<Row>): seq<Row> {
    if rows == [] then []
    else if |rows| > 1 && rows[|rows| - 1].SameKey(rows[|rows| - 2]) then Firsts(rows[..|rows| - 1])
    else Firsts(rows[..|rows| - 1]) + [rows[|rows| - 1]]
  }

  /** Of each run of rows with one key, the last. */
  function Lasts(rows: seq<Row>): seq<Row> {
    if rows == [] then []
    else if |rows| > 1 && rows[0].SameKey(rows[1]) then Lasts(rows[1..])
    else [rows[0]] + Lasts(rows[1..])
  }

  function Deduplicate(rows: seq<Row>, policy: DuplicatePolicy): Outcome<seq<Row>> {
    if !HasDuplicates(rows) then Ok(rows)
    else match policy
      case Strict => Raised(DuplicateRows)
      case KeepFirst => Ok(Firsts(rows))
      case KeepLast => Ok(Lasts(rows))
  }

  /** The non-empty windows of the files. */
  function Windows(files: seq<seq<Row>>, lo: Time, hi: Time): seq<seq<Row>> {
    if files == [] then []
    else
      var rows := Within(files[|files| - 1], lo, hi);
      Windows(files[..|files| - 1], lo, hi) + if rows == [] then [] else [rows]
  }

  /** Read a window from every file, order it and de-duplicate it. A single table is taken as it comes. */
  function Gather(files: seq<seq<Row>>, lo: Time, hi: Time, policy: DuplicatePolicy): Outcome<seq<Row>> {
    var tables := Windows(files, lo, hi);
    Deduplicate(if |tables| == 1 then tables[0] else StableSort(Concat(tables)), policy)
  }

  /** What streaming the slices one after another yields. */
  function GatherAll(files: seq<seq<Row>>, slices: seq<Slice>, policy: DuplicatePolicy): Outcome<seq<Row>> {
    if slices == [] then Ok([])
    else
      var before :- GatherAll(files, slices[..|slices| - 1], policy);
      var last := slices[|slices| - 1];
      var rows :- Gather(files, last.lo, last.hi, policy);
      Ok(before + rows)
  }

  // ---- sorting ---------------------------------------------------------------------------------------------------

  lemma {:induction false} InsertMembers(rows: seq<Row>, x: Row)
    ensures forall y :: y in Insert(rows, x) <==> y == x || y in rows
  {
    if rows == [] || rows[|rows| - 1].Leq(x) {
    } else {
      InsertMembers(rows[..|rows| - 1], x);
      assert rows == rows[..|rows| - 1] + [rows[|rows| - 1]];
    }
  }

  lemma {:induction false} InsertAscending(rows: seq<Row>, x: Row)
    requires Ascending(rows)
    ensures Ascending(Insert(rows, x))
  {
    if rows == [] || rows[|rows| - 1].Leq(x) {
    } else {
      InsertAscending(rows[..|rows| - 1], x);
      InsertMembers(rows[..|rows| - 1], x);
      var before, last := rows[..|rows| - 1], rows[|rows| - 1];
      forall y | y in Insert(before, x)
        ensures y.Leq(last)
      {
        assert y != x ==> exists k :: 0 <= k < |before| && rows[k] == y;
      }
    }
  }

  lemma {:induction false} SortAscending(rows: seq<Row>)
    ensures Ascending(StableSort(rows)) && forall y :: y in StableSort(rows) <==> y in rows
  {
    if rows != [] {
      var before, last := rows[..|rows| - 1], rows[|rows| - 1];
      SortAscending(before);
      InsertAscending(StableSort(before), last);
      InsertMembers(StableSort(before), last);
      assert rows == before + [last];
    }
  }

  lemma SortLast(before: seq<Row>, last: Row)
    ensures StableSort(before + [last]) == Insert(StableSort(before), last)
  {
    assert (before + [last])[..|before|] == before;
  }

  /** Sorting sorted rows changes nothing. */
  lemma {:induction false} SortSorted(rows: seq<Row>)
    requires Ascending(rows)
    ensures StableSort(rows) == rows
  {
    if rows != [] {
      var before, last := rows[..|rows| - 1], rows[|rows| - 1];
      SortSorted(before);
      assert before + [last] == rows;
      assert before != [] ==> rows[|before| - 1].Leq(rows[|before|]);
      hide Ascending, StableSort;
      SortLast(before, last);
    }
  }

  /** A row no later than everything in `b` lands in `a`. */
  lemma {:induction false} InsertLeft(a: seq<Row>, b: seq<Row>, x: Row)
    requires forall y | y in b :: x.ts < y.ts
    ensures Insert(a + b, x) == Insert(a, x) + b
  {
    if b == [] {
      assert a + b == a;
    } else {
      var rest, last := b[..|b| - 1], b[|b| - 1];
      InsertLeft(a, rest, x);
      assert last in b && (a + b)[..|a + b| - 1] == a + rest && b == rest + [last];
    }
  }

  lemma {:induction false} InsertRight(a: seq<Row>, b: seq<Row>, x: Row)
    requires forall y | y in a :: y.ts < x.ts
    ensures Insert(a + b, x) == a + Insert(b, x)
  {
    if b == [] {
      assert a + b == a;
    } else if !b[|b| - 1].Leq(x) {
      InsertRight(a, b[..|b| - 1], x);
      assert (a + b)[..|a + b| - 1] == a + b[..|b| - 1];
    }
  }

  /** A stable sort may be done either side of an instant apart. */
  lemma {:induction false} SortSplits(rows: seq<Row>, lo: Time, mid: Time, hi: Time)
    requires lo <= mid + 1 <= hi + 1
    ensures StableSort(Within(rows, lo, hi))
              == StableSort(Within(rows, lo, mid)) + StableSort(Within(rows, mid + 1, hi))
  {
    hide Insert, StableSort, Within, Ascending;
    if rows == [] {
      SortNothing(lo, hi);
      SortNothing(lo, mid);
      SortNothing(mid + 1, hi);
    } else {
      var before, x := rows[..|rows| - 1], rows[|rows| - 1];
      assert before + [x] == rows;
      SortSplits(before, lo, mid, hi);
      var left, right := Within(before, lo, mid), Within(before, mid + 1, hi);
      SortNext(before, x, lo, hi);
      SortNext(before, x, lo, mid);
      SortNext(before, x, mid + 1, hi);
      SortAscending(left);
      SortAscending(right);
      WithinBounds(before, lo, mid);
      WithinBounds(before, mid + 1, hi);
      if lo <= x.ts <= mid {
        InsertLeft(StableSort(left), StableSort(right), x);
      } else if mid < x.ts <= hi {
        InsertRight(StableSort(left), StableSort(right), x);
      }
    }
  }

  lemma SortNothing(lo: Time, hi: Time)
    ensures StableSort(Within([], lo, hi)) == []
  {
  }

  lemma SortNext(before: seq<Row>, x: Row, lo: Time, hi: Time)
    ensures StableSort(Within(before + [x], lo, hi)) ==
            if lo <= x.ts <= hi then Insert(StableSort(Within(before, lo, hi)),
                                            x) else StableSort(Within(before, lo, hi))
  {
    var w := Within(before, lo, hi);
    assert (before + [x])[..|before|] == before;
    if lo <= x.ts <= hi {
      assert (w + [x])[..|w|] == w;
    } else {
      assert w + [] == w;
    }
  }

  lemma {:induction false} WithinBounds(rows: seq<Row>, lo: Time, hi: Time)
    ensures forall y | y in Within(rows, lo, hi) :: lo <= y.ts <= hi && y in rows
  {
    if rows != [] {
      WithinBounds(rows[..|rows| - 1], lo, hi);
    }
  }

  // ---- windows over several files ----------------------------------------------------------------------------------

  lemma {:induction false} WithinConcat(a: seq<Row>, b: seq<Row>, lo: Time, hi: Time)
    ensures Within(a + b, lo, hi) == Within(a, lo, hi) + Within(b, lo, hi)
  {
    if b == [] {
      assert a + b == a;
    } else {
      assert (a + b)[..|a + b| - 1] == a + b[..|b| - 1];
      WithinConcat(a, b[..|b| - 1], lo, hi);
    }
  }

  lemma ConcatNext(tables: seq<seq<Row>>, table: seq<Row>)
    ensures Concat(tables + [table]) == Concat(tables) + table
  {
    assert (tables + [table])[..|tables|] == tables;
  }

  /** The windows of the files together are the window of the files together. */
  lemma {:induction false} WindowsConcat(files: seq<seq<Row>>, lo: Time, hi: Time)
    ensures Concat(Windows(files, lo, hi)) == Within(Concat(files), lo, hi)
  {
    if files != [] {
      var before, last := files[..|files| - 1], files[|files| - 1];
      WindowsConcat(before, lo, hi);
      WithinConcat(Concat(before), last, lo, hi);
      ConcatNext(Windows(before, lo, hi), Within(last, lo, hi));
      hide Concat, Within;
      assert Windows(before, lo, hi) + [] == Windows(before, lo, hi);
    }
  }

  lemma {:induction false} WithinAscending(rows: seq<Row>, lo: Time, hi: Time)
    requires Ascending(rows)
    ensures Ascending(Within(rows, lo, hi))
  {
    if rows != [] {
      var before := rows[..|rows| - 1];
      WithinAscending(before, lo, hi);
      WithinBounds(before, lo, hi);
    }
  }

  lemma {:induction false} WindowsAscending(files: seq<seq<Row>>, lo: Time, hi: Time)
    requires forall f | f in files :: Ascending(f)
    ensures forall t | t in Windows(files, lo, hi) :: Ascending(t)
  {
    if files != [] {
      WindowsAscending(files[..|files| - 1], lo, hi);
      WithinAscending(files[|files| - 1], lo, hi);
    }
  }

  /** Every file already sorted, gathering is: take the window of all rows, sort it, de-duplicate it. */
  lemma GatherIs(files: seq<seq<Row>>, lo: Time, hi: Time, policy: DuplicatePolicy)
    requires forall f | f in files :: Ascending(f)
    ensures Gather(files, lo, hi, policy) == Deduplicate(StableSort(Within(Concat(files), lo, hi)), policy)
  {
    var tables := Windows(files, lo, hi);
    WindowsConcat(files, lo, hi);
    WindowsAscending(files, lo, hi);
    hide Windows, Within, StableSort, Deduplicate, Ascending;
    if |tables| == 1 {
      assert tables == [] + [tables[0]];
      ConcatNext([], tables[0]);
      assert Concat([]) + tables[0] == tables[0];
      SortSorted(tables[0]);
    }
  }

  // ---- duplicates ------------------------------------------------------------------------------------------------

  /** No key is shared across a cut in time. */
  predicate Apart(a: seq<Row>, b: seq<Row>) {
    forall x, y | x in a && y in b :: x.ts < y.ts
  }

  lemma DuplicatesSplit(a: seq<Row>, b: seq<Row>)
    requires Apart(a, b)
    ensures HasDuplicates(a + b) <==> HasDuplicates(a) || HasDuplicates(b)
  {
    if a != [] && b != [] {
      assert a[|a| - 1] in a && b[0] in b;
    }
    forall i | 0 < i < |a + b|
      ensures Repeats(a + b, i) == if i < |a| then Repeats(a, i) else Repeats(b, i - |a|)
    {
    }
    if i :| 0 < i < |a| && Repeats(a, i) {
      assert Repeats(a + b, i);
    }
    if i :| 0 < i < |b| && Repeats(b, i) {
      assert Repeats(a + b, |a| + i);
    }
  }

  lemma {:induction false} FirstsSplit(a: seq<Row>, b: seq<Row>)
    requires Apart(a, b)
    ensures Firsts(a + b) == Firsts(a) + Firsts(b)
  {
    if b == [] {
      assert a + b == a;
    } else {
      var rest, last := b[..|b| - 1], b[|b| - 1];
      FirstsSplit(a, rest);
      assert (a + b)[..|a + b| - 1] == a + rest;
      assert last in b && (a != [] ==> a[|a| - 1] in a);
    }
  }

  lemma {:induction false} LastsSplit(a: seq<Row>, b: seq<Row>)
    requires Apart(a, b)
    ensures Lasts(a + b) == Lasts(a) + Lasts(b)
  {
    if a == [] {
      assert a + b == b;
    } else {
      hide Lasts;
      var rest := a[1..];
      LastsNext(a[0], rest);
      LastsNext(a[0], rest + b);
      assert a == [a[0]] + rest && a + b == [a[0]] + (rest + b);
      ApartTail(a, b);
      LastsSplit(rest, b);
    }
  }

  lemma ApartTail(a: seq<Row>, b: seq<Row>)
    requires Apart(a, b) && a != []
    ensures Apart(a[1..], b) && (b != [] ==> !a[0].SameKey(b[0]))
  {
    assert a[0] in a && (b != [] ==> b[0] in b);
  }

  lemma LastsNext(x: Row, rest: seq<Row>)
    ensures Lasts([x] + rest) == if rest != [] && x.SameKey(rest[0]) then Lasts(rest) else [x] + Lasts(rest)
  {
    assert ([x] + rest)[1..] == rest;
  }

  lemma {:induction false} FirstsOfDistinct(rows: seq<Row>)
    requires !HasDuplicates(rows)
    ensures Firsts(rows) == rows
  {
    if rows != [] {
      var before := rows[..|rows| - 1];
      assert forall i :: Repeats(before, i) ==> Repeats(rows, i);
      assert !Repeats(rows, |rows| - 1);
      FirstsOfDistinct(before);
      assert before + [rows[|rows| - 1]] == rows;
    }
  }

  lemma {:induction false} LastsOfDistinct(rows: seq<Row>)
    requires !HasDuplicates(rows)
    ensures Lasts(rows) == rows
  {
    if |rows| > 1 {
      var after := rows[1..];
      assert forall i :: Repeats(after, i) ==> Repeats(rows, i + 1);
      assert !Repeats(rows, 1);
      LastsOfDistinct(after);
      assert [rows[0]] + after == rows;
    }
  }

  /** De-duplicating either side of a cut apart comes to the same, error included. */
  lemma DeduplicateSplits(a: seq<Row>, b: seq<Row>, policy: DuplicatePolicy)
    requires Apart(a, b)
    ensures Deduplicate(a + b, policy) == Joined(Deduplicate(a, policy), Deduplicate(b, policy))
  {
    DuplicatesSplit(a, b);
    FirstsSplit(a, b);
    LastsSplit(a, b);
    if !HasDuplicates(a) {
      FirstsOfDistinct(a);
      LastsOfDistinct(a);
    }
    if !HasDuplicates(b) {
      FirstsOfDistinct(b);
      LastsOfDistinct(b);
    }
    hide HasDuplicates, Firsts, Lasts, Apart;
  }

  function Joined(a: Outcome<seq<Row>>, b: Outcome<seq<Row>>): Outcome<seq<Row>> {
    var x :- a;
    var y :- b;
    Ok(x + y)
  }

  predicate HasKey(rows: seq<Row>, x: Row) {
    exists i | 0 <= i < |rows| :: rows[i].SameKey(x)
  }

  /** `kept` has each key of `rows` once, in order. */
  predicate Collapses(kept: seq<Row>, rows: seq<Row>) {
    && StrictlyAscending(kept)
    && (forall y | y in kept :: y in rows)
    && (forall x | x in rows :: HasKey(kept, x))
  }

  lemma {:induction false} FirstsCollapse(rows: seq<Row>)
    requires Ascending(rows)
    ensures Collapses(Firsts(rows), rows)
    ensures rows != [] ==> Firsts(rows) != [] && Firsts(rows)[|Firsts(rows)| - 1].SameKey(rows[|rows| - 1])
  {
    if rows != [] {
      var before, last := rows[..|rows| - 1], rows[|rows| - 1];
      FirstsCollapse(before);
      var kept, all := Firsts(before), Firsts(rows);
      forall x | x in rows
        ensures HasKey(all, x)
      {
        if x in before {
          var i :| 0 <= i < |kept| && kept[i].SameKey(x);
          assert all[i].SameKey(x);
        } else {
          assert all[|all| - 1].SameKey(x);
        }
      }
    }
  }

  lemma {:induction false} LastsCollapse(rows: seq<Row>)
    requires Ascending(rows)
    ensures Collapses(Lasts(rows), rows)
    ensures rows != [] ==> Lasts(rows) != [] && Lasts(rows)[0].SameKey(rows[0])
  {
    if rows != [] {
      var after, first := rows[1..], rows[0];
      LastsCollapse(after);
      var kept, all := Lasts(after), Lasts(rows);
      var shift := |all| - |kept|;
      forall x | x in rows
        ensures HasKey(all, x)
      {
        if x in after {
          var i :| 0 <= i < |kept| && kept[i].SameKey(x);
          assert all[i + shift].SameKey(x);
        } else {
          assert all[0].SameKey(x);
        }
      }
    }
  }

  lemma DistinctAscends(rows: seq<Row>)
    requires Ascending(rows) && !HasDuplicates(rows)
    ensures Collapses(rows, rows)
  {
    FirstsCollapse(rows);
    FirstsOfDistinct(rows);
  }

  /** What a gathered window holds: every (timestamp, symbol) the files have in it, once, in order. */
  lemma GatheredRowsAreDistinct(files: seq<seq<Row>>, lo: Time, hi: Time, policy: DuplicatePolicy)
    requires (forall f | f in files :: Ascending(f)) && Gather(files, lo, hi, policy).Ok?
    ensures Collapses(Gather(files, lo, hi, policy).value, Within(Concat(files), lo, hi))
  {
    var rows := Within(Concat(files), lo, hi);
    GatherIs(files, lo, hi, policy);
    SortAscending(rows);
    FirstsCollapse(StableSort(rows));
    LastsCollapse(StableSort(rows));
    if !HasDuplicates(StableSort(rows)) {
      DistinctAscends(StableSort(rows));
    }
  }

  lemma GatheredWithin(files: seq<seq<Row>>, lo: Time, hi: Time, policy: DuplicatePolicy)
    requires (forall f | f in files :: Ascending(f)) && Gather(files, lo, hi, policy).Ok?
    ensures forall x | x in Gather(files, lo, hi, policy).value :: lo <= x.ts <= hi
    ensures Ascending(Gather(files, lo, hi, policy).value)
  {
    GatheredRowsAreDistinct(files, lo, hi, policy);
    WithinBounds(Concat(files), lo, hi);
  }

  // ---- which row of a key is kept ----------------------------------------------------------------------------------

  /** The rows with the key of `x`, in order. */
  function OfKey(rows: seq<Row>, x: Row): seq<Row> {
    if rows == [] then []
    else
      var last := rows[|rows| - 1];
      OfKey(rows[..|rows| - 1], x) + if last.SameKey(x) then [last] else []
  }

  lemma OfKeyNext(rows: seq<Row>, last: Row, x: Row)
    ensures OfKey(rows + [last], x) == if last.SameKey(x) then OfKey(rows, x) + [last] else OfKey(rows, x)
  {
    assert (rows + [last])[..|rows|] == rows;
  }

  lemma {:induction false} OfKeyConcat(a: seq<Row>, b: seq<Row>, x: Row)
    ensures OfKey(a + b, x) == OfKey(a, x) + OfKey(b, x)
  {
    if b == [] {
      assert a + b == a;
    } else {
      assert (a + b)[..|a + b| - 1] == a + b[..|b| - 1];
      OfKeyConcat(a, b[..|b| - 1], x);
    }
  }

  lemma {:induction false} OfKeyMembers(rows: seq<Row>, x: Row)
    ensures forall y :: y in OfKey(rows, x) <==> y in rows && y.SameKey(x)
  {
    if rows != [] {
      OfKeyMembers(rows[..|rows| - 1], x);
      assert rows == rows[..|rows| - 1] + [rows[|rows| - 1]];
    }
  }

  lemma {:induction false} InsertOfKey(rows: seq<Row>, x: Row, key: Row)
    requires Ascending(rows)
    ensures OfKey(Insert(rows, x), key) == OfKey(rows, key) + if x.SameKey(key) then [x] else []
  {
    if rows == [] || rows[|rows| - 1].Leq(x) {
      OfKeyNext(rows, x, key);
    } else {
      var before, last := rows[..|rows| - 1], rows[|rows| - 1];
      InsertOfKey(before, x, key);
      OfKeyNext(Insert(before, x), last, key);
    }
  }

  /** The sort is stable: it leaves the rows of each key in the order they came in. */
  lemma {:induction false} SortIsStable(rows: seq<Row>, key: Row)
    ensures OfKey(StableSort(rows), key) == OfKey(rows, key)
  {
    if rows != [] {
      var before, last := rows[..|rows| - 1], rows[|rows| - 1];
      SortIsStable(before, key);
      SortAscending(before);
      InsertOfKey(StableSort(before), last, key);
    }
  }

  /** Of rows in order, `Firsts` keeps the first of each key. */
  lemma {:induction false} FirstsAreFirst(rows: seq<Row>, y: Row)
    requires Ascending(rows) && y in Firsts(rows)
    ensures OfKey(rows, y) != [] && OfKey(rows, y)[0] == y
  {
    var before, last := rows[..|rows| - 1], rows[|rows| - 1];
    if y in Firsts(before) {
      FirstsAreFirst(before, y);
    } else {
      NoneBefore(rows);
    }
  }

  lemma {:induction false} NoneOfKey(rows: seq<Row>, x: Row)
    requires forall k | 0 <= k < |rows| :: !rows[k].SameKey(x)
    ensures OfKey(rows, x) == []
  {
    if rows != [] {
      NoneOfKey(rows[..|rows| - 1], x);
    }
  }

  /** A row that does not repeat the one before it is the first of its key. */
  lemma NoneBefore(rows: seq<Row>)
    requires Ascending(rows) && rows != [] && (|rows| > 1 ==> !rows[|rows| - 1].SameKey(rows[|rows| - 2]))
    ensures OfKey(rows[..|rows| - 1], rows[|rows| - 1]) == []
  {
    var before, last := rows[..|rows| - 1], rows[|rows| - 1];
    forall k | 0 <= k < |before| ensures !before[k].SameKey(last) {
      assert before[k].Leq(rows[|rows| - 2]) by {
        assert k < |rows| - 2 ==> rows[k].Leq(rows[|rows| - 2]);
      }
      assert rows[|rows| - 2].Leq(rows[|rows| - 1]);
    }
    NoneOfKey(before, last);
  }

  /** And `Lasts` the last. */
  lemma {:induction false} LastsAreLast(rows: seq<Row>, y: Row)
    requires Ascending(rows) && y in Lasts(rows)
    ensures OfKey(rows, y) != [] && OfKey(rows, y)[|OfKey(rows, y)| - 1] == y
  {
    var first, after := rows[0], rows[1..];
    assert rows == [first] + after;
    OfKeyConcat([first], after, y);
    if y in Lasts(after) {
      LastsAreLast(after, y);
    } else {
      NoneAfter(rows);
      OfKeyNext([], first, y);
      assert [] + [first] == [first];
    }
  }

  lemma NoneAfter(rows: seq<Row>)
    requires Ascending(rows) && rows != [] && (|rows| > 1 ==> !rows[0].SameKey(rows[1]))
    ensures OfKey(rows[1..], rows[0]) == []
  {
    var first, after := rows[0], rows[1..];
    forall k | 0 <= k < |after| ensures !after[k].SameKey(first) {
      assert rows[1].Leq(after[k]) by {
        assert k > 0 ==> rows[1].Leq(rows[k + 1]);
      }
      assert rows[0].Leq(rows[1]);
    }
    NoneOfKey(after, first);
  }

  lemma {:induction false} OneOfKey(rows: seq<Row>, x: Row)
    requires StrictlyAscending(rows)
    ensures |OfKey(rows, x)| <= 1
  {
    if rows != [] {
      var before, last := rows[..|rows| - 1], rows[|rows| - 1];
      OneOfKey(before, x);
      if last.SameKey(x) {
        assert forall k | 0 <= k < |before| :: !rows[k].SameKey(rows[|before|]) && before[k] == rows[k];
        NoneOfKey(before, x);
      }
    }
  }

  /** Sorted rows repeat one another exactly when some key has more than one. */
  lemma DuplicatesIff(rows: seq<Row>)
    requires Ascending(rows)
    ensures HasDuplicates(rows) <==> exists x :: x in rows && |OfKey(rows, x)| > 1
  {
    if HasDuplicates(rows) {
      var i :| 0 < i < |rows| && Repeats(rows, i);
      var x := rows[i];
      assert rows == rows[..i - 1] + ([rows[i - 1]] + ([x] + rows[i + 1..]));
      OfKeyConcat(rows[..i - 1], [rows[i - 1]] + ([x] + rows[i + 1..]), x);
      OfKeyConcat([rows[i - 1]], [x] + rows[i + 1..], x);
      OfKeyConcat([x], rows[i + 1..], x);
      OfKeyNext([], rows[i - 1], x);
      OfKeyNext([], x, x);
      assert [] + [x] == [x] && [] + [rows[i - 1]] == [rows[i - 1]];
      assert x in rows && |OfKey(rows, x)| > 1;
    } else {
      DistinctAscends(rows);
      forall x | x in rows ensures |OfKey(rows, x)| <= 1 {
        OneOfKey(rows, x);
      }
    }
  }

  /** The row a policy keeps of those with one key. */
  predicate Picked(policy: DuplicatePolicy, same: seq<Row>, y: Row) {
    same != [] && y == if policy.KeepLast? then same[|same| - 1] else same[0]
  }

  lemma DeduplicatePicks(rows: seq<Row>, policy: DuplicatePolicy)
    requires Ascending(rows)
    ensures Deduplicate(rows, policy).Raised? <==> policy.Strict? && exists x :: x in rows && |OfKey(rows, x)| > 1
    ensures Deduplicate(rows, policy).Ok? ==>
              forall y | y in Deduplicate(rows, policy).value :: Picked(policy, OfKey(rows, y), y)
  {
    DuplicatesIff(rows);
    hide OfKey, Firsts, Lasts, Ascending, HasDuplicates;
    if Deduplicate(rows, policy).Ok? {
      forall y | y in Deduplicate(rows, policy).value ensures Picked(policy, OfKey(rows, y), y) {
        if !HasDuplicates(rows) {
          SingleOfKey(rows, y);
        } else if policy.KeepFirst? {
          FirstsAreFirst(rows, y);
        } else {
          LastsAreLast(rows, y);
        }
      }
    }
  }

  /** Gathering fails exactly when it is to be strict and some key has more than one row in the window; otherwise it
      keeps of each key the row that came first, or last, in the order of the files and of their rows. */
  lemma PolicyPicksTheRow(files: seq<seq<Row>>, lo: Time, hi: Time, policy: DuplicatePolicy)
    requires forall f | f in files :: Ascending(f)
    ensures
      var rows, r := Within(Concat(files), lo, hi), Gather(files, lo, hi, policy);
      && (r.Raised? <==> policy.Strict? && exists x :: x in rows && |OfKey(rows, x)| > 1)
      && (r.Ok? ==> forall y | y in r.value :: Picked(policy, OfKey(rows, y), y))
  {
    hide Gather, Within, Concat, StableSort, OfKey, Ascending, Deduplicate, Picked;
    var rows := Within(Concat(files), lo, hi);
    GatherIs(files, lo, hi, policy);
    SortAscending(rows);
    DeduplicatePicks(StableSort(rows), policy);
    forall x ensures OfKey(StableSort(rows), x) == OfKey(rows, x) {
      SortIsStable(rows, x);
    }
  }

  lemma SingleOfKey(rows: seq<Row>, y: Row)
    requires Ascending(rows) && !HasDuplicates(rows) && y in rows
    ensures OfKey(rows, y) == [y]
  {
    DistinctAscends(rows);
    OneOfKey(rows, y);
    OfKeyMembers(rows, y);
    assert y in OfKey(rows, y);
  }

  // ---- slice independence ----------------------------------------------------------------------------------------

  /** Gathering a window in two parts is gathering it whole. */
  lemma GatherSplits(files: seq<seq<Row>>, lo: Time, mid: Time, hi: Time, policy: DuplicatePolicy)
    requires lo <= mid + 1 <= hi + 1 && forall f | f in files :: Ascending(f)
    ensures Gather(files, lo, hi, policy) == Joined(Gather(files, lo, mid, policy), Gather(files, mid + 1, hi, policy))
  {
    var rows := Concat(files);
    GatherIs(files, lo, hi, policy);
    GatherIs(files, lo, mid, policy);
    GatherIs(files, mid + 1, hi, policy);
    SortSplits(rows, lo, mid, hi);
    var a, b := StableSort(Within(rows, lo, mid)), StableSort(Within(rows, mid + 1, hi));
    SortAscending(Within(rows, lo, mid));
    SortAscending(Within(rows, mid + 1, hi));
    WithinBounds(rows, lo, mid);
    WithinBounds(rows, mid + 1, hi);
    hide Gather, Within, StableSort, Deduplicate, Ascending;
    DeduplicateSplits(a, b, policy);
  }

  /** However a window is sliced, streaming the slices yields the window's rows, or its error. */
  lemma {:induction false} SlicesGatherTheWindow(files: seq<seq<Row>>, slices: seq<Slice>, start: Time, end: Time,
                                                 policy: DuplicatePolicy)
    requires Partition(slices, start, end) && forall f | f in files :: Ascending(f)
    ensures GatherAll(files, slices, policy) == Gather(files, start, end, policy)
  {
    hide Gather, Ascending, Joined, GatherAll;
    var before, last := slices[..|slices| - 1], slices[|slices| - 1];
    if before == [] {
      assert slices == [last];
      OneSlice(files, last, policy);
    } else {
      PartitionInit(slices, start, end);
      assert last.lo <= last.hi;
      hide Partition;
      SlicesGatherTheWindow(files, before, start, last.lo - 1, policy);
      NextSlice(files, before, last, start, policy);
      assert before + [last] == slices;
    }
  }

  lemma OneSlice(files: seq<seq<Row>>, slice: Slice, policy: DuplicatePolicy)
    ensures GatherAll(files, [slice], policy) == Gather(files, slice.lo, slice.hi, policy)
  {
    hide Gather, Joined;
    GatherLast(files, [], slice, policy);
    EmptyJoins(Gather(files, slice.lo, slice.hi, policy));
    assert [] + [slice] == [slice];
  }

  lemma NextSlice(files: seq<seq<Row>>, before: seq<Slice>, last: Slice, start: Time, policy: DuplicatePolicy)
    requires start <= last.lo <= last.hi && forall f | f in files :: Ascending(f)
    requires GatherAll(files, before, policy) == Gather(files, start, last.lo - 1, policy)
    ensures GatherAll(files, before + [last], policy) == Gather(files, start, last.hi, policy)
  {
    hide Gather, Joined, GatherAll, Ascending;
    GatherLast(files, before, last, policy);
    GatherSplits(files, start, last.lo - 1, last.hi, policy);
  }

  lemma GatherLast(files: seq<seq<Row>>, before: seq<Slice>, last: Slice, policy: DuplicatePolicy)
    ensures GatherAll(files, before + [last], policy)
              == Joined(GatherAll(files, before, policy), Gather(files, last.lo, last.hi, policy))
  {
    assert (before + [last])[..|before|] == before;
  }

  /** All slices but the last partition the window up to it. */
  lemma PartitionInit(slices: seq<Slice>, start: Time, end: Time)
    requires Partition(slices, start, end) && |slices| > 1
    ensures Partition(slices[..|slices| - 1], start, slices[|slices| - 1].lo - 1)
    ensures start <= slices[|slices| - 1].lo <= end && slices[|slices| - 1].hi == end
  {
    PartitionBounds(slices, start, end, |slices| - 1);
  }

  lemma EmptyJoins(a: Outcome<seq<Row>>)
    ensures Joined(Ok([]), a) == a
  {
    if a.Ok? {
      assert [] + a.value == a.value;
    }
  }
}
