/** How the CSV provider chops a window into slices: `sigmaloop/data/providers/csv_provider.py`. */
module CsvSlices {
  import opened Types
  import opened Division

  /** One source file, as the index describes it. */
  datatype FileEntry = FileEntry(rows: nat, minTs: Time, maxTs: Time)

  datatype Slice = Slice(lo: Time, hi: Time) {
    predicate Holds(t: Time) {
      lo <= t <= hi
    }
  }

  function TotalRows(entries: seq<FileEntry>): nat {
    if entries == [] then 0 else entries[0].rows + TotalRows(entries[1..])
  }

  /** It counts every row of every file. */
  lemma {:induction false} TotalRowsAdds(entries: seq<FileEntry>, k: nat)
    requires k < |entries|
    ensures TotalRows(entries) == TotalRows(entries[..k]) + entries[k].rows + TotalRows(entries[k + 1..])
  {
    if k == 0 {
      assert entries[..0] == [];
    } else {
      TotalRowsAdds(entries[1..], k - 1);
      assert entries[..k][1..] == entries[1..][..k - 1] && entries[1..][k..] == entries[k + 1..];
    }
  }

  function Larger(a: int, b: int): int {
    if a < b then b else a
  }

  function Smaller(a: int, b: int): int {
    if b < a then b else a
  }

  function Earliest(entries: seq<FileEntry>): Time
    requires entries != []
  {
    if |entries| == 1 then entries[0].minTs else Smaller(entries[0].minTs, Earliest(entries[1..]))
  }

  function Latest(entries: seq<FileEntry>): Time
    requires entries != []
  {
    if |entries| == 1 then entries[0].maxTs else Larger(entries[0].maxTs, Latest(entries[1..]))
  }

  const MAX_SLICES := 100_000

  /** The right-labelled close of the bar `(close - width, close]` an instant belongs to. */
  function Bucket(t: Time, width: nat): Time {
    if width == 0 then t else ((t - 1) / width + 1) * width
  }

  /** The start of the bar that contains `start`, clamped to the epoch. */
  function AlignedStart(start: Time, width: nat): Time {
    if width == 0 then start else Larger((start - 1) / width * width + 1, 0)
  }

  // ---- what slicing promises -----------------------------------------------------------------------------------

  /** Contiguous, disjoint and exhaustive over `[start, end]`. */
  predicate Partition(slices: seq<Slice>, start: Time, end: Time) {
    && slices != [] && slices[0].lo == start && slices[|slices| - 1].hi == end
    && (forall k | 0 <= k < |slices| :: slices[k].lo <= slices[k].hi)
    && (forall k | 0 < k < |slices| :: slices[k].lo == slices[k - 1].hi + 1)
  }

  /** No bar has instants in two slices. */
  ghost predicate Unbroken(slices: seq<Slice>, width: nat) {
    forall j, k, t, u | 0 <= j < k < |slices| && slices[j].Holds(t) && slices[k].Holds(u) ::
        Bucket(t, width) != Bucket(u, width)
  }

  /** Every slice after the first starts on the first instant of a bar. */
  predicate OnEdges(slices: seq<Slice>, width: nat) {
    width > 0 && forall k | 0 < k < |slices| :: (slices[k].lo - 1) % width == 0
  }

  lemma {:induction false} PartitionBounds(slices: seq<Slice>, start: Time, end: Time, k: nat)
    requires Partition(slices, start, end) && k < |slices|
    ensures start <= slices[k].lo
    ensures forall j | 0 <= j < k :: slices[j].hi < slices[k].lo
  {
    if k > 0 {
      PartitionBounds(slices, start, end, k - 1);
    }
  }

  /** Every instant of the window lies in exactly one slice, and nothing else does. */
  lemma PartitionCovers(slices: seq<Slice>, start: Time, end: Time, t: Time) returns (k: nat)
    requires Partition(slices, start, end)
    ensures start <= t <= end ==> k < |slices| && slices[k].Holds(t)
    ensures start <= t <= end ==> forall j | 0 <= j < |slices| && slices[j].Holds(t) :: j == k
    ensures !(start <= t <= end) ==> forall j | 0 <= j < |slices| :: !slices[j].Holds(t)
  {
    k := 0;
    forall j | 0 <= j < |slices|
      ensures start <= slices[j].lo && slices[j].hi <= end
    {
      PartitionBounds(slices, start, end, j);
      if j < |slices| - 1 {
        PartitionBounds(slices, start, end, |slices| - 1);
      }
    }
    if start <= t <= end {
      while k < |slices| - 1 && slices[k].hi < t
        invariant k < |slices| && slices[k].lo <= t
      {
        k := k + 1;
      }
      forall j | 0 <= j < |slices| && slices[j].Holds(t)
        ensures j == k
      {
        PartitionBounds(slices, start, end, if j < k then k else j);
      }
    }
  }

  /** A bar edge between two instants separates their bars. */
  lemma EdgeSeparates(t: Time, edge: Time, u: Time, width: nat)
    requires width > 0 && t < edge <= u && (edge - 1) % width == 0
    ensures Bucket(t, width) < Bucket(u, width)
  {
    var q := (edge - 1) / width;
    assert edge - 1 == q * width;
    QuotientBelow(t - 1, q, width);
    QuotientAtLeast(u - 1, q, width);
    assert Bucket(t, width) == ((t - 1) / width + 1) * width <= q * width;
    Monotone((t - 1) / width + 1, (u - 1) / width + 1, width);
  }

  /** Cuts on bar edges break no bar. */
  lemma EdgesUnbroken(slices: seq<Slice>, start: Time, end: Time, width: nat)
    requires Partition(slices, start, end) && OnEdges(slices, width)
    ensures Unbroken(slices, width)
  {
    forall j, k, t, u | 0 <= j < k < |slices| && slices[j].Holds(t) && slices[k].Holds(u)
      ensures Bucket(t, width) != Bucket(u, width)
    {
      PartitionBounds(slices, start, end, k);
      EdgeSeparates(t, slices[k].lo, u, width);
    }
  }

  /** Aligning lands on a bar's first instant exactly when the start is past the epoch, or bars are one instant wide. */
  lemma AlignedStartOnEdge(start: Time, width: nat)
    requires width > 0
    ensures (AlignedStart(start, width) - 1) % width == 0 <==> start >= 1 || width == 1
    ensures start >= 1 ==>
        1 <= AlignedStart(start, width) <= start && Bucket(AlignedStart(start, width), width) == Bucket(start, width)
  {
    var q := (start - 1) / width;
    if start >= 1 {
      QuotientAtLeast(start - 1, 0, width);
      Scale(0, q, width);
      assert AlignedStart(start, width) - 1 == q * width;
      Multiple(q, width);
    } else {
      QuotientBelow(start - 1, 0, width);
      assert AlignedStart(start, width) == 0;
      if width > 1 {
        assert -1 == -1 * width + (width - 1);
        Remainder(-1, width - 1, width);
      }
    }
  }

  /** A cut inside a bar leaves it in two slices. */
  lemma OffEdgeBreaks(slices: seq<Slice>, start: Time, end: Time, width: nat)
    requires Partition(slices, start, end) && |slices| > 1 && width > 0 && (slices[1].lo - 1) % width != 0
    ensures !Unbroken(slices, width)
  {
    var edge := slices[1].lo;
    var q, r := (edge - 1) / width, (edge - 1) % width;
    assert edge - 2 == q * width + (r - 1);
    Remainder(q, r - 1, width);
    assert Bucket(edge - 1, width) == Bucket(edge, width);
    assert slices[0].Holds(edge - 1) && slices[1].Holds(edge);
  }

  /** How far one slice reaches, in whole bars when aligned. */
  function StepFor(entries: seq<FileEntry>, span: nat, budget: int, align: nat): (step: int)
    requires entries != [] && budget > 0 && TotalRows(entries) > 0
    ensures step > 0 && (align > 0 ==> step % align == 0)
  {
    var covered := Larger(Latest(entries) - Earliest(entries), 1);
    var width := Larger(budget * covered / TotalRows(entries), 1);
    var count := Smaller(Larger(span / width + 1, 1), MAX_SLICES);
    var step := span / count + 1;
    if align == 0 then step
    else
      var bars := Larger((step + align - 1) / align, 1);
      Multiple(bars, align);
      Scale(1, bars, align);
      bars * align
  }

  /** The time a budget of rows takes at the files' average density. */
  function BudgetSpan(entries: seq<FileEntry>, budget: int): int
    requires entries != [] && TotalRows(entries) > 0
  {
    Larger(budget * Larger(Latest(entries) - Earliest(entries), 1) / TotalRows(entries), 1)
  }

  /** Before alignment a slice takes no longer than the budget does, and slices of its length cover the span in as few
      as that allows, unless that is more than the most there may be; aligned it is longer by less than a bar. */
  lemma StepFitsBudget(entries: seq<FileEntry>, span: nat, budget: int, align: nat)
    requires entries != [] && budget > 0 && TotalRows(entries) > 0
    ensures
      var step, width := StepFor(entries, span, budget, 0), BudgetSpan(entries, budget);
      var most := Smaller(span / width + 1, MAX_SLICES);
      && span < most * step && (span / width < MAX_SLICES ==> step <= width)
      && (align > 0 ==> step <= StepFor(entries, span, budget, align) < step + align)
  {
    var width := BudgetSpan(entries, budget);
    var count := Smaller(Larger(span / width + 1, 1), MAX_SLICES);
    var step := span / count + 1;
    QuotientAtLeast(span, 0, width);
    assert count == Smaller(span / width + 1, MAX_SLICES) && count > 0;
    assert span < count * step by {
      assert span == span / count * count + span % count;
      assert count * step == span / count * count + count;
    }
    if span / width < MAX_SLICES {
      assert span < count * width by {
        assert span == span / width * width + span % width;
        assert count * width == span / width * width + width;
      }
      QuotientBelow(span, width, count);
    }
    if align > 0 {
      RoundsUp(step, align);
    }
  }

  lemma RoundsUp(step: int, align: nat)
    requires step > 0 && align > 0
    ensures
      var bars := (step + align - 1) / align;
      bars >= 1 && step <= bars * align < step + align
  {
    var n := step + align - 1;
    assert n == n / align * align + n % align;
    QuotientAtLeast(n, 1, align);
  }

  /** Split `[start, end]` into slices of roughly the row budget, cut on multiples of `align` from the start. The cuts
      break no bar exactly when there are none, or the start is itself the first instant of a bar. */
  method Slices(entries: seq<FileEntry>, start: Time, end: Time, rowBudget: int,
                align: nat) returns (slices: seq<Slice>)
    ensures start <= end ==> Partition(slices, start, end)
    ensures start > end ==> slices == [Slice(start, end)]
    ensures TotalRows(entries) <= Larger(rowBudget, 1) ==> |slices| == 1
    ensures start <= end && align > 0 ==> OnGrid(slices, start, align)
    ensures start <= end && align > 0 ==> (Unbroken(slices, align) <==> |slices| == 1 || (start - 1) % align == 0)
  {
    var span, total, budget := end - start, TotalRows(entries), Larger(rowBudget, 1);
    if span <= 0 || total <= budget {
      return [Slice(start, end)];
    }
    slices := Cut(start, end, StepFor(entries, span, budget, align), align);
    if align > 0 {
      GridDecides(slices, start, end, align);
    }
  }

  method Cut(start: Time, end: Time, step: int, align: nat) returns (slices: seq<Slice>)
    requires start <= end && step > 0 && (align > 0 ==> step % align == 0)
    ensures Partition(slices, start, end)
    ensures align > 0 ==> OnGrid(slices, start, align)
  {
    hide Place;
    slices := [];
    var cursor := start;
    while cursor <= end
      invariant slices == [] ==> cursor == start
      invariant slices != [] ==> Partition(slices, start, Smaller(cursor - 1, end))
      invariant align > 0 ==> Place(cursor, align) == Place(start, align) && OnGrid(slices, start, align)
      decreases end + step - cursor
    {
      if align > 0 {
        StrideKeepsPlace(cursor, step, align);
      }
      slices := slices + [Slice(cursor, Smaller(cursor + step - 1, end))];
      cursor := cursor + step;
    }
  }

  /** Every cut has the start's place within a bar. */
  predicate OnGrid(slices: seq<Slice>, start: Time, width: nat) {
    width > 0 && forall k | 0 < k < |slices| :: Place(slices[k].lo, width) == Place(start, width)
  }

  /** Where in its bar an instant lies. */
  function Place(t: Time, width: nat): int
    requires width > 0
  {
    (t - 1) % width
  }

  lemma StrideKeepsPlace(t: Time, step: int, width: nat)
    requires width > 0 && step % width == 0
    ensures Place(t + step, width) == Place(t, width)
  {
    SameResidue(t - 1, step / width, width);
  }

  lemma GridDecides(slices: seq<Slice>, start: Time, end: Time, width: nat)
    requires Partition(slices, start, end) && OnGrid(slices, start, width)
    ensures Unbroken(slices, width) <==> |slices| == 1 || (start - 1) % width == 0
  {
    if |slices| > 1 {
      if (start - 1) % width == 0 {
        EdgesUnbroken(slices, start, end, width);
      } else {
        OffEdgeBreaks(slices, start, end, width);
      }
    }
  }
}
