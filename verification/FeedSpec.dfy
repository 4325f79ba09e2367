/** What merging means: sort the union of the sources by time, group it by instant, keep the first item offered for
    each slot. `Feeds.MergedDataFeed` is the merge itself. */
module FeedSpec {
  import opened Types

  /** An instrument id, by its rank in string order. */
  type Key = int

  /** One bar or option chain; `payload` is everything else it carries. */
  datatype Item = Item(at: Time, chain: bool, key: Key, payload: int) {
    predicate SameSlot(other: Item) {
      chain == other.chain && key == other.key
    }
  }

  /** An item with the source it came from. */
  datatype Entry = Entry(index: nat, item: Item)

  /** The order of the heap: time, then key, then source. */
  predicate Before(a: Entry, b: Entry) {
    || a.item.at < b.item.at
    || (a.item.at == b.item.at && (a.item.key < b.item.key || (a.item.key == b.item.key && a.index <= b.index)))
  }

  predicate Sorted(es: seq<Entry>) {
    forall i, j | 0 <= i < j < |es| :: Before(es[i], es[j])
  }

  predicate TimeSorted(es: seq<Entry>) {
    forall i, j | 0 <= i < j < |es| :: es[i].item.at <= es[j].item.at
  }

  /** The items that came from one source, in order. */
  function Of(es: seq<Entry>, i: nat): seq<Item> {
    if es == [] then []
    else Of(es[..|es| - 1], i) + if es[|es| - 1].index == i then [es[|es| - 1].item] else []
  }

  datatype Snapshot = Snapshot(at: Time, bars: map<Key, Item>, chains: map<Key, Item>) {
    predicate Has(item: Item) {
      if item.chain then item.key in chains else item.key in bars
    }

    function Lookup(chain: bool, key: Key): Option<Item> {
      if chain then (if key in chains then Some(chains[key]) else None)
      else if key in bars then Some(bars[key]) else None
    }

    /** The first item offered for a slot is kept. */
    function Absorb(item: Item): Snapshot {
      if Has(item) then this
      else if item.chain then Snapshot(at, bars, chains[item.key := item])
      else Snapshot(at, bars[item.key := item], chains)
    }

    function Size(): nat {
      |bars| + |chains|
    }
  }

  function Empty(at: Time): Snapshot {
    Snapshot(at, map[], map[])
  }

  /** Group a time-sorted sequence by instant. */
  function Group(order: seq<Entry>): seq<Snapshot> {
    if order == [] then []
    else
      var g, item := Group(order[..|order| - 1]), order[|order| - 1].item;
      if g != [] && g[|g| - 1].at == item.at then g[..|g| - 1] + [g[|g| - 1].Absorb(item)]
      else g + [Empty(item.at).Absorb(item)]
  }

  function Slots(g: seq<Snapshot>): nat {
    if g == [] then 0 else Slots(g[..|g| - 1]) + g[|g| - 1].Size()
  }

  /** How many items found their slot taken. */
  function Shadowed(order: seq<Entry>): nat {
    if order == [] then 0
    else
      var g, item := Group(order[..|order| - 1]), order[|order| - 1].item;
      Shadowed(order[..|order| - 1]) + if g != [] && g[|g| - 1].at == item.at && g[|g| - 1].Has(item) then 1 else 0
  }

  // ---- what grouping achieves ----------------------------------------------------------------------------------

  lemma GroupNext(order: seq<Entry>, e: Entry)
    ensures
      var g := Group(order);
      var joins := g != [] && g[|g| - 1].at == e.item.at;
      && Group(order + [e])
           == (if joins then g[..|g| - 1] + [g[|g| - 1].Absorb(e.item)] else g + [Empty(e.item.at).Absorb(e.item)])
      && Shadowed(order + [e]) == Shadowed(order) + if joins && g[|g| - 1].Has(e.item) then 1 else 0
  {
    assert (order + [e])[..|order|] == order;
  }

  lemma {:induction false} GroupEnd(order: seq<Entry>)
    ensures order == [] <==> Group(order) == []
    ensures order != [] ==> Group(order)[|Group(order)| - 1].at == order[|order| - 1].item.at
  {
    if order != [] {
      GroupEnd(order[..|order| - 1]);
    }
  }

  /** Timestamps strictly increase from one snapshot to the next. */
  lemma {:induction false} GroupsIncrease(order: seq<Entry>)
    requires TimeSorted(order)
    ensures forall i, j | 0 <= i < j < |Group(order)| :: Group(order)[i].at < Group(order)[j].at
  {
    if order != [] {
      var before, e := order[..|order| - 1], order[|order| - 1];
      assert before + [e] == order;
      InTime(before, e);
      GroupsIncrease(before);
      GroupEnd(before);
      GroupNext(before, e);
      hide Group, TimeSorted;
      IncreaseNext(Group(before), e.item, Group(order));
    }
  }

  lemma IncreaseNext(g: seq<Snapshot>, item: Item, h: seq<Snapshot>)
    requires forall i, j | 0 <= i < j < |g| :: g[i].at < g[j].at
    requires g != [] ==> g[|g| - 1].at <= item.at
    requires h == if g != [] && g[|g| - 1].at == item.at then g[..|g| - 1] + [g[|g| - 1].Absorb(item)]
                  else g + [Empty(item.at).Absorb(item)]
    ensures forall i, j | 0 <= i < j < |h| :: h[i].at < h[j].at
  {
  }

  /** Every item read is either in a snapshot or counted as shadowed. */
  lemma {:induction false} NothingLost(order: seq<Entry>)
    ensures |order| == Slots(Group(order)) + Shadowed(order)
  {
    if order != [] {
      var before, item := order[..|order| - 1], order[|order| - 1].item;
      var g := Group(before);
      NothingLost(before);
      if g != [] && g[|g| - 1].at == item.at {
        var last := g[|g| - 1];
        assert (g[..|g| - 1] + [last.Absorb(item)])[..|g| - 1] == g[..|g| - 1];
        assert last.Absorb(item).Size() == last.Size() + if last.Has(item) then 0 else 1;
      } else {
        assert (g + [Empty(item.at).Absorb(item)])[..|g|] == g;
        assert Empty(item.at).Absorb(item).Size() == 1;
      }
    }
  }

  /** The item read first among those at an instant that share a slot. */
  function Leader(order: seq<Entry>, at: Time, chain: bool, key: Key): (r: Option<Item>)
    ensures r.Some? ==> r.value.at == at && r.value.chain == chain && r.value.key == key
  {
    if order == [] then None
    else
      var earlier, item := Leader(order[..|order| - 1], at, chain, key), order[|order| - 1].item;
      if earlier.Some? then earlier
      else if item.at == at && item.chain == chain && item.key == key then Some(item)
      else None
  }

  predicate Offers(e: Entry, at: Time, chain: bool, key: Key) {
    e.item.at == at && e.item.chain == chain && e.item.key == key
  }

  /** Entry `p` is the first for its instant and slot. */
  predicate Leads(order: seq<Entry>, p: nat, at: Time, chain: bool, key: Key) {
    && p < |order| && Offers(order[p], at, chain, key)
    && forall q | 0 <= q < p :: !Offers(order[q], at, chain, key)
  }

  /** A leader is the first item offered; there is none only when nothing is offered. */
  lemma {:induction false} LeaderIsFirst(order: seq<Entry>, at: Time, chain: bool, key: Key) returns (p: nat)
    ensures Leader(order, at, chain, key).None? ==> forall e | e in order :: !Offers(e, at, chain, key)
    ensures Leader(order, at, chain, key).Some? ==>
              Leads(order, p, at, chain, key) && Leader(order, at, chain, key) == Some(order[p].item)
  {
    p := 0;
    if order != [] {
      var before := order[..|order| - 1];
      p := LeaderIsFirst(before, at, chain, key);
      if Leader(before, at, chain, key).None? {
        p := |before|;
        assert forall q | 0 <= q < p :: order[q] == before[q] && before[q] in before;
      }
    }
  }

  lemma {:induction false} NoLeader(order: seq<Entry>, at: Time, chain: bool, key: Key)
    requires forall e | e in order :: e.item.at != at
    ensures Leader(order, at, chain, key).None?
  {
    if order != [] {
      NoLeader(order[..|order| - 1], at, chain, key);
    }
  }

  lemma LeaderNext(order: seq<Entry>, e: Entry, at: Time, chain: bool, key: Key)
    ensures Leader(order + [e], at, chain, key) ==
            if Leader(order, at, chain, key).Some? then Leader(order, at, chain, key)
            else if e.item.at == at && e.item.chain == chain && e.item.key == key then Some(e.item)
            else None
  {
    assert (order + [e])[..|order|] == order;
  }

  /** A snapshot after one more item: an earlier one, the last one with the item taken in, or a new one. */
  lemma GroupCases(before: seq<Entry>, e: Entry, s: Snapshot)
    requires TimeSorted(before + [e]) && s in Group(before + [e])
    ensures TimeSorted(before)
    ensures var g := Group(before);
            || (s in g && s.at < e.item.at)
            || (g != [] && g[|g| - 1].at == e.item.at && s == g[|g| - 1].Absorb(e.item))
            || ((forall x | x in before :: x.item.at != e.item.at) && s == Empty(e.item.at).Absorb(e.item))
  {
    var g := Group(before);
    InTime(before, e);
    GroupNext(before, e);
    GroupEnd(before);
    GroupsIncrease(before);
    hide Group, TimeSorted, Snapshot.Absorb;
    if g != [] && g[|g| - 1].at == e.item.at {
      assert s in g[..|g| - 1] ==> s.at < g[|g| - 1].at;
    } else if s in g {
      assert s.at <= g[|g| - 1].at;
    }
  }

  lemma InTime(before: seq<Entry>, e: Entry)
    requires TimeSorted(before + [e])
    ensures TimeSorted(before) && forall x | x in before :: x.item.at <= e.item.at
    ensures before != [] ==> forall x | x in before :: x.item.at <= before[|before| - 1].item.at
  {
    var all := before + [e];
    assert forall k | 0 <= k < |before| :: all[k] == before[k] && all[k].item.at <= all[|before|].item.at;
  }

  /** Grouping is faithful: a snapshot holds exactly the slots offered at its instant, each with the item read first. */
  lemma {:induction false} GroupsHoldLeaders(order: seq<Entry>, s: Snapshot, chain: bool, key: Key)
    requires TimeSorted(order) && s in Group(order)
    ensures s.Lookup(chain, key) == Leader(order, s.at, chain, key)
  {
    hide Leader, Group, TimeSorted, Snapshot.Lookup, Snapshot.Absorb;
    GroupEnd(order);
    var before, e := order[..|order| - 1], order[|order| - 1];
    var g := Group(before);
    assert before + [e] == order;
    GroupCases(before, e, s);
    LeaderNext(before, e, s.at, chain, key);
    if s in g && s.at < e.item.at {
      GroupsHoldLeaders(before, s, chain, key);
    } else if g != [] && g[|g| - 1].at == e.item.at && s == g[|g| - 1].Absorb(e.item) {
      GroupsHoldLeaders(before, g[|g| - 1], chain, key);
      AbsorbLookup(g[|g| - 1], e.item, chain, key);
    } else {
      NoLeader(before, e.item.at, chain, key);
      AbsorbLookup(Empty(e.item.at), e.item, chain, key);
    }
  }

  lemma AbsorbLookup(s: Snapshot, item: Item, chain: bool, key: Key)
    ensures s.Absorb(item).at == s.at
    ensures s.Absorb(item).Lookup(chain, key) ==
            if s.Lookup(chain, key).Some? then s.Lookup(chain, key)
            else if item.chain == chain && item.key == key then Some(item)
            else None
    ensures Empty(item.at).Lookup(chain, key) == None && Empty(item.at).at == item.at
  {
  }

  /** Every item read has a snapshot at its instant. */
  lemma {:induction false} GroupsCover(order: seq<Entry>, p: nat) returns (s: Snapshot)
    requires p < |order|
    ensures s in Group(order) && s.at == order[p].item.at
  {
    var before, e := order[..|order| - 1], order[|order| - 1];
    var g, h := Group(before), Group(order);
    assert before + [e] == order;
    GroupNext(before, e);
    hide Group, Snapshot.Absorb;
    if p == |order| - 1 {
      s := h[|h| - 1];
    } else {
      var t := GroupsCover(before, p);
      s := KeptGroup(g, e.item, h, t);
    }
  }

  /** A snapshot outlives the next item, if only by another of its instant. */
  lemma KeptGroup(g: seq<Snapshot>, item: Item, h: seq<Snapshot>, t: Snapshot) returns (s: Snapshot)
    requires t in g
    requires h == if g[|g| - 1].at == item.at then g[..|g| - 1] + [g[|g| - 1].Absorb(item)]
                  else g + [Empty(item.at).Absorb(item)]
    ensures s in h && s.at == t.at
  {
    var k :| 0 <= k < |g| && g[k] == t;
    s := h[k];
  }

  // ---- the merge as a state machine ----------------------------------------------------------------------------

  /** Before every timestamp a source may carry. */
  const NEVER_SEEN: Time := -9_223_372_036_854_775_808

  /** `rests` holds what each open source has left, `lasts` the last timestamp read from it, `heap` the pending items
      in the order the heap pops them. `order` records every pop and `admitted` what each source set out with. */
  datatype Feed = Feed(
    rests: seq<Option<seq<Item>>>, lasts: seq<Time>, heap: seq<Entry>, order: seq<Entry>, admitted: seq<seq<Item>>)

  const NO_FEED := Feed([], [], [], [], [])

  /** A heap push, on the sorted sequence of pops. */
  function Insert(heap: seq<Entry>, e: Entry): seq<Entry> {
    if heap == [] || Before(e, heap[0]) then [e] + heap else [heap[0]] + Insert(heap[1..], e)
  }

  /** Take the next item of a source; a source that runs out is closed, one that goes back in time is an error. */
  function Pull(f: Feed, i: nat): Outcome<Feed>
    requires i < |f.rests| == |f.lasts|
  {
    match f.rests[i]
    case None => Ok(f)
    case Some(rest) =>
      if rest == [] then Ok(f.(rests := f.rests[i := None]))
      else if rest[0].at < f.lasts[i] then Raised(OutOfOrder)
      else Ok(f.(rests := f.rests[i := Some(rest[1..])], lasts := f.lasts[i := rest[0].at],
                 heap := Insert(f.heap, Entry(i, rest[0]))))
  }

  /** A stream without its leading items at or before a floor. */
  function DropUpTo(stream: seq<Item>, floor: Option<Time>): (r: seq<Item>)
    ensures floor.Some? && r != [] ==> r[0].at > floor.value
    ensures |r| <= |stream| && r == stream[|stream| - |r|..]
  {
    if floor.Some? && stream != [] && stream[0].at <= floor.value then DropUpTo(stream[1..], floor) else stream
  }

  /** What a subscription reads of a stream: all but the leading run of items at or before the floor. */
  predicate ReadsFrom(stream: seq<Item>, floor: Option<Time>, read: seq<Item>) {
    && |read| <= |stream| && read == stream[|stream| - |read|..]
    && (forall k | 0 <= k < |stream| - |read| :: floor.Some? && stream[k].at <= floor.value)
    && (floor.Some? && read != [] ==> read[0].at > floor.value)
  }

  lemma {:induction false} DropReads(stream: seq<Item>, floor: Option<Time>)
    ensures ReadsFrom(stream, floor, DropUpTo(stream, floor))
  {
    if floor.Some? && stream != [] && stream[0].at <= floor.value {
      DropReads(stream[1..], floor);
      ReadsFromNext(stream, floor, DropUpTo(stream, floor));
    }
  }

  lemma ReadsFromNext(stream: seq<Item>, floor: Option<Time>, read: seq<Item>)
    requires stream != [] && floor.Some? && stream[0].at <= floor.value && ReadsFrom(stream[1..], floor, read)
    ensures ReadsFrom(stream, floor, read)
  {
    var rest := stream[1..];
    assert rest[|rest| - |read|..] == stream[|stream| - |read|..];
    forall k | 0 <= k < |stream| - |read| ensures stream[k].at <= floor.value {
      assert k > 0 ==> rest[k - 1] == stream[k];
    }
  }

  /** Only one stretch of the stream is that. */
  lemma DropsLeading(stream: seq<Item>, floor: Option<Time>)
    ensures forall read :: read == DropUpTo(stream, floor) <==> ReadsFrom(stream, floor, read)
  {
    DropReads(stream, floor);
    ReadsOnce(stream, floor, DropUpTo(stream, floor));
    hide ReadsFrom, DropUpTo;
  }

  lemma ReadsOnce(stream: seq<Item>, floor: Option<Time>, a: seq<Item>)
    requires ReadsFrom(stream, floor, a)
    ensures forall b | ReadsFrom(stream, floor, b) :: a == b
  {
    forall b | ReadsFrom(stream, floor, b) ensures a == b {
      ReadsNoLess(stream, floor, a, b);
      ReadsNoLess(stream, floor, b, a);
    }
  }

  lemma ReadsNoLess(stream: seq<Item>, floor: Option<Time>, a: seq<Item>, b: seq<Item>)
    requires ReadsFrom(stream, floor, a) && ReadsFrom(stream, floor, b)
    ensures |a| <= |b|
  {
    var k := |stream| - |a|;
    assert a != [] ==> stream[k] == a[0];
  }

  /** No item after the floor is lost, whatever order the stream is in. */
  lemma ReadsAllAfter(stream: seq<Item>, floor: Option<Time>, read: seq<Item>, x: Item)
    requires ReadsFrom(stream, floor, read) && x in stream && (floor.Some? ==> x.at > floor.value)
    ensures x in read
  {
    var k :| 0 <= k < |stream| && stream[k] == x;
    assert read[k - (|stream| - |read|)] == x;
  }

  function Open(f: Feed, stream: seq<Item>): Outcome<Feed>
    requires |f.rests| == |f.lasts|
  {
    Pull(f.(rests := f.rests + [Some(stream)], lasts := f.lasts + [NEVER_SEEN], admitted := f.admitted + [stream]),
         |f.rests|)
  }

  /** Pop the earliest item and refill from its source. */
  function Pop(f: Feed): Outcome<Feed>
    requires f.heap != [] && f.heap[0].index < |f.rests| == |f.lasts|
  {
    Pull(f.(heap := f.heap[1..], order := f.order + [f.heap[0]]), f.heap[0].index)
  }

  // ---- what the merge keeps --------------------------------------------------------------------------------------

  function Rest(rest: Option<seq<Item>>): seq<Item> {
    if rest.Some? then rest.value else []
  }

  /** A source's items are, in order: those popped, the one waiting, those unread; one waits while it is open. */
  predicate Linked(f: Feed, i: nat)
    requires i < |f.rests| == |f.lasts| == |f.admitted|
  {
    && Of(f.order, i) + Of(f.heap, i) + Rest(f.rests[i]) == f.admitted[i]
    && |Of(f.heap, i)| == (if f.rests[i].Some? then 1 else 0)
    && (f.rests[i].Some? ==> f.lasts[i] == Of(f.heap, i)[0].at)
  }

  /** Source `i` is open with nothing waiting, and may be read without going back before the last pop. */
  predicate Drained(f: Feed, i: nat)
    requires i < |f.rests| == |f.lasts| == |f.admitted|
  {
    && f.rests[i].Some? && Of(f.heap, i) == []
    && Of(f.order, i) + f.rests[i].value == f.admitted[i]
    && f.lasts[i] >= NEVER_SEEN
    && (f.order != [] && f.rests[i].value != [] && f.rests[i].value[0].at >= f.lasts[i] ==>
          f.order[|f.order| - 1].item.at <= f.rests[i].value[0].at)
  }

  /** The heap pops in order, nothing waiting is older than the last pop, and pops never went back in time. */
  predicate Ordered(f: Feed) {
    && Sorted(f.heap) && TimeSorted(f.order)
    && (forall e | e in f.heap :: e.item.at >= NEVER_SEEN)
    && (forall e | e in f.heap && f.order != [] :: f.order[|f.order| - 1].item.at <= e.item.at)
  }

  predicate Sized(f: Feed) {
    && |f.rests| == |f.lasts| == |f.admitted|
    && (forall e | e in f.heap :: e.index < |f.rests|)
    && (forall e | e in f.order :: e.index < |f.rests|)
  }

  predicate Inv(f: Feed) {
    Sized(f) && Ordered(f) && forall i | 0 <= i < |f.rests| :: Linked(f, i)
  }

  lemma {:induction false} OfMember(es: seq<Entry>, e: Entry)
    requires e in es
    ensures e.item in Of(es, e.index)
  {
    if e != es[|es| - 1] {
      OfMember(es[..|es| - 1], e);
    }
  }

  lemma {:induction false} OfComes(es: seq<Entry>, i: nat, x: Item)
    requires x in Of(es, i)
    ensures Entry(i, x) in es
  {
    if es[|es| - 1] != Entry(i, x) {
      OfComes(es[..|es| - 1], i, x);
    }
  }

  lemma OfNext(es: seq<Entry>, e: Entry, i: nat)
    ensures Of(es + [e], i) == Of(es, i) + if e.index == i then [e.item] else []
  {
    assert (es + [e])[..|es|] == es;
  }

  lemma {:induction false} OfFront(es: seq<Entry>, i: nat)
    requires es != []
    ensures Of(es, i) == (if es[0].index == i then [es[0].item] else []) + Of(es[1..], i)
  {
    if |es| > 1 {
      OfFront(es[..|es| - 1], i);
      assert es[..|es| - 1][1..] == es[1..][..|es| - 2];
    } else {
      assert es[..0] == [] && es[1..] == [];
    }
  }

  /** Pushing an item of a source with none waiting. */
  lemma {:induction false} OfInsert(heap: seq<Entry>, e: Entry, i: nat)
    requires Of(heap, e.index) == []
    ensures Of(Insert(heap, e), i) == if i == e.index then [e.item] else Of(heap, i)
  {
    OfFront(Insert(heap, e), i);
    if heap == [] || Before(e, heap[0]) {
      assert ([e] + heap)[1..] == heap;
    } else {
      OfFront(heap, i);
      OfFront(heap, e.index);
      OfInsert(heap[1..], e, i);
      assert ([heap[0]] + Insert(heap[1..], e))[1..] == Insert(heap[1..], e);
    }
  }

  lemma {:induction false} InsertMembers(heap: seq<Entry>, e: Entry)
    ensures forall x :: x in Insert(heap, e) <==> x == e || x in heap
    ensures |Insert(heap, e)| == |heap| + 1
  {
    if heap == [] || Before(e, heap[0]) {
    } else {
      InsertMembers(heap[1..], e);
      assert heap == [heap[0]] + heap[1..];
    }
  }

  lemma {:induction false} InsertSorted(heap: seq<Entry>, e: Entry)
    requires Sorted(heap)
    ensures Sorted(Insert(heap, e))
  {
    if heap == [] || Before(e, heap[0]) {
    } else {
      InsertSorted(heap[1..], e);
      InsertMembers(heap[1..], e);
      assert forall x | x in heap[1..] :: Before(heap[0], x);
    }
  }
}
