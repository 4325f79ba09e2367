/** The heap-merging feed, working in place: `sigmaloop/data/feed.py`. */
module Feeds {
  import opened Types
  import opened FeedSpec
  import opened FeedMerge

  /** Streams as a subscription sees them: nothing at or before the floor. */
  function Floored(streams: seq<seq<Item>>, floor: Option<Time>): seq<seq<Item>> {
    seq(|streams|, i requires 0 <= i < |streams| => DropUpTo(streams[i], floor))
  }

  /** From the `n`-th source on, the feed reads these streams past the floor. */
  predicate ReadsAll(admitted: seq<seq<Item>>, n: nat, streams: seq<seq<Item>>, floor: Option<Time>) {
    && |admitted| == n + |streams|
    && forall i | 0 <= i < |streams| :: ReadsFrom(streams[i], floor, admitted[n + i])
  }

  lemma FlooredReads(admitted: seq<seq<Item>>, streams: seq<seq<Item>>, floor: Option<Time>)
    ensures ReadsAll(admitted + Floored(streams, floor), |admitted|, streams, floor)
  {
    FlooredAt(streams, floor);
    forall i | 0 <= i < |streams| ensures ReadsFrom(streams[i], floor,
                                                    (admitted + Floored(streams, floor))[|admitted| + i]) {
      DropsLeading(streams[i], floor);
    }
  }

  function LastAt(order: seq<Entry>): Time {
    if order == [] then NEVER_SEEN else order[|order| - 1].item.at
  }

  /** Nothing waiting belongs to an instant already emitted. */
  predicate Ahead(f: Feed) {
    f.order != [] ==> forall e | e in f.heap :: f.order[|f.order| - 1].item.at < e.item.at
  }

  predicate AllMonotone(streams: seq<seq<Item>>) {
    forall i | 0 <= i < |streams| :: Monotone(streams[i])
  }

  /** No item carries the sentinel the feed starts its clock at. */
  predicate AllSeen(streams: seq<seq<Item>>) {
    forall i, x | 0 <= i < |streams| && x in streams[i] :: x.at > NEVER_SEEN
  }

  lemma SeenTail(a: seq<seq<Item>>, b: seq<seq<Item>>)
    ensures AllSeen(a + b) ==> AllSeen(b)
  {
    assert forall i | 0 <= i < |b| :: b[i] == (a + b)[|a| + i];
  }

  lemma FlooredAtNone(streams: seq<seq<Item>>)
    ensures Floored(streams, None) == streams
  {
  }

  class MergedDataFeed {
    const window: Option<(Time, Time)>
    var prepared: bool
    var registry: set<Key>
    var iterators: seq<Option<seq<Item>>>
    var sourceLast: seq<Time>
    var heap: seq<Entry>
    var lastEmitted: Time
    var shadowed: nat
    var current: Option<Snapshot>
    ghost var order: seq<Entry>
    ghost var admitted: seq<seq<Item>>
    ghost var emitted: seq<Snapshot>

    ghost function View(): Feed
      reads this`iterators, this`sourceLast, this`heap, this`order, this`admitted
    {
      Feed(iterators, sourceLast, heap, order, admitted)
    }

    /** Between snapshots: everything popped has been emitted, grouped by instant, and the clock stands at the last;
        nothing has been before the plan is open. */
    ghost predicate Valid()
      reads this`prepared, this`iterators, this`sourceLast, this`heap, this`lastEmitted, this`shadowed, this`current
      reads this`order, this`admitted, this`emitted
    {
      && (order != [] ==> prepared)
      && Inv(View()) && Won(View()) && Ahead(View())
      && emitted == Group(order) && shadowed == Shadowed(order) && lastEmitted == LastAt(order)
      && current == (if emitted == [] then None else Some(emitted[|emitted| - 1]))
    }

    constructor (window: Option<(Time, Time)>)
      ensures Valid() && View() == NO_FEED && !prepared && registry == {} && this.window == window
    {
      this.window, prepared := window, false;
      registry, iterators, sourceLast, heap, lastEmitted, shadowed, current := {}, [], [], [], NEVER_SEEN, 0, None;
      order, admitted, emitted := [], [], [];
    }

    /** Advance one source: its head joins the heap, unless it is spent or has gone back in time. */
    method Pull(index: nat) returns (error: Option<Error>)
      requires index < |iterators| == |sourceLast|
      modifies this`iterators, this`sourceLast, this`heap
      ensures FeedSpec.Pull(old(View()), index) == match error case Some(e) => Raised(e) case None => Ok(View())
    {
      if iterators[index].None? {
        return None;
      }
      var rest := iterators[index].value;
      if rest == [] {
        iterators := iterators[index := None];
        return None;
      }
      if rest[0].at < sourceLast[index] {
        return Some(OutOfOrder);
      }
      iterators := iterators[index := Some(rest[1..])];
      sourceLast := sourceLast[index := rest[0].at];
      heap := Insert(heap, Entry(index, rest[0]));
      return None;
    }

    /** Admit a stream, less whatever it holds up to the floor, and put its head on the heap. */
    method OpenSource(stream: seq<Item>, floor: Option<Time>) returns (error: Option<Error>)
      requires Valid() && (order != [] ==> floor == Some(LastAt(order)))
      modifies this`iterators, this`sourceLast, this`heap, this`admitted
      ensures error.None? ==> Valid() && admitted == old(admitted) + [DropUpTo(stream, floor)]
      ensures error.None? ==> ReadsAll(admitted, |old(admitted)|, [stream], floor)
      ensures error.Some? ==> DropUpTo(stream, floor) != [] && DropUpTo(stream, floor)[0].at < NEVER_SEEN
    {
      hide Inv, Won, Ahead, Group, Shadowed, DropUpTo, FeedSpec.Pull;
      var kept := DropUpTo(stream, floor);
      DropsLeading(stream, floor);
      ghost var f := View();
      OpenLater(f, kept);
      iterators, sourceLast, admitted := iterators + [Some(kept)], sourceLast + [NEVER_SEEN], admitted + [kept];
      error := Pull(|iterators| - 1);
    }

    lemma Clock()
      requires Valid()
      ensures current.Some? <==> order != []
      ensures current.Some? ==> current.value.at == LastAt(order)
    {
      GroupEnd(order);
    }

    method OpenAll(streams: seq<seq<Item>>, floor: Option<Time>) returns (error: Option<Error>)
      requires Valid() && (order != [] ==> floor == Some(LastAt(order)))
      modifies this`iterators, this`sourceLast, this`heap, this`admitted
      ensures error.None? ==> Valid() && admitted == old(admitted) + Floored(streams, floor)
      ensures AllSeen(streams) ==> error.None?
    {
      hide Valid, DropUpTo, Floored;
      ghost var floored := Floored(streams, floor);
      FlooredAt(streams, floor);
      for k := 0 to |streams|
        invariant Valid() && admitted == old(admitted) + floored[..k]
      {
        error := OpenSource(streams[k], floor);
        if error.Some? {
          assert DropUpTo(streams[k], floor)[0] in streams[k];
          return;
        }
        assert floored[..k + 1] == floored[..k] + [floored[k]];
      }
      assert floored[..|streams|] == floored;
      return None;
    }

    /** Open every stream of the plan behind whatever has been admitted, and register the instruments it names that a
        provider can resolve; a plan already open stays as it is. */
    method Prepare(streams: seq<seq<Item>>, named: set<Key>) returns (error: Option<Error>)
      requires Valid()
      modifies this`prepared, this`registry, this`iterators, this`sourceLast, this`heap, this`admitted
      ensures old(prepared) ==>
                error.None? && Valid() && prepared && View() == old(View()) && registry == old(registry)
      ensures !old(prepared) ==>
                && registry == old(registry) + named
                && (error.None? ==> Valid() && prepared && admitted == old(admitted) + streams)
                && (AllSeen(streams) ==> error.None?)
    {
      if prepared {
        return None;
      }
      registry := registry + named;
      hide Inv, Won, Ahead, Group, Shadowed, LastAt, AllSeen, Floored;
      error := OpenAll(streams, None);
      prepared := true;
      FlooredAtNone(streams);
    }

    /** A new instrument, a plan to model it on, and time left in the plan. */
    predicate Subscribes(key: Key)
      reads this
    {
      key !in registry && window.Some? && (if current.Some? then current.value.at else window.value.0) < window.value.1
    }

    /** Subscribe from the next timestamp onwards to what each provider streams for an instrument. */
    method AddInstrument(key: Key, streams: seq<seq<Item>>) returns (error: Option<Error>)
      requires Valid()
      modifies this`registry, this`iterators, this`sourceLast, this`heap, this`admitted
      ensures registry == old(registry) + {key}
      ensures key !in old(registry) && window.None? ==> error == Some(NoTemplate)
      ensures !old(Subscribes(key)) ==> View() == old(View())
      ensures error.None? ==> Valid()
      ensures error.None? && old(Subscribes(key)) ==>
                && old(admitted) <= admitted
                && ReadsAll(admitted, |old(admitted)|, streams, if current.Some? then Some(current.value.at) else None)
      ensures window.Some? && AllSeen(streams) ==> error.None?
    {
      hide Valid, Floored, ReadsAll, AllSeen, LastAt;
      if key in registry {
        return None;
      }
      registry := registry + {key};
      if window.None? {
        return Some(NoTemplate);
      }
      var start := if current.Some? then current.value.at else window.value.0;
      var floor := if current.Some? then Some(current.value.at) else None;
      if start >= window.value.1 {
        return None;
      }
      Clock();
      FlooredReads(admitted, streams, floor);
      error := OpenAll(streams, floor);
    }

    /** Add an item to the snapshot being built, or count it as shadowed. */
    method Absorb(item: Item, building: Snapshot) returns (built: Snapshot)
      modifies this`shadowed
      ensures built == building.Absorb(item)
      ensures shadowed == old(shadowed) + if building.Has(item) then 1 else 0
    {
      if building.Has(item) {
        shadowed := shadowed + 1;
        return building;
      }
      return building.Absorb(item);
    }

    /** Take the earliest item off the heap and refill from its source. */
    method PopRefill() returns (error: Option<Error>)
      requires Inv(View()) && Won(View()) && heap != []
      modifies this`iterators, this`sourceLast, this`heap, this`order
      ensures order == old(order) + [old(heap)[0]]
      ensures error.None? ==> Inv(View()) && Won(View()) && Work(View()) < Work(old(View()))
      ensures error.Some? ==> error == Some(OutOfOrder) && !AllMonotone(admitted)
    {
      hide Inv, Won, Work, FeedSpec.Pull, AllMonotone;
      var e := heap[0];
      PopStep(View());
      heap, order := heap[1..], order + [e];
      error := Pull(e.index);
    }

    lemma Enter()
      requires Valid() && heap != []
      ensures Inv(View()) && Won(View()) && shadowed == Shadowed(order)
      ensures Building(false, order, emitted, heap[0].item.at, Empty(heap[0].item.at))
    {
      hide Inv, Won, Group, Shadowed;
      assert heap[0] in heap;
    }

    /** The clock only ever fails to advance on an item at the sentinel. */
    lemma Tick()
      requires Valid() && heap != []
      ensures heap[0].item.at <= lastEmitted ==> !AllSeen(admitted)
      ensures Inv(View())
    {
      SeenHead(View());
      hide Inv, Won, Group, Shadowed, AllSeen;
      assert heap[0] in heap;
    }

    lemma Settled()
      requires prepared && Inv(View()) && Won(View()) && Ahead(View())
      requires emitted == Group(order) && shadowed == Shadowed(order) && lastEmitted == LastAt(order)
      requires emitted != [] && current == Some(emitted[|emitted| - 1])
      ensures Valid()
    {
      hide Inv, Won, Ahead, Group, Shadowed, LastAt;
    }

    /** Pop everything at one instant, refilling each source as it is popped: a source that holds several symbols
        offers its next bar at the same instant at once. */
    method Drain(epoch: Time) returns (error: Option<Error>, built: Snapshot)
      requires Valid() && heap != [] && heap[0].item.at == epoch
      modifies this`iterators, this`sourceLast, this`heap, this`shadowed, this`order
      ensures error.None? ==>
                && Inv(View()) && Won(View()) && Ahead(View())
                && order != [] && LastAt(order) == epoch && Group(order) == emitted + [built]
                && shadowed == Shadowed(order)
                && Work(View()) < Work(old(View()))
      ensures error.Some? ==> error == Some(OutOfOrder) && !AllMonotone(admitted)
    {
      hide Valid, Inv, Won, Ahead, Group, Shadowed, Work, Building, Snapshot.Absorb, AllMonotone, LastAt, Empty;
      built, error := Empty(epoch), None;
      ghost var work, popped := Work(View()), false;
      Enter();
      while heap != [] && heap[0].item.at == epoch
        invariant Inv(View()) && Won(View()) && shadowed == Shadowed(order) && error.None?
        invariant Building(popped, order, emitted, epoch, built)
        invariant if popped then Work(View()) < work else Work(View()) == work && heap == old(heap)
        decreases Work(View())
      {
        BuildNext(popped, order, heap[0], emitted, built);
        built := Absorb(heap[0].item, built);
        error := PopRefill();
        popped := true;
        if error.Some? {
          return;
        }
      }
      BuildEnd(order, emitted, epoch, built);
      DrainedAhead(View(), epoch);
    }

    /** Yield the next snapshot, or none once every source is exhausted. */
    method Next() returns (error: Option<Error>, snapshot: Option<Snapshot>)
      requires Valid() && prepared
      modifies this`iterators, this`sourceLast, this`heap, this`lastEmitted, this`shadowed, this`current, this`order
      modifies this`emitted
      ensures error.None? ==> Valid()
      ensures error.None? && snapshot.None? ==> View() == old(View()) && emitted == old(emitted) && heap == []
      ensures snapshot.Some? ==>
                error.None? && emitted == old(emitted) + [snapshot.value] && current == snapshot
                && Work(View()) < Work(old(View()))
      ensures error.Some? ==> snapshot.None? && !(AllMonotone(admitted) && AllSeen(admitted))
    {
      if heap == [] {
        return None, None;
      }
      hide Valid, Inv, Won, Ahead, Group, Shadowed, Work, AllMonotone, AllSeen, LastAt;
      Tick();
      var epoch := heap[0].item.at;
      var built;
      error, built := Drain(epoch);
      if error.Some? {
        return error, None;
      }
      if epoch <= lastEmitted {
        return Some(ClockBackwards), None;
      }
      Emit(epoch, built);
      return None, Some(built);
    }

    /** Advance the clock to a finished snapshot. */
    method Emit(epoch: Time, built: Snapshot)
      requires prepared && Inv(View()) && Won(View()) && Ahead(View())
      requires Group(order) == emitted + [built] && shadowed == Shadowed(order) && epoch == LastAt(order)
      modifies this`lastEmitted, this`current, this`emitted
      ensures Valid() && emitted == old(emitted) + [built] && current == Some(built)
    {
      hide Valid, Inv, Won, Ahead, Group, Shadowed, LastAt;
      lastEmitted := epoch;
      current := Some(built);
      emitted := emitted + [built];
      Settled();
    }

    /** What iterating reads: all that was admitted, and the plan unless it is open already. */
    ghost function Plan(streams: seq<seq<Item>>): seq<seq<Item>>
      reads this`prepared, this`admitted
    {
      admitted + if prepared then [] else streams
    }

    /** Open the plan and iterate to exhaustion. Sources in time order always get there. */
    method RunToEnd(streams: seq<seq<Item>>, named: set<Key>) returns (error: Option<Error>)
      requires Valid()
      modifies this
      ensures error.None? ==> Valid() && heap == [] && admitted == old(Plan(streams))
      ensures AllMonotone(old(Plan(streams))) && AllSeen(old(Plan(streams))) ==> error.None?
    {
      ghost var plan := Plan(streams);
      SeenTail(admitted, streams);
      hide Valid, Work, AllMonotone, AllSeen;
      error := Prepare(streams, named);
      if error.Some? {
        return;
      }
      assert admitted == plan;
      var snapshot;
      error, snapshot := Next();
      while snapshot.Some?
        invariant admitted == plan && prepared
        invariant error.None? ==> Valid() && (snapshot.None? ==> heap == [])
        invariant snapshot.Some? ==> error.None?
        invariant AllMonotone(admitted) && AllSeen(admitted) ==> error.None?
        decreases if error.None? then Work(View()) else 0, snapshot.Some?
      {
        error, snapshot := Next();
      }
    }

    /** Forget the run, so the plan can be read again. */
    method Close()
      modifies this
      ensures Valid() && View() == NO_FEED && !prepared && registry == {} && emitted == []
    {
      prepared := false;
      registry, iterators, sourceLast, heap, lastEmitted, shadowed, current := {}, [], [], [], NEVER_SEEN, 0, None;
      order, admitted, emitted := [], [], [];
    }

    // ---- what a run comes to -----------------------------------------------------------------------------------

    /** At every step: one heap entry per unexhausted source, each source split into what was popped, what waits and
        what is unread, and every item popped either emitted or shadowed. */
    lemma Accounts()
      requires Valid()
      ensures forall i | 0 <= i < |iterators| ::
                i < |admitted| && |Of(heap, i)| == (if iterators[i].Some? then 1 else 0)
                && Of(order, i) + Of(heap, i) + Rest(iterators[i]) == admitted[i]
      ensures |order| == Slots(emitted) + shadowed
    {
      NothingLost(order);
      forall i | 0 <= i < |iterators|
        ensures i < |admitted| && |Of(heap, i)| == (if iterators[i].Some? then 1 else 0)
                && Of(order, i) + Of(heap, i) + Rest(iterators[i]) == admitted[i]
      {
        assert Linked(View(), i);
      }
    }

    /** Sort and group by timestamp: instants strictly increase, whatever a snapshot holds was offered by a source at
        that instant, and an exhausted feed has a slot for every item admitted. */
    lemma SortAndGroup()
      requires Valid()
      ensures forall i, j | 0 <= i < j < |emitted| :: emitted[i].at < emitted[j].at
      ensures forall s, chain, key | s in emitted && s.Lookup(chain, key).Some? ::
                Offered(admitted, s.at, chain, key, s.Lookup(chain, key).value)
      ensures heap == [] ==> forall i, x | 0 <= i < |admitted| && x in admitted[i] :: Shown(emitted, x)
      ensures heap == [] ==> AllMonotone(admitted) && |order| == Total(admitted)
    {
      GroupsIncrease(order);
      forall s, chain, key | s in emitted && s.Lookup(chain, key).Some?
        ensures Offered(admitted, s.at, chain, key, s.Lookup(chain, key).value)
      {
        HeldIsOffered(View(), s, chain, key);
      }
      if heap == [] {
        ExhaustedIsComplete(View());
        forall i, x | 0 <= i < |admitted| && x in admitted[i]
          ensures Shown(emitted, x)
        {
          AdmittedIsShown(View(), i, x);
        }
        OrderIsTotal(order, admitted);
      }
    }

    /** An exhausted feed that subscribed to some streams past an instant shows the slot of every item they offer after
        it. */
    lemma ShowsSubscription(n: nat, streams: seq<seq<Item>>, floor: Option<Time>)
      requires Valid() && heap == [] && n + |streams| <= |admitted|
      requires ReadsAll(admitted[..n + |streams|], n, streams, floor)
      ensures forall i, x | 0 <= i < |streams| && x in streams[i] && (floor.Some? ==> x.at > floor.value) ::
                Shown(emitted, x)
    {
      SortAndGroup();
      hide Valid, Shown, ReadsFrom;
      forall i, x | 0 <= i < |streams| && x in streams[i] && (floor.Some? ==> x.at > floor.value)
        ensures Shown(emitted, x)
      {
        assert admitted[..n + |streams|][n + i] == admitted[n + i];
        ReadsAllAfter(streams[i], floor, admitted[n + i], x);
      }
    }

    /** A prompt source is never passed over for a later one: what is kept for a slot it offers is its own item or an
        earlier source's; and its own, when no earlier source offers any. */
    lemma FirstProvider(s: Snapshot, chain: bool, key: Key, i: nat) returns (w: nat)
      requires Valid() && i < |admitted| && Prompt(admitted[i])
      requires s in emitted && s.Lookup(chain, key).Some? && Provides(admitted[i], s.at, chain, key)
      ensures w <= i && s.Lookup(chain, key).value in admitted[w]
      ensures (forall j | 0 <= j < i :: !Provides(admitted[j], s.at, chain, key)) ==> w == i
    {
      GroupsHoldLeaders(order, s, chain, key);
      var p := LeaderIsFirst(order, s.at, chain, key);
      w := order[p].index;
      assert order[p] in order;
      OfMember(order, order[p]);
      assert Linked(View(), w);
      assert order[p].item in admitted[w];
    }
  }

  /** Some source offers this item at this instant and slot. */
  ghost predicate Offered(streams: seq<seq<Item>>, at: Time, chain: bool, key: Key, x: Item) {
    && x.at == at && x.chain == chain && x.key == key
    && exists i :: 0 <= i < |streams| && x in streams[i]
  }

  /** The item's instant has a snapshot with its slot filled. */
  ghost predicate Shown(emitted: seq<Snapshot>, x: Item) {
    exists s :: s in emitted && s.at == x.at && s.Lookup(x.chain, x.key).Some?
  }

  function Total(streams: seq<seq<Item>>): nat {
    if streams == [] then 0 else Total(streams[..|streams| - 1]) + |streams[|streams| - 1]|
  }

  lemma HeldIsOffered(f: Feed, s: Snapshot, chain: bool, key: Key)
    requires Inv(f) && s in Group(f.order) && s.Lookup(chain, key).Some?
    ensures Offered(f.admitted, s.at, chain, key, s.Lookup(chain, key).value)
  {
    GroupsHoldLeaders(f.order, s, chain, key);
    var p := LeaderIsFirst(f.order, s.at, chain, key);
    var e := f.order[p];
    assert e in f.order && Linked(f, e.index);
    OfMember(f.order, e);
    assert e.item in f.admitted[e.index];
  }

  lemma AdmittedIsShown(f: Feed, i: nat, x: Item)
    requires Inv(f) && i < |f.admitted| && Of(f.order, i) == f.admitted[i] && x in f.admitted[i]
    ensures Shown(Group(f.order), x)
  {
    OfComes(f.order, i, x);
    var p :| 0 <= p < |f.order| && f.order[p] == Entry(i, x);
    var s := GroupsCover(f.order, p);
    GroupsHoldLeaders(f.order, s, x.chain, x.key);
    var q := LeaderIsFirst(f.order, s.at, x.chain, x.key);
    assert Offers(f.order[p], s.at, x.chain, x.key);
  }

  /** An interleaving is as long as its parts. */
  lemma {:induction false} OrderIsTotal(order: seq<Entry>, streams: seq<seq<Item>>)
    requires forall e | e in order :: e.index < |streams|
    requires forall i | 0 <= i < |streams| :: Of(order, i) == streams[i]
    ensures |order| == Total(streams)
  {
    if order == [] {
      EmptyTotal(streams);
    } else {
      var before, e := order[..|order| - 1], order[|order| - 1];
      var fewer := streams[e.index := Of(before, e.index)];
      assert forall i | 0 <= i < |streams| :: Of(before, i) == fewer[i];
      OrderIsTotal(before, fewer);
      TotalUpdate(streams, e.index, Of(before, e.index));
    }
  }

  lemma {:induction false} EmptyTotal(streams: seq<seq<Item>>)
    requires forall i | 0 <= i < |streams| :: streams[i] == []
    ensures Total(streams) == 0
  {
    if streams != [] {
      EmptyTotal(streams[..|streams| - 1]);
    }
  }

  lemma {:induction false} TotalUpdate(streams: seq<seq<Item>>, i: nat, stream: seq<Item>)
    requires i < |streams|
    ensures Total(streams[i := stream]) + |streams[i]| == Total(streams) + |stream|
  {
    var n := |streams| - 1;
    if i < n {
      TotalUpdate(streams[..n], i, stream);
      assert streams[i := stream][..n] == streams[..n][i := stream];
    } else {
      assert streams[i := stream][..n] == streams[..n];
    }
  }

  /** The snapshot under construction: nothing popped yet, or the last group of what has been. */
  ghost predicate Building(popped: bool, order: seq<Entry>, emitted: seq<Snapshot>, epoch: Time, built: Snapshot) {
    && built.at == epoch
    && if popped then order != [] && Group(order) == emitted + [built] && order[|order| - 1].item.at == epoch
       else Group(order) == emitted && built == Empty(epoch) && (order != [] ==> order[|order| - 1].item.at < epoch)
  }

  lemma BuildNext(popped: bool, order: seq<Entry>, e: Entry, emitted: seq<Snapshot>, built: Snapshot)
    requires Building(popped, order, emitted, e.item.at, built)
    ensures Building(true, order + [e], emitted, e.item.at, built.Absorb(e.item))
    ensures Shadowed(order + [e]) == Shadowed(order) + if built.Has(e.item) then 1 else 0
  {
    GroupNext(order, e);
    GroupEnd(order);
    hide Group, Shadowed;
    assert built.Absorb(e.item).at == built.at;
    if popped {
      assert (emitted + [built])[..|emitted|] == emitted;
    }
  }

  lemma BuildEnd(order: seq<Entry>, emitted: seq<Snapshot>, epoch: Time, built: Snapshot)
    requires Building(true, order, emitted, epoch, built)
    ensures order != [] && LastAt(order) == epoch && Group(order) == emitted + [built]
  {
  }

  /** Everything a pop keeps, or the reason it fails. */
  lemma PopStep(f: Feed)
    requires Inv(f) && Won(f) && f.heap != []
    ensures f.heap[0].index < |f.rests| == |f.lasts|
    ensures match Pop(f)
            case Ok(g) => Inv(g) && Won(g) && Work(g) < Work(f) && g.order == f.order + [f.heap[0]]
            && g.admitted == f.admitted
            case Raised(error) => error == OutOfOrder && !AllMonotone(f.admitted)
  {
    hide Won, Work;
    assert f.heap[0] in f.heap;
    if Pop(f).Ok? {
      PopKeeps(f);
      PopKeepsWon(f);
      PopWorks(f);
    } else {
      PopRaises(f);
    }
  }

  /** Only an item at the sentinel can sit at the instant the clock starts from. */
  lemma SeenHead(f: Feed)
    requires Inv(f) && f.heap != []
    ensures AllSeen(f.admitted) ==> f.heap[0].item.at > NEVER_SEEN
  {
    var e := f.heap[0];
    assert e in f.heap && Linked(f, e.index);
    OfFront(f.heap, e.index);
    assert e.item in Of(f.heap, e.index);
    assert e.item in f.admitted[e.index];
  }

  /** Once the head of the heap is another instant, everything waiting is later. */
  lemma DrainedAhead(f: Feed, epoch: Time)
    requires Inv(f) && f.order != [] && LastAt(f.order) == epoch
    requires f.heap != [] ==> f.heap[0].item.at != epoch
    ensures Ahead(f)
  {
    hide Linked;
    forall e | e in f.heap
      ensures epoch < e.item.at
    {
      var k :| 0 <= k < |f.heap| && f.heap[k] == e;
      assert f.heap[0] in f.heap && (k == 0 || Before(f.heap[0], e));
    }
  }

  lemma FlooredAt(streams: seq<seq<Item>>, floor: Option<Time>)
    ensures |Floored(streams, floor)| == |streams|
    ensures forall k | 0 <= k < |streams| :: Floored(streams, floor)[k] == DropUpTo(streams[k], floor)
  {
  }

  /** Opening a stream that starts after the last pop; it fails only on an item before every timestamp. */
  lemma OpenLater(f: Feed, stream: seq<Item>)
    requires Inv(f) && Won(f) && Ahead(f)
    requires stream != [] && f.order != [] ==> f.order[|f.order| - 1].item.at < stream[0].at
    ensures |f.rests| == |f.lasts|
    ensures match Open(f, stream)
            case Ok(g) => Inv(g) && Won(g) && Ahead(g) && g.order == f.order && g.admitted == f.admitted + [stream]
            case Raised(_) => stream != [] && stream[0].at < NEVER_SEEN
  {
    hide Won;
    if Open(f, stream).Ok? {
      OpenKeeps(f, stream);
      OpenKeepsWon(f, stream);
      OpenStaysAhead(f, stream);
    }
  }

  lemma OpenStaysAhead(f: Feed, stream: seq<Item>)
    requires |f.rests| == |f.lasts| && Ahead(f) && Open(f, stream).Ok?
    requires stream != [] && f.order != [] ==> f.order[|f.order| - 1].item.at < stream[0].at
    ensures Ahead(Open(f, stream).value)
  {
    if stream != [] {
      InsertMembers(f.heap, Entry(|f.rests|, stream[0]));
    }
  }
}
