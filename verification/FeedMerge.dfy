/** What every step of the merge keeps: `sigmaloop/data/feed.py`. */
module FeedMerge {
  import opened Types
  import opened FeedSpec

  // ---- one pull ------------------------------------------------------------------------------------------------

  predicate OthersLinked(f: Feed, i: nat)
    requires |f.rests| == |f.lasts| == |f.admitted|
  {
    forall j | 0 <= j < |f.rests| && j != i :: Linked(f, j)
  }

  lemma PullLinksOwn(f: Feed, i: nat)
    requires Sized(f) && i < |f.rests| && Drained(f, i) && Pull(f, i).Ok?
    ensures Sized(Pull(f, i).value) ==> Linked(Pull(f, i).value, i)
  {
    var rest := f.rests[i].value;
    if rest != [] {
      OfInsert(f.heap, Entry(i, rest[0]), i);
      hide Of, Insert;
      assert Of(f.order, i) + [rest[0]] + rest[1..] == Of(f.order, i) + rest;
    }
  }

  lemma PullLinksOther(f: Feed, i: nat, j: nat)
    requires Sized(f) && i < |f.rests| && j < |f.rests| && i != j && Drained(f, i) && Linked(f, j) && Pull(f, i).Ok?
    ensures Sized(Pull(f, i).value) ==> Linked(Pull(f, i).value, j)
  {
    var rest := f.rests[i].value;
    if rest != [] {
      OfInsert(f.heap, Entry(i, rest[0]), j);
      hide Of, Insert;
    }
  }

  lemma PullSorts(f: Feed, i: nat)
    requires Sized(f) && i < |f.rests| && Ordered(f) && Drained(f, i)
    requires Pull(f, i).Ok?
    ensures Ordered(Pull(f, i).value) && Sized(Pull(f, i).value)
    ensures Pull(f, i).value.order == f.order && Pull(f, i).value.admitted == f.admitted
    ensures |Pull(f, i).value.rests| == |f.rests|
  {
    var rest := f.rests[i].value;
    if rest != [] {
      InsertSorted(f.heap, Entry(i, rest[0]));
      InsertMembers(f.heap, Entry(i, rest[0]));
      hide Of, Insert;
    }
  }

  lemma PullKeeps(f: Feed, i: nat)
    requires Sized(f) && i < |f.rests| && Ordered(f) && Drained(f, i) && OthersLinked(f, i)
    requires Pull(f, i).Ok?
    ensures Inv(Pull(f, i).value)
    ensures Pull(f, i).value.order == f.order && Pull(f, i).value.admitted == f.admitted
  {
    PullSorts(f, i);
    var g := Pull(f, i).value;
    forall j | 0 <= j < |g.rests|
      ensures Linked(g, j)
    {
      if j == i {
        PullLinksOwn(f, i);
      } else {
        PullLinksOther(f, i, j);
      }
    }
  }

  // ---- popping -------------------------------------------------------------------------------------------------

  /** The state between a pop and its refill. */
  function Popped(f: Feed): Feed
    requires f.heap != []
  {
    f.(heap := f.heap[1..], order := f.order + [f.heap[0]])
  }

  lemma PoppedOrdered(f: Feed)
    requires Inv(f) && f.heap != []
    ensures Sized(Popped(f)) && Ordered(Popped(f))
  {
    hide Linked;
    var e, g := f.heap[0], Popped(f);
    assert forall x | x in f.heap[1..] :: Before(e, x);
    assert TimeSorted(g.order);
  }

  lemma PoppedLinked(f: Feed, j: nat)
    requires Inv(f) && f.heap != [] && j < |f.rests| && j != f.heap[0].index
    ensures Sized(Popped(f)) && Linked(Popped(f), j)
  {
    assert Linked(f, j);
    PoppedOrdered(f);
    hide Of, Ordered, Inv, Sized;
    OfNext(f.order, f.heap[0], j);
    OfFront(f.heap, j);
    assert [] + Of(f.heap[1..], j) == Of(f.heap[1..], j) && Of(f.order, j) + [] == Of(f.order, j);
  }

  lemma PoppedDrained(f: Feed)
    requires Inv(f) && f.heap != []
    ensures Sized(Popped(f)) && Drained(Popped(f), f.heap[0].index)
  {
    var e := f.heap[0];
    var i := e.index;
    assert Linked(f, i) && e.item.at >= NEVER_SEEN;
    PoppedOrdered(f);
    OfNext(f.order, e, i);
    OfFront(f.heap, i);
    hide Of, Ordered;
    assert Of(f.heap, i) == [e.item];
  }

  /** Popping and refilling keeps every source linked and every pop in time order. */
  lemma PopKeeps(f: Feed)
    requires Inv(f) && f.heap != [] && Pop(f).Ok?
    ensures Inv(Pop(f).value)
    ensures Pop(f).value.order == f.order + [f.heap[0]] && Pop(f).value.admitted == f.admitted
  {
    PoppedOrdered(f);
    PoppedDrained(f);
    forall j | 0 <= j < |f.rests| && j != f.heap[0].index
      ensures Linked(Popped(f), j)
    {
      PoppedLinked(f, j);
    }
    hide Linked, Drained, Ordered;
    PullKeeps(Popped(f), f.heap[0].index);
  }

  /** Opening a stream whose first item is later than every pop. */
  lemma OpenKeeps(f: Feed, stream: seq<Item>)
    requires Inv(f) && Open(f, stream).Ok?
    requires stream != [] && f.order != [] ==> f.order[|f.order| - 1].item.at <= stream[0].at
    ensures Inv(Open(f, stream).value)
    ensures Open(f, stream).value.order == f.order && Open(f, stream).value.admitted == f.admitted + [stream]
  {
    var n := |f.rests|;
    var g := f.(rests := f.rests + [Some(stream)], lasts := f.lasts + [NEVER_SEEN], admitted := f.admitted + [stream]);
    NoneOf(f.order, n);
    NoneOf(f.heap, n);
    forall j | 0 <= j < n
      ensures Linked(g, j)
    {
      assert Linked(f, j);
    }
    hide Of, Linked;
    PullKeeps(g, n);
  }

  lemma {:induction false} NoneOf(es: seq<Entry>, i: nat)
    requires forall e | e in es :: e.index != i
    ensures Of(es, i) == []
  {
    if es != [] {
      NoneOf(es[..|es| - 1], i);
    }
  }

  // ---- when a source goes back in time ---------------------------------------------------------------------------

  predicate Monotone(stream: seq<Item>) {
    forall i, j | 0 <= i < j < |stream| :: stream[i].at <= stream[j].at
  }

  /** A pop fails only when the source it refills from is out of order. */
  lemma PopRaises(f: Feed)
    requires Inv(f) && f.heap != [] && Pop(f).Raised?
    ensures Pop(f) == Raised(OutOfOrder) && !Monotone(f.admitted[f.heap[0].index])
  {
    var e := f.heap[0];
    var i := e.index;
    PoppedDrained(f);
    assert Linked(f, i);
    OfFront(f.heap, i);
    var n, rest := |Of(f.order, i)|, f.rests[i].value;
    assert Of(f.heap, i)[0] == e.item;
    assert f.admitted[i][n] == e.item && f.admitted[i][n + 1] == rest[0];
  }

  /** The items of a source in a time-sorted sequence are themselves in time order. */
  lemma {:induction false} OfMonotone(es: seq<Entry>, i: nat)
    requires TimeSorted(es)
    ensures Monotone(Of(es, i))
    ensures forall x | x in Of(es, i) :: es != [] && x.at <= es[|es| - 1].item.at
  {
    if es != [] {
      OfMonotone(es[..|es| - 1], i);
    }
  }

  // ---- who wins a slot -------------------------------------------------------------------------------------------

  /** The source offers the slot at the instant. */
  predicate Provides(stream: seq<Item>, at: Time, chain: bool, key: Key) {
    exists x :: x in stream && x.at == at && x.chain == chain && x.key == key
  }

  /** The `n`-th item is the first its stream offers for its instant and slot. */
  predicate FirstOffer(stream: seq<Item>, n: nat)
    requires n < |stream|
  {
    forall m | 0 <= m < n :: stream[m].at < stream[n].at || !stream[m].SameSlot(stream[n])
  }

  /** In time order, with no slot's first offer behind a larger key of its instant. */
  predicate Prompt(stream: seq<Item>) {
    && Monotone(stream)
    && forall m, n | 0 <= m < n < |stream| && FirstOffer(stream, n) && stream[m].at == stream[n].at ::
        stream[m].key <= stream[n].key
  }

  /** Whatever slot a prompt source provides, the first pop for it came from that source or an earlier one. */
  ghost predicate Won(f: Feed) {
    forall i, p: nat, at, chain, key | 0 <= i < |f.admitted| && Prompt(f.admitted[i])
    && Leads(f.order, p, at, chain, key)
                                  && Provides(f.admitted[i], at, chain, key) :: f.order[p].index <= i
  }

  lemma {:induction false} FirstOfferFor(stream: seq<Item>, at: Time, chain: bool, key: Key) returns (n: nat)
    requires Monotone(stream) && Provides(stream, at, chain, key)
    ensures n < |stream| && stream[n].at == at && stream[n].chain == chain && stream[n].key == key
    ensures FirstOffer(stream, n)
  {
    var before := stream[..|stream| - 1];
    if Provides(before, at, chain, key) {
      n := FirstOfferFor(before, at, chain, key);
    } else {
      n := |stream| - 1;
      forall m | 0 <= m < n ensures stream[m].at < stream[n].at || !stream[m].SameSlot(stream[n]) {
        assert stream[m] == before[m] && before[m] in before;
      }
    }
  }

  /** What a source has waiting, and where it stands in its stream. */
  lemma Waiting(f: Feed, i: nat) returns (c: nat)
    requires Inv(f) && i < |f.admitted| && Of(f.order, i) != f.admitted[i]
    ensures c == |Of(f.order, i)| < |f.admitted[i]| && f.admitted[i][..c] == Of(f.order, i)
    ensures Entry(i, f.admitted[i][c]) in f.heap
  {
    assert Linked(f, i);
    c := |Of(f.order, i)|;
    var waiting := Of(f.heap, i);
    assert waiting != [];
    assert f.admitted[i][c] == waiting[0];
    OfComes(f.heap, i, waiting[0]);
  }

  /** The head of the heap takes a slot no prompt source before it provides. */
  lemma HeadWins(f: Feed, i: nat, at: Time, chain: bool, key: Key)
    requires Inv(f) && f.heap != [] && i < |f.admitted| && Prompt(f.admitted[i])
    requires Offers(f.heap[0], at, chain, key) && forall e | e in f.order :: !Offers(e, at, chain, key)
    requires Provides(f.admitted[i], at, chain, key)
    ensures f.heap[0].index <= i
  {
    var stream := f.admitted[i];
    var n := FirstOfferFor(stream, at, chain, key);
    forall x | x in Of(f.order, i) ensures !(x.at == at && x.chain == chain && x.key == key) {
      OfComes(f.order, i, x);
    }
    assert Of(f.order, i) != stream;
    var c := Waiting(f, i);
    forall k | 0 <= k < c ensures stream[k] in Of(f.order, i) {
      assert stream[k] == stream[..c][k];
    }
    var k :| 0 <= k < |f.heap| && f.heap[k] == Entry(i, stream[c]);
    assert k == 0 || Before(f.heap[0], f.heap[k]);
  }

  lemma PopKeepsWon(f: Feed)
    requires Inv(f) && Won(f) && f.heap != [] && Pop(f).Ok?
    ensures Won(Pop(f).value)
  {
    PopKeeps(f);
    var g := Pop(f).value;
    hide Inv, Prompt, Provides;
    forall i, p: nat, at, chain, key | 0 <= i < |g.admitted| && Prompt(g.admitted[i])
    && Leads(g.order, p, at, chain, key)
                                  && Provides(g.admitted[i], at, chain, key)
      ensures g.order[p].index <= i
    {
      if p < |f.order| {
        assert forall q | 0 <= q <= p :: g.order[q] == f.order[q];
        assert Leads(f.order, p, at, chain, key);
      } else {
        forall e | e in f.order ensures !Offers(e, at, chain, key) {
          var q :| 0 <= q < |f.order| && f.order[q] == e;
          assert g.order[q] == e;
        }
        HeadWins(f, i, at, chain, key);
      }
    }
  }

  lemma OpenKeepsWon(f: Feed, stream: seq<Item>)
    requires Inv(f) && Won(f) && Open(f, stream).Ok?
    requires stream != [] && f.order != [] ==> f.order[|f.order| - 1].item.at <= stream[0].at
    ensures Won(Open(f, stream).value)
  {
    OpenKeeps(f, stream);
    var g := Open(f, stream).value;
    hide Prompt, Provides, Open;
    forall i, p: nat, at, chain, key | 0 <= i < |g.admitted| && Prompt(g.admitted[i])
    && Leads(g.order, p, at, chain, key)
                                  && Provides(g.admitted[i], at, chain, key)
      ensures g.order[p].index <= i
    {
      assert g.order[p] in f.order;
      if i < |f.admitted| {
        assert g.admitted[i] == f.admitted[i];
      }
    }
  }

  // ---- how much is left --------------------------------------------------------------------------------------------

  function Unread(rests: seq<Option<seq<Item>>>): nat {
    if rests == [] then 0 else Unread(rests[..|rests| - 1]) + |Rest(rests[|rests| - 1])|
  }

  /** Items not yet popped. */
  function Work(f: Feed): nat {
    Unread(f.rests) + |f.heap|
  }

  lemma {:induction false} UnreadUpdate(rests: seq<Option<seq<Item>>>, i: nat, rest: Option<seq<Item>>)
    requires i < |rests|
    ensures Unread(rests[i := rest]) + |Rest(rests[i])| == Unread(rests) + |Rest(rest)|
  {
    var n := |rests| - 1;
    if i < n {
      UnreadUpdate(rests[..n], i, rest);
      assert rests[i := rest][..n] == rests[..n][i := rest];
    } else {
      assert rests[i := rest][..n] == rests[..n];
    }
  }

  /** Every pop is progress. */
  lemma PopWorks(f: Feed)
    requires Inv(f) && f.heap != [] && Pop(f).Ok?
    ensures Work(Pop(f).value) + 1 == Work(f)
  {
    var i := f.heap[0].index;
    PoppedDrained(f);
    var rest := f.rests[i].value;
    if rest == [] {
      UnreadUpdate(f.rests, i, None);
    } else {
      UnreadUpdate(f.rests, i, Some(rest[1..]));
      InsertMembers(f.heap[1..], Entry(i, rest[0]));
    }
  }

  /** Exhausted means read in full: the pops are an interleaving of everything admitted. */
  lemma ExhaustedIsComplete(f: Feed)
    requires Inv(f) && f.heap == []
    ensures forall i | 0 <= i < |f.admitted| :: Of(f.order, i) == f.admitted[i] && Monotone(f.admitted[i])
  {
    forall i | 0 <= i < |f.admitted|
      ensures Of(f.order, i) == f.admitted[i] && Monotone(f.admitted[i])
    {
      assert Linked(f, i);
      OfMonotone(f.order, i);
    }
  }

  const LATE := Item(1, false, 2, 0)
  const MINE := Item(1, false, 1, 1)
  const THEIRS := Item(1, false, 1, 2)

  /** Two providers, the first of which offers its tied bars out of key order. */
  function TiedFeed(): Outcome<Feed> {
    var f :- Open(NO_FEED, [LATE, MINE]);
    Open(f, [THEIRS])
  }

  lemma TiedRun()
    ensures TiedFeed()
              == Ok(Feed([Some([MINE]), Some([])], [1, 1], [Entry(1, THEIRS), Entry(0, LATE)], [],
                         [[LATE, MINE], [THEIRS]]))
    ensures Pop(TiedFeed().value)
              == Ok(Feed([Some([MINE]), None], [1, 1], [Entry(0, LATE)], [Entry(1, THEIRS)], [[LATE, MINE], [THEIRS]]))
  {
    var f := Open(NO_FEED, [LATE, MINE]).value;
    assert [LATE, MINE][1..] == [MINE] && [THEIRS][1..] == [];
    assert f == Feed([Some([MINE])], [1], [Entry(0, LATE)], [], [[LATE, MINE]]);
    var g := Open(f, [THEIRS]).value;
    assert Insert([Entry(0, LATE)], Entry(1, THEIRS)) == [Entry(1, THEIRS), Entry(0, LATE)];
    assert g.rests == [Some([MINE]), Some([])];
    assert g == Feed([Some([MINE]), Some([])], [1, 1], [Entry(1, THEIRS), Entry(0, LATE)], [],
                     [[LATE, MINE], [THEIRS]]);
    assert g.heap[1..] == [Entry(0, LATE)] && g.order + [g.heap[0]] == [Entry(1, THEIRS)];
    assert g.rests[1 := None] == [Some([MINE]), None];
  }

  lemma TiedRunEnds()
    ensures var f := Feed([Some([MINE]), None], [1, 1], [Entry(0, LATE)], [Entry(1, THEIRS)], [[LATE, MINE], [THEIRS]]);
            var g := Feed([Some([]), None], [1, 1], [Entry(0, MINE)], [Entry(1, THEIRS), Entry(0, LATE)],
                          [[LATE, MINE], [THEIRS]]);
            && Pop(f) == Ok(g)
            && Pop(g) == Ok(Feed([None, None], [1, 1], [], [Entry(1, THEIRS), Entry(0, LATE), Entry(0, MINE)],
                                 [[LATE, MINE], [THEIRS]]))
  {
    var f := Feed([Some([MINE]), None], [1, 1], [Entry(0, LATE)], [Entry(1, THEIRS)], [[LATE, MINE], [THEIRS]]);
    assert f.heap[1..] == [] && f.order + [f.heap[0]] == [Entry(1, THEIRS), Entry(0, LATE)];
    assert f.rests[0 := Some([])] == [Some([]), None];
    assert [MINE][1..] == [] && [1, 1][0 := 1] == [1, 1];
    assert Insert([], Entry(0, MINE)) == [Entry(0, MINE)];
    var g := Pop(f).value;
    assert g.heap[1..] == [] && g.order + [g.heap[0]] == [Entry(1, THEIRS), Entry(0, LATE), Entry(0, MINE)];
    assert g.rests[0 := None] == [None, None];
  }

  /** Ties out of key order: the first provider holds the bar, both are in time order, and the second one's is kept. */
  lemma TiesOutOfOrderLose()
    ensures TiedFeed().Ok? && Pop(TiedFeed().value).Ok?
    ensures var f1 := Pop(TiedFeed().value).value;
            && f1.heap != [] && Sized(f1) && Pop(f1).Ok?
            && var f2 := Pop(f1).value;
               && f2.heap != [] && Sized(f2) && Pop(f2).Ok?
               && var f3 := Pop(f2).value;
                  && f3.heap == [] && f3.admitted == [[LATE, MINE], [THEIRS]]
                  && Leader(f3.order, 1, false, 1) == Some(THEIRS)
    ensures Monotone([LATE, MINE]) && Monotone([THEIRS]) && !Prompt([LATE, MINE])
  {
    TiedRun();
    TiedRunEnds();
    hide Pop, TiedFeed;
    LeaderNext([], Entry(1, THEIRS), 1, false, 1);
    LeaderNext([Entry(1, THEIRS)], Entry(0, LATE), 1, false, 1);
    LeaderNext([Entry(1, THEIRS), Entry(0, LATE)], Entry(0, MINE), 1, false, 1);
    assert [] + [Entry(1, THEIRS)] == [Entry(1, THEIRS)];
    assert [Entry(1, THEIRS), Entry(0, LATE)] + [Entry(0, MINE)] == [Entry(1, THEIRS), Entry(0, LATE), Entry(0, MINE)];
    assert [LATE, MINE][0] == LATE && [LATE, MINE][1] == MINE && FirstOffer([LATE, MINE], 1);
  }
}

