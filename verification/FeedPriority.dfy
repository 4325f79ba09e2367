/** When the first configured provider wins, and when it loses: `sigmaloop/data/feed.py`. */
module FeedPriority {
  import opened Types
  import opened FeedSpec
  import opened FeedMerge

  /** A stream a provider may send: in time order, after the sentinel the feed starts its clock at. */
  predicate Sendable(stream: seq<Item>) {
    Monotone(stream) && forall x | x in stream :: x.at > NEVER_SEEN
  }

  /** Pop until nothing waits. */
  ghost function Exhaust(f: Feed): Outcome<Feed>
    requires Inv(f)
    decreases Work(f)
  {
    if f.heap == [] then Ok(f)
    else if Pop(f).Raised? then Raised(OutOfOrder)
    else
      PopKeeps(f);
      PopWorks(f);
      Exhaust(Pop(f).value)
  }

  predicate AllInTime(f: Feed) {
    forall i | 0 <= i < |f.admitted| :: Monotone(f.admitted[i])
  }

  /** Sources in time order are read to the end. */
  lemma {:induction false} ExhaustReads(f: Feed)
    requires Inv(f) && AllInTime(f) && Won(f)
    ensures Exhaust(f).Ok?
    ensures var g := Exhaust(f).value;
            g.heap == [] && g.admitted == f.admitted && Inv(g) && Won(g) && f.order <= g.order
    decreases Work(f)
  {
    hide Inv, Pop, Work, Won, AllInTime;
    if f.heap != [] {
      HeadIsAdmitted(f);
      if Pop(f).Raised? {
        PopRaises(f);
        assert false;
      }
      PopKeeps(f);
      PopWorks(f);
      PopKeepsWon(f);
      assert AllInTime(Pop(f).value) by {
        InTimeBoth(f, Pop(f).value);
      }
      ExhaustReads(Pop(f).value);
    }
  }

  lemma InTimeBoth(f: Feed, g: Feed)
    requires AllInTime(f) && g.admitted == f.admitted
    ensures AllInTime(g)
  {
  }

  lemma HeadIsAdmitted(f: Feed)
    requires Inv(f) && f.heap != [] && AllInTime(f)
    ensures f.heap[0].index < |f.admitted| && |f.rests| == |f.lasts| == |f.admitted|
    ensures Monotone(f.admitted[f.heap[0].index])
  {
    assert f.heap[0] in f.heap;
  }

  // ---- two providers -------------------------------------------------------------------------------------------

  /** A plan with two providers. */
  function Pairing(first: seq<Item>, second: seq<Item>): Outcome<Feed> {
    var f :- Open(NO_FEED, first);
    Open(f, second)
  }

  lemma EmptyFeed()
    ensures Inv(NO_FEED) && Won(NO_FEED)
  {
  }

  lemma PairingOpens(first: seq<Item>, second: seq<Item>)
    requires Sendable(first) && Sendable(second)
    ensures Pairing(first, second).Ok?
    ensures var f := Pairing(first, second).value;
            Inv(f) && Won(f) && f.order == [] && f.admitted == [first, second] && AllInTime(f)
  {
    EmptyFeed();
    assert first != [] ==> first[0] in first;
    assert second != [] ==> second[0] in second;
    var f := Open(NO_FEED, first).value;
    hide Inv, Won;
    OpenKeeps(NO_FEED, first);
    OpenKeepsWon(NO_FEED, first);
    OpenKeeps(f, second);
    OpenKeepsWon(f, second);
    assert [] + [first] + [second] == [first, second];
  }

  /** Every slot the first provider offers is filled by it, run to the end beside the second. */
  ghost predicate Beats(first: seq<Item>, second: seq<Item>)
    requires Sendable(first) && Sendable(second)
  {
    PairingOpens(first, second);
    var r := Exhaust(Pairing(first, second).value);
    r.Ok? && forall p: nat, at, chain, key | Leads(r.value.order, p, at, chain, key)
    && Provides(first, at, chain, key) ::
      r.value.order[p].index == 0
  }

  /** One provider with one item. */
  function Rival(stream: seq<Item>, n: nat): Item
    requires n < |stream|
  {
    stream[n].(payload := stream[n].payload + 1)
  }

  /** The `n`-th item opens its slot behind a larger key of its instant. */
  predicate Late(stream: seq<Item>, m: nat, n: nat) {
    && m < n < |stream| && FirstOffer(stream, n)
    && stream[m].at == stream[n].at && stream[m].key > stream[n].key
  }

  /** While the rival's item waits: only the first provider has been popped, and not yet past its larger key. */
  ghost predicate Racing(f: Feed, stream: seq<Item>, m: nat, n: nat)
  {
    && Late(stream, m, n) && Inv(f) && f.admitted == [stream, [Rival(stream, n)]]
    && Entry(1, Rival(stream, n)) in f.heap
    && (forall e | e in f.order :: e.index == 0) && |Of(f.order, 0)| <= m
  }

  lemma {:induction false} AllOf(es: seq<Entry>, i: nat)
    requires forall e | e in es :: e.index == i
    ensures |Of(es, i)| == |es|
    ensures forall k | 0 <= k < |es| :: Of(es, i)[k] == es[k].item
  {
    if es != [] {
      AllOf(es[..|es| - 1], i);
    }
  }

  /** Nothing popped so far offers the rival's slot. */
  lemma RacingUntaken(f: Feed, stream: seq<Item>, m: nat, n: nat)
    requires Racing(f, stream, m, n)
    ensures forall e | e in f.order :: !Offers(e, stream[n].at, stream[n].chain, stream[n].key)
  {
    AllOf(f.order, 0);
    assert Linked(f, 0);
    forall k | 0 <= k < |f.order| ensures !Offers(f.order[k], stream[n].at, stream[n].chain, stream[n].key) {
      assert f.order[k].item == f.admitted[0][k] == stream[k];
    }
  }

  /** Popped ahead of the rival is an item of the first provider before its larger key. */
  lemma HeadIsEarly(f: Feed, stream: seq<Item>, m: nat, n: nat)
    requires Racing(f, stream, m, n) && f.heap != [] && f.heap[0] != Entry(1, Rival(stream, n))
    ensures f.heap[0].index == 0 && |Of(f.order, 0)| < m && Entry(1, Rival(stream, n)) in f.heap[1..]
  {
    var e, y := f.heap[0], Entry(1, Rival(stream, n));
    assert e in f.heap;
    if e.index == 1 {
      HeapOfOne(f, y, e);
      assert false;
    }
    assert Linked(f, 0);
    OfFront(f.heap, 0);
    hide Of;
    assert stream[|Of(f.order, 0)|] == e.item;
    var k :| 0 <= k < |f.heap| && f.heap[k] == y;
    assert Before(e, y);
    assert f.heap[1..][k - 1] == y;
  }

  lemma PopLeaves(f: Feed, y: Entry)
    requires f.heap != [] && f.heap[0].index < |f.rests| == |f.lasts| && Pop(f).Ok? && y in f.heap[1..]
    ensures y in Pop(f).value.heap
  {
    var e := f.heap[0];
    if f.rests[e.index].Some? && f.rests[e.index].value != [] {
      InsertMembers(f.heap[1..], Entry(e.index, f.rests[e.index].value[0]));
    }
  }

  /** The pop after which the rival still waits leaves the race as it was. */
  lemma RaceGoesOn(f: Feed, stream: seq<Item>, m: nat, n: nat)
    requires Racing(f, stream, m, n) && f.heap != [] && f.heap[0].index < |f.rests| == |f.lasts| && Pop(f).Ok?
    requires f.heap[0] != Entry(1, Rival(stream, n))
    ensures Racing(Pop(f).value, stream, m, n)
  {
    HeadIsEarly(f, stream, m, n);
    hide Pop, Inv, Of, Late;
    PopKeeps(f);
    PopLeaves(f, Entry(1, Rival(stream, n)));
    OfNext(f.order, f.heap[0], 0);
  }

  /** A source has one entry waiting at most. */
  lemma HeapOfOne(f: Feed, y: Entry, e: Entry)
    requires Inv(f) && y in f.heap && e in f.heap && y.index == e.index < |f.rests| == |f.lasts| == |f.admitted|
    ensures y == e
  {
    assert Linked(f, e.index);
    OfMember(f.heap, y);
    OfMember(f.heap, e);
  }

  /** The first to be popped for the rival's slot is the rival. */
  lemma {:induction false} RivalWins(f: Feed, stream: seq<Item>, m: nat, n: nat) returns (p: nat)
    requires Racing(f, stream, m, n) && AllInTime(f) && Won(f)
    ensures Exhaust(f).Ok?
    ensures Leads(Exhaust(f).value.order, p, stream[n].at, stream[n].chain, stream[n].key)
    ensures Exhaust(f).value.order[p].index == 1
    decreases Work(f)
  {
    var y := Entry(1, Rival(stream, n));
    ExhaustReads(f);
    HeadIsAdmitted(f);
    hide Inv, Pop, Work, Won, AllInTime;
    PopWorks(f);
    PopKeeps(f);
    PopKeepsWon(f);
    var g := Pop(f).value;
    InTimeBoth(f, g);
    ExhaustReads(g);
    if f.heap[0] == y {
      p := |f.order|;
      RacingUntaken(f, stream, m, n);
      var all := Exhaust(f).value.order;
      assert all[p] == g.order[p] == y;
      forall q | 0 <= q < p ensures !Offers(all[q], stream[n].at, stream[n].chain, stream[n].key) {
        assert all[q] == g.order[q] == f.order[q];
      }
    } else {
      hide Racing, Exhaust;
      RaceGoesOn(f, stream, m, n);
      p := RivalWins(g, stream, m, n);
      ExhaustStep(f);
    }
  }

  lemma ExhaustStep(f: Feed)
    requires Inv(f) && f.heap != [] && Pop(f).Ok?
    ensures Inv(Pop(f).value) && Exhaust(f) == Exhaust(Pop(f).value)
  {
    PopKeeps(f);
  }

  /** Opened beside the rival, the race is on. */
  lemma RaceStarts(stream: seq<Item>, m: nat, n: nat)
    requires Sendable(stream) && Late(stream, m, n) && Sendable([Rival(stream, n)])
    ensures Pairing(stream, [Rival(stream, n)]).Ok? && Racing(Pairing(stream, [Rival(stream, n)]).value, stream, m, n)
  {
    var y := Rival(stream, n);
    PairingOpens(stream, [y]);
    var f := Open(NO_FEED, stream).value;
    assert stream[0] in stream;
    InsertMembers(f.heap, Entry(1, y));
  }

  /** A provider in time order is first in every slot it offers, beside any other, exactly when it is prompt. */
  lemma FirstProviderWinsIff(stream: seq<Item>)
    requires Sendable(stream)
    ensures Prompt(stream) <==> forall rival | Sendable(rival) :: Beats(stream, rival)
  {
    if Prompt(stream) {
      forall rival | Sendable(rival) ensures Beats(stream, rival) {
        PromptBeats(stream, rival);
      }
    } else {
      var n, m :| 0 <= m < n < |stream| && FirstOffer(stream, n) && stream[m].at == stream[n].at
      && stream[m].key > stream[n].key;
      LateLoses(stream, m, n);
    }
  }

  lemma PromptBeats(stream: seq<Item>, rival: seq<Item>)
    requires Sendable(stream) && Sendable(rival) && Prompt(stream)
    ensures Beats(stream, rival)
  {
    PairingOpens(stream, rival);
    var f := Pairing(stream, rival).value;
    ExhaustReads(f);
    var g := Exhaust(f).value;
    hide Prompt, Provides, Exhaust, Pairing, Inv;
    assert g.admitted[0] == stream;
  }

  /** A single item of the slot behind, from any later provider, takes it. */
  lemma LateLoses(stream: seq<Item>, m: nat, n: nat)
    requires Sendable(stream) && Late(stream, m, n)
    ensures Sendable([Rival(stream, n)]) && !Beats(stream, [Rival(stream, n)])
  {
    var rival := [Rival(stream, n)];
    assert stream[n] in stream;
    assert Sendable(rival);
    PairingOpens(stream, rival);
    RaceStarts(stream, m, n);
    var f := Pairing(stream, rival).value;
    hide Racing, Inv, Won, Exhaust, Pairing, Sendable;
    var p := RivalWins(f, stream, m, n);
    assert Provides(stream, stream[n].at, stream[n].chain, stream[n].key);
  }

  // ---- key order -----------------------------------------------------------------------------------------------

  /** A source that orders its ties by key. */
  predicate Keyed(stream: seq<Item>) {
    forall i, j | 0 <= i < j < |stream| ::
      stream[i].at < stream[j].at || (stream[i].at == stream[j].at && stream[i].key <= stream[j].key)
  }

  /** Ordering ties by key is enough to be prompt, and more than is needed: a repeated slot may come out of order. */
  lemma KeyedIsPrompt(stream: seq<Item>)
    requires Keyed(stream)
    ensures Prompt(stream)
    ensures Prompt([MINE, LATE, MINE]) && !Keyed([MINE, LATE, MINE])
  {
    assert [MINE, LATE, MINE][1] == LATE && [MINE, LATE, MINE][2] == MINE;
    assert !FirstOffer([MINE, LATE, MINE], 2) by {
      assert [MINE, LATE, MINE][0].SameSlot([MINE, LATE, MINE][2]);
    }
  }

  /** The tied stream that loses a slot is late in it. */
  lemma TiedStreamIsLate()
    ensures Sendable([LATE, MINE]) && Late([LATE, MINE], 0, 1)
    ensures Sendable([Rival([LATE, MINE], 1)]) && !Beats([LATE, MINE], [Rival([LATE, MINE], 1)])
  {
    assert [LATE, MINE][0] == LATE && [LATE, MINE][1] == MINE;
    LateLoses([LATE, MINE], 0, 1);
  }
}
