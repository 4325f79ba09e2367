/** What every call keeps: the linked maps agree with each other and settled orders never change. */
module BrokerIndex {
  import opened Types
  import opened Instruments
  import opened Orders
  import opened Execution
  import opened BrokerSpec

  // ---- sequences filtered by a set -----------------------------------------------------------------------------

  ghost predicate NoDups<T>(xs: seq<T>) {
    forall j, k :: 0 <= j < k < |xs| ==> xs[j] != xs[k]
  }

  lemma KeepMembers<T>(xs: seq<T>, chosen: set<T>)
    ensures forall x :: x in Keep(xs, chosen) <==> x in xs && x in chosen
  {
  }

  lemma KeepAppend<T>(xs: seq<T>, x: T, chosen: set<T>)
    ensures Keep(xs + [x], chosen) == if x in chosen then Keep(xs, chosen) + [x] else Keep(xs, chosen)
  {
    assert (xs + [x])[..|xs|] == xs;
  }

  lemma KeepAgree<T>(xs: seq<T>, a: set<T>, b: set<T>)
    requires forall x | x in xs :: x in a <==> x in b
    ensures Keep(xs, a) == Keep(xs, b)
  {
  }

  lemma KeepTwice<T>(xs: seq<T>, chosen: set<T>)
    ensures Keep(Keep(xs, chosen), chosen) == Keep(xs, chosen)
  {
    if xs != [] {
      KeepTwice(xs[..|xs| - 1], chosen);
      KeepAppend(Keep(xs[..|xs| - 1], chosen), xs[|xs| - 1], chosen);
    }
  }

  lemma WithoutMembers<T>(xs: seq<T>, x: T)
    ensures forall y :: y in Without(xs, x) <==> y in xs && y != x
    ensures NoDups(xs) ==> NoDups(Without(xs, x))
  {
    if xs != [] {
      var rest := Without(xs[..|xs| - 1], x);
      WithoutMembers(xs[..|xs| - 1], x);
      assert NoDups(xs) ==> xs[|xs| - 1] !in rest;
    }
  }

  lemma WithoutAppend<T>(xs: seq<T>, y: T, x: T)
    ensures Without(xs + [y], x) == if x == y then Without(xs, x) else Without(xs, x) + [y]
  {
    assert (xs + [y])[..|xs|] == xs;
  }

  /** Taking a member out of the set takes it out of the filtered sequence. */
  lemma KeepMinus<T>(xs: seq<T>, chosen: set<T>, x: T)
    ensures Keep(xs, chosen - {x}) == Without(Keep(xs, chosen), x)
  {
    if xs != [] {
      KeepMinus(xs[..|xs| - 1], chosen, x);
      WithoutAppend(Keep(xs[..|xs| - 1], chosen), xs[|xs| - 1], x);
    }
  }

  /** Taking out what the set does not choose changes nothing. */
  lemma KeepWithout<T>(xs: seq<T>, chosen: set<T>, x: T)
    requires x !in chosen
    ensures Keep(Without(xs, x), chosen) == Keep(xs, chosen)
  {
    if xs != [] {
      KeepWithout(xs[..|xs| - 1], chosen, x);
      KeepAppend(Without(xs[..|xs| - 1], x), xs[|xs| - 1], chosen);
    }
  }

  // ---- the invariant -------------------------------------------------------------------------------------------

  /** Every order ever submitted is listed once, in submission order. */
  ghost predicate Listed(s: State) {
    NoDups(s.submitted) && forall id :: id in s.submitted <==> id in s.orders
  }

  ghost predicate Keyed(s: State) {
    forall id | id in s.orders :: s.orders[id].terms.id == id
  }

  ghost predicate Shelves(s: State) {
    && NoDups(s.bookOrder)
    && (forall i :: i in s.bookOrder <==> i in s.books)
    && (forall i | i in s.books :: s.books[i] != [])
    && (forall i, id | i in s.books && id in s.books[i] :: id in s.orders && s.orders[id].terms.instrument == i)
  }

  /** A book shows exactly the open orders of its instrument, in submission order. */
  ghost predicate Indexed(s: State) {
    forall i: InstrumentId :: Keep(s.Book(i), s.Open()) == Keep(s.submitted, s.OpenIn(i))
  }

  /** OCO pairs form a symmetric, irreflexive partial map between orders of one instrument. */
  ghost predicate Paired(s: State) {
    && (forall a | a in s.oco :: a in s.orders)
    && (forall a | a in s.oco ::
          var b := s.oco[a];
          && b in s.oco && s.oco[b] == a && a != b && b in s.orders
          && s.orders[a].terms.instrument == s.orders[b].terms.instrument)
  }

  ghost predicate Bracketed(s: State) {
    && (forall id | id in s.brackets :: id in s.orders && s.orders[id].terms.bracket == Some(s.brackets[id]))
    && (forall id | id in s.orders && s.orders[id].IsOpen() && s.orders[id].terms.bracket.Some? :: id in s.brackets)
  }

  /** Fill ids count up from one, so none is ever used twice. */
  ghost predicate Numbered(s: State) {
    s.nextFill == |s.log| && forall k :: 0 <= k < |s.log| ==> s.log[k].seqNo == k + 1
  }

  /** Outside the books being worked, no book and no bracket refers to a settled order. */
  ghost predicate Clean(s: State, busy: set<InstrumentId>) {
    && (forall i, id | i in s.books && i !in busy && id in s.books[i] :: id in s.orders && s.orders[id].IsOpen())
    && (forall id | id in s.brackets && id in s.orders && !s.orders[id].IsOpen() ::
          s.orders[id].terms.instrument in busy && id in s.Book(s.orders[id].terms.instrument))
  }

  ghost predicate Linked(s: State) {
    Keyed(s) && Paired(s) && Bracketed(s) && Numbered(s)
  }

  ghost predicate Shelved(s: State) {
    Listed(s) && Shelves(s) && Indexed(s)
  }

  ghost predicate Inv(s: State, busy: set<InstrumentId>) {
    Linked(s) && Shelved(s) && Clean(s, busy)
  }

  /** `t` came after `s`: nothing is forgotten, and a settled order is settled for good. */
  ghost predicate Since(s: State, t: State) {
    && s.submitted <= t.submitted
    && s.log <= t.log
    && (forall id | id in s.orders :: id in t.orders && t.orders[id].terms == s.orders[id].terms)
    && (forall id | id in s.orders && !s.orders[id].IsOpen() :: t.orders[id] == s.orders[id])
  }

  lemma SinceTransitive(s: State, t: State, u: State)
    requires Since(s, t) && Since(t, u)
    ensures Since(s, u)
  {
  }

  // ---- single updates ------------------------------------------------------------------------------------------

  /** Orders may have changed, but not their terms, nor which are open; and the index is the same. */
  ghost predicate SameShape(s: State, t: State) {
    && t.submitted == s.submitted && t.books == s.books && t.bookOrder == s.bookOrder
    && t.orders.Keys == s.orders.Keys
    && (forall id | id in s.orders ::
          t.orders[id].terms == s.orders[id].terms && (t.orders[id].IsOpen() <==> s.orders[id].IsOpen()))
  }

  lemma ShapeShelved(s: State, t: State)
    requires SameShape(s, t) && Shelved(s)
    ensures Shelved(t)
  {
    assert t.Open() == s.Open();
    forall i ensures Keep(t.Book(i), t.Open()) == Keep(t.submitted, t.OpenIn(i)) {
      assert t.OpenIn(i) == s.OpenIn(i) && t.Book(i) == s.Book(i);
    }
  }

  lemma ShapeClean(s: State, t: State, busy: set<InstrumentId>)
    requires SameShape(s, t) && Clean(s, busy) && t.brackets.Keys <= s.brackets.Keys
    ensures Clean(t, busy)
  {
  }

  lemma ShapeKeeps(s: State, t: State, busy: set<InstrumentId>)
    requires SameShape(s, t) && t.brackets == s.brackets && t.oco == s.oco
    requires t.log == s.log && t.nextFill == s.nextFill
    requires Inv(s, busy)
    ensures Inv(t, busy)
  {
    assert Linked(t);
    ShapeShelved(s, t);
    ShapeClean(s, t, busy);
  }

  /** An open order of instrument `i` is in book `i`. */
  lemma OpenOrdersAreInTheirBook(s: State, id: OrderId)
    requires Shelved(s) && Cancellable(s, id)
    ensures id in s.Book(s.orders[id].terms.instrument)
  {
    var i := s.orders[id].terms.instrument;
    KeepMembers(s.submitted, s.OpenIn(i));
    KeepMembers(s.Book(i), s.Open());
    assert id in Keep(s.submitted, s.OpenIn(i));
  }

  /** Settling an order in place. */
  lemma SettleShelved(s: State, id: OrderId, o: OrderState)
    requires Shelved(s) && Cancellable(s, id) && o.terms == s.orders[id].terms && !o.IsOpen()
    ensures Shelved(Put(s, id, o))
  {
    var t := Put(s, id, o);
    assert t.Open() == s.Open() - {id};
    forall i ensures Keep(t.Book(i), t.Open()) == Keep(t.submitted, t.OpenIn(i)) {
      assert t.OpenIn(i) == s.OpenIn(i) - {id};
      KeepMinus(s.Book(i), s.Open(), id);
      KeepMinus(s.submitted, s.OpenIn(i), id);
    }
  }

  lemma SettleKeeps(s: State, id: OrderId, o: OrderState, busy: set<InstrumentId>)
    requires Inv(s, busy) && Cancellable(s, id) && o.terms == s.orders[id].terms && !o.IsOpen()
    ensures Inv(Put(s, id, o), busy + {o.terms.instrument})
  {
    SettleLinked(s, id, o);
    SettleShelved(s, id, o);
    OpenOrdersAreInTheirBook(s, id);
    SettleClean(s, id, o, busy);
  }

  lemma SettleLinked(s: State, id: OrderId, o: OrderState)
    requires Linked(s) && Cancellable(s, id) && o.terms == s.orders[id].terms && !o.IsOpen()
    ensures Linked(Put(s, id, o))
  {
  }

  lemma SettleClean(s: State, id: OrderId, o: OrderState, busy: set<InstrumentId>)
    requires Clean(s, busy) && Shelves(s) && Cancellable(s, id) && o.terms == s.orders[id].terms && !o.IsOpen()
    requires id in s.Book(o.terms.instrument)
    ensures Clean(Put(s, id, o), busy + {o.terms.instrument})
  {
  }

  /** Replacing a book by one that shows the same open orders. */
  lemma SetBookIndexed(s: State, i: InstrumentId, ids: seq<OrderId>)
    requires Indexed(s) && i in s.books
    requires Keep(ids, s.Open()) == Keep(s.books[i], s.Open())
    ensures Indexed(SetBook(s, i, ids))
  {
    var t := SetBook(s, i, ids);
    assert t.Open() == s.Open();
    forall j ensures Keep(t.Book(j), t.Open()) == Keep(t.submitted, t.OpenIn(j)) {
      assert t.OpenIn(j) == s.OpenIn(j);
      assert t.Book(j) == if j == i then ids else s.Book(j);
    }
  }

  lemma SetBookShelves(s: State, i: InstrumentId, ids: seq<OrderId>)
    requires Shelves(s) && i in s.books
    requires forall id | id in ids :: id in s.books[i]
    ensures Shelves(SetBook(s, i, ids))
  {
    WithoutMembers(s.bookOrder, i);
  }

  lemma SetBookKeeps(s: State, i: InstrumentId, ids: seq<OrderId>)
    requires Shelved(s) && i in s.books
    requires forall id | id in ids :: id in s.books[i]
    requires Keep(ids, s.Open()) == Keep(s.books[i], s.Open())
    ensures Shelved(SetBook(s, i, ids))
  {
    SetBookIndexed(s, i, ids);
    SetBookShelves(s, i, ids);
  }

  lemma UnlinkKeeps(s: State, id: OrderId, busy: set<InstrumentId>)
    requires Inv(s, busy)
    ensures Inv(Unlink(s, id), busy)
  {
    var t := Unlink(s, id);
    UnlinkLinked(s, id);
    ShapeShelved(s, t);
    ShapeClean(s, t, busy);
  }

  lemma UnlinkLinked(s: State, id: OrderId)
    requires Linked(s)
    ensures Linked(Unlink(s, id))
  {
  }

  /** `Clean`, but for one settled order. */
  ghost predicate CleanBut(s: State, but: OrderId, busy: set<InstrumentId>) {
    && (forall i,
        id | i in s.books && i !in busy && id in s.books[i] && id != but :: id in s.orders && s.orders[id].IsOpen())
    && (forall id | id in s.brackets && id in s.orders && !s.orders[id].IsOpen() && id != but ::
          s.orders[id].terms.instrument in busy && id in s.Book(s.orders[id].terms.instrument))
  }

  lemma UnshelveShelved(s: State, id: OrderId)
    requires Shelved(s) && id in s.orders && !s.orders[id].IsOpen()
    ensures Shelved(Unshelve(s, id, s.orders[id].terms.instrument))
  {
    var i := s.orders[id].terms.instrument;
    if i in s.books {
      WithoutMembers(s.books[i], id);
      KeepWithout(s.books[i], s.Open(), id);
      SetBookKeeps(s, i, Without(s.books[i], id));
    }
  }

  lemma UnshelveBooks(s: State, id: OrderId, i: InstrumentId, j: InstrumentId, x: OrderId)
    ensures x in Unshelve(s, id, i).Book(j) <==> x in s.Book(j) && !(j == i && x == id)
  {
    if i in s.books {
      WithoutMembers(s.books[i], id);
    }
  }

  lemma ForgetClean(s: State, id: OrderId, busy: set<InstrumentId>)
    requires id in s.orders && Shelves(s) && CleanBut(s, id, busy)
    ensures
      var t := Unshelve(s, id, s.orders[id].terms.instrument);
      Clean(t.(brackets := t.brackets - {id}), busy)
  {
    var i := s.orders[id].terms.instrument;
    var t := Unshelve(s, id, i);
    forall j, x | j in t.books && j !in busy && x in t.books[j] ensures x in t.orders && t.orders[x].IsOpen() {
      UnshelveBooks(s, id, i, j, x);
    }
    forall x | x in t.brackets && x != id && x in t.orders && !t.orders[x].IsOpen()
      ensures t.orders[x].terms.instrument in busy && x in t.Book(t.orders[x].terms.instrument)
    {
      UnshelveBooks(s, id, i, t.orders[x].terms.instrument, x);
    }
  }

  /** Dropping the brackets of settled orders, whatever happens to the books. */
  lemma DropBracketsLinked(s: State, t: State, gone: set<OrderId>)
    requires Linked(s) && t.orders == s.orders && t.submitted == s.submitted && t.oco == s.oco
    requires t.log == s.log && t.nextFill == s.nextFill && t.brackets == s.brackets - gone
    requires forall id | id in gone && id in s.orders :: !s.orders[id].IsOpen()
    ensures Linked(t)
  {
    assert Paired(t);
  }

  /** Forgetting a settled order. Its book need only have been clean of other settled orders if it is not being worked.
      */
  lemma ForgetKeeps(s: State, id: OrderId, busy: set<InstrumentId>)
    requires Linked(s) && Shelved(s) && id in s.orders && !s.orders[id].IsOpen() && CleanBut(s, id, busy)
    ensures Inv(Forget(s, id, s.orders[id].terms.instrument), busy)
  {
    var t := Unshelve(s, id, s.orders[id].terms.instrument);
    var u := t.(brackets := t.brackets - {id});
    assert Shelves(s);
    hide Inv, Linked, Shelved, Shelves, Clean, CleanBut, Unshelve;
    UnshelveShelved(s, id);
    DropBracketsLinked(s, u, {id});
    ShapeShelved(t, u);
    ForgetClean(s, id, busy);
    UnlinkKeeps(u, id, busy);
  }

  lemma SettleCleanBut(s: State, id: OrderId, o: OrderState, busy: set<InstrumentId>)
    requires Clean(s, busy) && id in s.orders && o.terms == s.orders[id].terms && !o.IsOpen()
    ensures CleanBut(Put(s, id, o), id, busy)
  {
  }

  lemma CloseKeeps(s: State, id: OrderId, status: OrderStatus, busy: set<InstrumentId>)
    requires Inv(s, busy) && Cancellable(s, id) && status.IsTerminal()
    ensures Inv(Close(s, id, status), busy)
  {
    var o := s.orders[id].(status := status);
    SettleLinked(s, id, o);
    SettleShelved(s, id, o);
    SettleCleanBut(s, id, o, busy);
    ForgetKeeps(Put(s, id, o), id, busy);
  }

  lemma CloseSince(s: State, id: OrderId, status: OrderStatus)
    requires Cancellable(s, id)
    ensures Since(s, Close(s, id, status))
  {
  }

  // ---- intake --------------------------------------------------------------------------------------------------

  lemma AdmitIndexed(s: State, o: OrderState, j: InstrumentId)
    requires Indexed(s) && o.terms.id !in s.orders && o.terms.id !in s.submitted && o.terms.id !in s.Book(j)
    ensures
      var t := Admit(s, o);
      Keep(t.Book(j), t.Open()) == Keep(t.submitted, t.OpenIn(j))
  {
    var id := o.terms.id;
    var t := Admit(s, o);
    assert t.Open() == s.Open() + {id};
    assert Keep(s.Book(j), s.Open()) == Keep(s.submitted, s.OpenIn(j));
    hide Indexed;
    KeepAgree(s.Book(j), s.Open(), t.Open());
    KeepAgree(s.submitted, s.OpenIn(j), t.OpenIn(j));
    KeepAppend(s.submitted, id, t.OpenIn(j));
    if j == o.terms.instrument {
      KeepAppend(s.Book(j), id, t.Open());
      assert id in t.OpenIn(j);
    } else {
      assert t.Book(j) == s.Book(j);
      assert id !in t.OpenIn(j);
    }
  }

  lemma AdmitListed(s: State, o: OrderState)
    requires Listed(s) && o.terms.id !in s.orders
    ensures Listed(Admit(s, o))
  {
  }

  lemma AdmitShelves(s: State, o: OrderState)
    requires Shelves(s) && o.terms.id !in s.orders
    ensures Shelves(Admit(s, o))
  {
  }

  lemma AdmitShelved(s: State, o: OrderState)
    requires Shelved(s) && o.terms.id !in s.orders
    ensures Shelved(Admit(s, o))
  {
    AdmitListed(s, o);
    AdmitShelves(s, o);
    var t := Admit(s, o);
    forall j ensures Keep(t.Book(j), t.Open()) == Keep(t.submitted, t.OpenIn(j)) {
      assert Shelves(s);
      AdmitIndexed(s, o, j);
    }
  }

  lemma RefuseShelved(s: State, o: OrderState, reason: RejectReason)
    requires Shelved(s) && o.terms.id !in s.orders
    ensures Shelved(Refuse(s, o, reason))
  {
    var t := Refuse(s, o, reason);
    assert t.Open() == s.Open();
    forall j ensures Keep(t.Book(j), t.Open()) == Keep(t.submitted, t.OpenIn(j)) {
      assert t.OpenIn(j) == s.OpenIn(j) && t.Book(j) == s.Book(j);
      KeepAppend(s.submitted, o.terms.id, t.OpenIn(j));
    }
  }

  lemma AdmitClean(s: State, o: OrderState, busy: set<InstrumentId>)
    requires Shelves(s) && Bracketed(s) && Clean(s, busy) && o.terms.id !in s.orders
    ensures Clean(Admit(s, o), busy)
  {
  }

  lemma RefuseClean(s: State, o: OrderState, reason: RejectReason, busy: set<InstrumentId>)
    requires Bracketed(s) && Clean(s, busy) && o.terms.id !in s.orders
    ensures Clean(Refuse(s, o, reason), busy)
  {
  }

  lemma AdmitLinked(s: State, o: OrderState)
    requires Linked(s) && o.terms.id !in s.orders
    ensures Linked(Admit(s, o))
  {
    assert Bracketed(Admit(s, o));
    assert Paired(Admit(s, o));
  }

  lemma RefuseLinked(s: State, o: OrderState, reason: RejectReason)
    requires Linked(s) && o.terms.id !in s.orders
    ensures Linked(Refuse(s, o, reason))
  {
    assert Bracketed(Refuse(s, o, reason));
    assert Paired(Refuse(s, o, reason));
  }

  /** What a submission does beside the index. */
  lemma SubmitEffect(cfg: Config, s: State, o: OrderState)
    requires Submit(cfg, s, o).Ok?
    ensures
      var t := Submit(cfg, s, o).value;
      var status := if IntakeRefusal(cfg, o).Some? then Rejected else Accepted;
      && o.terms.id !in s.orders && t.orders == s.orders[o.terms.id := o.(status := status)]
      && t.oco == s.oco && t.log == s.log && t.nextFill == s.nextFill && Since(s, t)
  {
  }

  lemma SubmitKeeps(cfg: Config, s: State, o: OrderState, busy: set<InstrumentId>)
    requires Inv(s, busy) && Submit(cfg, s, o).Ok?
    ensures Inv(Submit(cfg, s, o).value, busy)
  {
    assert Shelves(s) && Bracketed(s);
    hide Linked, Shelved, Shelves, Bracketed, Clean, IntakeRefusal, Admit, Refuse;
    match IntakeRefusal(cfg, o)
    case Some(reason) =>
      RefuseLinked(s, o, reason);
      RefuseShelved(s, o, reason);
      RefuseClean(s, o, reason, busy);
    case None =>
      AdmitLinked(s, o);
      AdmitShelved(s, o);
      AdmitClean(s, o, busy);
  }

  // ---- brackets and pairs --------------------------------------------------------------------------------------

  /** Each leg is a fresh order of the parent's instrument under a reserved id. */
  ghost predicate IsLegOf(leg: OrderState, parent: OrderState, at: Time) {
    && leg.terms.id in {StopId(parent.terms.id), TargetId(parent.terms.id)}
    && leg == Pristine(leg.terms, parent.filled, leg.stop)
    && leg.terms.instrument == parent.terms.instrument && leg.terms.side == parent.terms.side.Opposite()
    && leg.terms.parent == Some(parent.terms.id) && leg.terms.submittedAt == at
    && leg.terms.tif.Gtc? && leg.terms.expiresAt.None? && leg.terms.reduceOnly && leg.terms.bracket.None?
    && (if leg.terms.id == StopId(parent.terms.id) then leg.terms.kind.Stop? else leg.terms.kind.Limit?)
  }

  lemma LegsAreLegs(parent: OrderState, spec: BracketSpec, fill: Fill, i: Instrument)
    requires Legs(parent, spec, fill, i).Ok?
    ensures
      var legs := Legs(parent, spec, fill, i).value;
      && |legs| <= 2
      && (forall k | 0 <= k < |legs| :: IsLegOf(legs[k], parent, fill.timestamp))
      && (|legs| == 2 ==> legs[0].terms.id == StopId(parent.terms.id) && legs[1].terms.id == TargetId(parent.terms.id))
  {
    assert StopId(parent.terms.id) != TargetId(parent.terms.id) by {
      assert StopId(parent.terms.id)[|parent.terms.id| + 1] == 'S';
      assert TargetId(parent.terms.id)[|parent.terms.id| + 1] == 'T';
    }
  }

  lemma SubmitLegsEffect(cfg: Config, s: State, legs: seq<OrderState>, busy: set<InstrumentId>)
    requires Inv(s, busy) && SubmitLegs(cfg, s, legs).Ok?
    ensures
      var t := SubmitLegs(cfg, s, legs).value;
      && Inv(t, busy) && Since(s, t) && t.oco == s.oco && t.log == s.log
      && (forall leg | leg in legs ::
            leg.terms.id !in s.orders && leg.terms.id in t.orders && t.orders[leg.terms.id].terms == leg.terms)
    decreases |legs|
  {
    hide Inv, Submit;
    if legs == [] {
    } else {
      SubmitEffect(cfg, s, legs[0]);
      SubmitKeeps(cfg, s, legs[0], busy);
      var s1 := Submit(cfg, s, legs[0]).value;
      SubmitLegsEffect(cfg, s1, legs[1..], busy);
      SinceTransitive(s, s1, SubmitLegs(cfg, s, legs).value);
      assert forall leg | leg in legs :: leg == legs[0] || leg in legs[1..];
    }
  }

  lemma PairKeeps(s: State, a: OrderState, b: OrderState, busy: set<InstrumentId>)
    requires Inv(s, busy) && a.terms.id != b.terms.id && a.terms.instrument == b.terms.instrument
    requires forall leg | leg in {a, b} ::
        leg.terms.id in s.orders && s.orders[leg.terms.id].terms == leg.terms && leg.terms.id !in s.oco
    ensures Inv(Pair(s, [a, b]), busy)
  {
    var t := Pair(s, [a, b]);
    assert a in {a, b} && b in {a, b};
    hide Shelved, Clean;
    PairLinked(s, a.terms.id, b.terms.id);
    hide Linked;
    ShapeShelved(s, t);
    ShapeClean(s, t, busy);
  }

  lemma PairLinked(s: State, a: OrderId, b: OrderId)
    requires Linked(s) && a != b && a in s.orders && b in s.orders && a !in s.oco && b !in s.oco
    requires s.orders[a].terms.instrument == s.orders[b].terms.instrument
    ensures Linked(s.(oco := s.oco[a := b][b := a]))
  {
  }

  lemma ResizedKeeps(s: State, id: OrderId, quantity: real, busy: set<InstrumentId>)
    requires Inv(s, busy)
    ensures Inv(Resized(s, id, quantity), busy)
  {
    hide Inv;
    ShapeKeeps(s, Resized(s, id, quantity), busy);
  }

  lemma ResizedSince(s: State, id: OrderId, quantity: real)
    ensures Since(s, Resized(s, id, quantity))
  {
  }

  lemma BracketsResize(s: State, id: OrderId, quantity: real, busy: set<InstrumentId>)
    requires Inv(s, busy)
    ensures
      var t := Resized(Resized(s, StopId(id), quantity), TargetId(id), quantity);
      Inv(t, busy) && Since(s, t) && t.log == s.log
  {
    var s1 := Resized(s, StopId(id), quantity);
    var s2 := Resized(s1, TargetId(id), quantity);
    hide Inv, Since;
    ResizedKeeps(s, StopId(id), quantity, busy);
    ResizedKeeps(s1, TargetId(id), quantity, busy);
    ResizedSince(s, StopId(id), quantity);
    ResizedSince(s1, TargetId(id), quantity);
    SinceTransitive(s, s1, s2);
  }

  lemma BracketsOpen(cfg: Config, s: State, legs: seq<OrderState>, busy: set<InstrumentId>)
    requires Inv(s, busy) && |legs| <= 2 && SubmitLegs(cfg, s, legs).Ok?
    requires |legs| == 2 ==>
        legs[0].terms.id != legs[1].terms.id && legs[0].terms.instrument == legs[1].terms.instrument
    ensures
      var t := Pair(SubmitLegs(cfg, s, legs).value, legs);
      Inv(t, busy) && Since(s, t) && t.log == s.log
  {
    hide Inv, Since, SubmitLegs;
    var s1 := SubmitLegs(cfg, s, legs).value;
    SubmitLegsEffect(cfg, s, legs, busy);
    if |legs| == 2 {
      assert legs[0] in legs && legs[1] in legs && legs == [legs[0], legs[1]];
      UnknownUnpaired(s, legs[0].terms.id, busy);
      UnknownUnpaired(s, legs[1].terms.id, busy);
      PairKeeps(s1, legs[0], legs[1], busy);
      SameRecordSince(s, s1, Pair(s1, legs));
    }
  }

  lemma UnknownUnpaired(s: State, id: OrderId, busy: set<InstrumentId>)
    requires Inv(s, busy) && id !in s.orders
    ensures id !in s.oco
  {
  }

  /** `Since` looks only at the orders and the records. */
  lemma SameRecordSince(s: State, t: State, u: State)
    requires Since(s, t) && u.orders == t.orders && u.submitted == t.submitted && u.log == t.log
    ensures Since(s, u)
  {
  }

  lemma ActivateKeeps(cfg: Config, s: State, id: OrderId, fill: Fill, i: Instrument, busy: set<InstrumentId>)
    requires Inv(s, busy) && id in s.orders && ActivateBrackets(cfg, s, id, fill, i).Ok?
    ensures
      var t := ActivateBrackets(cfg, s, id, fill, i).value;
      Inv(t, busy) && Since(s, t) && t.log == s.log
  {
    hide Inv;
    var parent := s.orders[id];
    if id in s.brackets {
      if Untouched(s, StopId(id)) || Untouched(s, TargetId(id)) {
        BracketsResize(s, id, parent.filled, busy);
      } else {
        LegsAreLegs(parent, s.brackets[id], fill, i);
        var legs := Legs(parent, s.brackets[id], fill, i).value;
        hide Legs, Since;
        BracketsOpen(cfg, s, legs, busy);
      }
    }
  }

  // ---- one order against one bar -------------------------------------------------------------------------------

  /** A verdict changes an order only as the rules allow. */
  ghost predicate IsVerdict(o: OrderState, v: Verdict, seqNo: nat) {
    match v
    case NoPrint(a) => a == o.(activatedAt := a.activatedAt) && o.IsOpen()
    case Print(a, fill) => a == o.(activatedAt := a.activatedAt) && fill.seqNo == seqNo && a.Refusal(fill).None?
    case _ => true
  }

  lemma JudgeIsVerdict(cfg: Config, o: OrderState, i: Instrument, snap: Snapshot, seqNo: nat, volume: real)
    ensures IsVerdict(o, Judge(cfg, o, i, snap, seqNo, volume), seqNo)
  {
  }

  lemma SettleOcoKeeps(s: State, id: OrderId, busy: set<InstrumentId>)
    requires Inv(s, busy)
    ensures Inv(SettleOco(s, id), busy)
  {
    hide Inv;
    if id in s.oco {
      var s1 := Unlink(s, id);
      UnlinkKeeps(s, id, busy);
      if Cancellable(s1, s.oco[id]) {
        CloseKeeps(s1, s.oco[id], Cancelled, busy);
        hide Close;
        ShapeKeeps(Cancel(s1, s.oco[id]), SettleOco(s, id), busy);
      }
    }
  }

  lemma SettleOcoSince(s: State, id: OrderId)
    ensures Since(s, SettleOco(s, id)) && SettleOco(s, id).log == s.log
  {
  }

  lemma ExpireKeeps(s: State, id: OrderId, busy: set<InstrumentId>)
    requires Inv(s, busy) && Cancellable(s, id)
    ensures Inv(Expire(s, id), busy)
  {
    hide Inv;
    CloseKeeps(s, id, Expired, busy);
    hide Close;
    ShapeKeeps(Close(s, id, Expired), Expire(s, id), busy);
  }

  lemma ExpireSince(s: State, id: OrderId)
    requires Cancellable(s, id)
    ensures Since(s, Expire(s, id)) && Expire(s, id).log == s.log
  {
  }

  lemma RecordKeeps(cfg: Config, s: State, id: OrderId, a: OrderState, fill: Fill, busy: set<InstrumentId>)
    requires Inv(s, busy) && Cancellable(s, id) && a.terms == s.orders[id].terms && a.terms.instrument in busy
    requires fill.seqNo == s.nextFill + 1
    ensures Inv(Record(cfg, s, id, a.Booked(fill), fill), busy)
  {
    var t := Record(cfg, s, id, a.Booked(fill), fill);
    var put := Put(s, id, a.Booked(fill));
    assert Numbered(s);
    if a.Booked(fill).IsOpen() {
      hide Inv;
      ShapeKeeps(s, put, busy);
    } else {
      hide Inv;
      SettleKeeps(s, id, a.Booked(fill), busy);
      assert busy + {a.terms.instrument} == busy;
    }
    LogKeeps(put, t, busy);
  }

  /** Only the records grew, by one fill. */
  lemma LogKeeps(s: State, t: State, busy: set<InstrumentId>)
    requires Inv(s, busy) && SameShape(s, t) && t.brackets == s.brackets && t.oco == s.oco
    requires t.nextFill == s.nextFill + 1 && |t.log| == |s.log| + 1 && s.log == t.log[..|s.log|]
    requires t.log[|s.log|].seqNo == t.nextFill
    ensures Inv(t, busy)
  {
    assert Numbered(t);
    assert Linked(t);
    ShapeShelved(s, t);
    ShapeClean(s, t, busy);
  }

  lemma RecordSince(cfg: Config, s: State, id: OrderId, o: OrderState, fill: Fill)
    requires Cancellable(s, id) && o.terms == s.orders[id].terms
    ensures Since(s, Record(cfg, s, id, o, fill))
  {
  }

  lemma FinishKeeps(cfg: Config, s: State, id: OrderId, busy: set<InstrumentId>)
    requires Inv(s, busy) && id in s.orders && (s.orders[id].IsOpen() || s.orders[id].status.Filled?)
    ensures Inv(FinishPrint(cfg, s, id), busy)
    ensures Since(s, FinishPrint(cfg, s, id)) && FinishPrint(cfg, s, id).log == s.log
  {
    hide Inv, Since;
    if s.orders[id].status.Filled? {
      hide SettleOco;
      SettleOcoKeeps(s, id, busy);
      SettleOcoSince(s, id);
    } else if FinishPrint(cfg, s, id) != s {
      CloseKeeps(s, id, Cancelled, busy);
      CloseSince(s, id, Cancelled);
      hide Close;
      ShapeKeeps(Close(s, id, Cancelled), CancelRemainder(s, id), busy);
      SameRecordSince(s, Close(s, id, Cancelled), CancelRemainder(s, id));
    } else {
      NothingSince(s);
    }
  }

  lemma NothingSince(s: State)
    ensures Since(s, s)
  {
  }

  lemma PutSince(s: State, id: OrderId, o: OrderState)
    requires id in s.orders && (s.orders[id].IsOpen() || o == s.orders[id]) && o.terms == s.orders[id].terms
    ensures Since(s, Put(s, id, o))
  {
  }

  lemma RatchetKeeps(s: State, id: OrderId, bar: Option<Bar>, busy: set<InstrumentId>)
    requires Inv(s, busy) && id in s.orders
    ensures
      var t := Put(s, id, Ratcheted(s.orders[id], bar));
      Inv(t, busy) && Since(s, t)
  {
    hide Inv;
    ShapeKeeps(s, Put(s, id, Ratcheted(s.orders[id], bar)), busy);
    PutSince(s, id, Ratcheted(s.orders[id], bar));
  }

  lemma NoPrintKeeps(s: State, id: OrderId, a: OrderState, bar: Option<Bar>, busy: set<InstrumentId>)
    requires Inv(s, busy) && Cancellable(s, id) && IsVerdict(s.orders[id], NoPrint(a), 0)
    ensures
      var s1 := Put(s, id, Ratcheted(a, bar));
      && Inv(s1, busy) && Since(s, s1)
      && Inv(Expire(s1, id), busy) && Since(s, Expire(s1, id))
  {
    hide Inv, Since;
    var s1 := Put(s, id, Ratcheted(a, bar));
    ShapeKeeps(s, s1, busy);
    PutSince(s, id, Ratcheted(a, bar));
    ExpireKeeps(s1, id, busy);
    ExpireSince(s1, id);
    hide Expire;
    SinceTransitive(s, s1, Expire(s1, id));
  }

  lemma PrintKeeps(cfg: Config, s: State, id: OrderId, a: OrderState, fill: Fill, i: Instrument, bar: Option<Bar>,
                   busy: set<InstrumentId>)
    requires Inv(s, busy) && Cancellable(s, id) && s.orders[id].terms.instrument in busy
    requires IsVerdict(s.orders[id], Print(a, fill), s.nextFill + 1) && Enact(cfg, s, id, Print(a, fill), i, bar).Ok?
    ensures
      var t := Enact(cfg, s, id, Print(a, fill), i, bar).value;
      Inv(t, busy) && Since(s, t)
  {
    hide Inv;
    var s1 := Record(cfg, s, id, a.Booked(fill), fill);
    RecordKeeps(cfg, s, id, a, fill, busy);
    RecordSince(cfg, s, id, a.Booked(fill), fill);
    var s2 := ActivateBrackets(cfg, s1, id, fill, i).value;
    ActivateKeeps(cfg, s1, id, fill, i, busy);
    SinceTransitive(s, s1, s2);
    assert s2.orders[id].IsOpen() || s2.orders[id].status.Filled? by {
      StatusStays(cfg, s1, id, fill, i);
    }
    hide ActivateBrackets, Since;
    var s3 := FinishPrint(cfg, s2, id);
    FinishKeeps(cfg, s2, id, busy);
    SinceTransitive(s, s2, s3);
    hide FinishPrint;
    RatchetKeeps(s3, id, bar, busy);
    SinceTransitive(s, s3, Put(s3, id, Ratcheted(s3.orders[id], bar)));
  }

  /** Activating brackets settles nothing. */
  lemma StatusStays(cfg: Config, s: State, id: OrderId, fill: Fill, i: Instrument)
    requires id in s.orders && ActivateBrackets(cfg, s, id, fill, i).Ok?
    ensures forall x | x in s.orders ::
        ActivateBrackets(cfg, s, id, fill, i).value.orders[x].status == s.orders[x].status
  {
    if id in s.brackets && !(Untouched(s, StopId(id)) || Untouched(s, TargetId(id))) {
      SubmitLegsStatus(cfg, s, Legs(s.orders[id], s.brackets[id], fill, i).value);
    }
  }

  lemma SubmitLegsStatus(cfg: Config, s: State, legs: seq<OrderState>)
    requires SubmitLegs(cfg, s, legs).Ok?
    ensures forall x | x in s.orders ::
        x in SubmitLegs(cfg, s, legs).value.orders && SubmitLegs(cfg, s, legs).value.orders[x] == s.orders[x]
    decreases |legs|
  {
    if legs != [] {
      SubmitEffect(cfg, s, legs[0]);
      SubmitLegsStatus(cfg, Submit(cfg, s, legs[0]).value, legs[1..]);
    }
  }

  lemma EnactKeeps(cfg: Config, s: State, id: OrderId, v: Verdict, i: Instrument, bar: Option<Bar>,
                   busy: set<InstrumentId>)
    requires Inv(s, busy) && Cancellable(s, id) && s.orders[id].terms.instrument in busy
    requires IsVerdict(s.orders[id], v, s.nextFill + 1) && Enact(cfg, s, id, v, i, bar).Ok?
    ensures
      var t := Enact(cfg, s, id, v, i, bar).value;
      Inv(t, busy) && Since(s, t)
  {
    match v
    case Lapsed =>
      hide Inv, Since;
      ExpireKeeps(s, id, busy);
      ExpireSince(s, id);
    case NoPrint(a) =>
      hide Inv, Since;
      NoPrintKeeps(s, id, a, bar, busy);
    case Print(a, fill) =>
      hide Inv, Since;
      PrintKeeps(cfg, s, id, a, fill, i, bar, busy);
    case _ =>
  }

  // ---- whole bars and whole runs -------------------------------------------------------------------------------

  lemma WorkOrderKeeps(cfg: Config, s: State, id: OrderId, i: Instrument, snap: Snapshot, busy: set<InstrumentId>)
    requires Inv(s, busy) && Cancellable(s, id) && s.orders[id].terms.instrument in busy
    requires WorkOrder(cfg, s, id, i, snap).Ok?
    ensures
      var t := WorkOrder(cfg, s, id, i, snap).value;
      Inv(t, busy) && Since(s, t)
  {
    hide Inv, Since, Judge, IsVerdict, Enact;
    var o := s.orders[id];
    var volume := PeriodVolume(cfg, s, snap.timestamp);
    JudgeIsVerdict(cfg, o, i, snap, s.nextFill + 1, volume);
    EnactKeeps(cfg, s, id, Judge(cfg, o, i, snap, s.nextFill + 1, volume), i, MarketBar(snap, o.terms.instrument, i),
               busy);
  }

  lemma WorkAllKeeps(cfg: Config, s: State, ids: seq<OrderId>, inst: InstrumentId, i: Instrument, snap: Snapshot)
    requires Inv(s, {inst}) && WorkAll(cfg, s, ids, i, snap).Ok?
    requires forall id | id in ids :: id in s.orders && s.orders[id].terms.instrument == inst
    ensures
      var t := WorkAll(cfg, s, ids, i, snap).value;
      Inv(t, {inst}) && Since(s, t)
    decreases |ids|
  {
    hide Inv, WorkOrder;
    if ids == [] {
    } else {
      var s1 := s;
      if Cancellable(s, ids[0]) {
        WorkOrderKeeps(cfg, s, ids[0], i, snap, {inst});
        s1 := WorkOrder(cfg, s, ids[0], i, snap).value;
      }
      WorkAllKeeps(cfg, s1, ids[1..], inst, i, snap);
      SinceTransitive(s, s1, WorkAll(cfg, s, ids, i, snap).value);
    }
  }

  lemma PruneKeeps(s: State, inst: InstrumentId)
    requires Inv(s, {inst})
    ensures Inv(Prune(s, inst), {}) && Since(s, Prune(s, inst))
  {
    if inst in s.books {
      var gone := (set id | id in s.books[inst]) - s.Open();
      assert Linked(s) && Shelved(s) && Shelves(s) && Clean(s, {inst});
      assert Prune(s, inst).brackets == s.brackets - gone;
      hide Inv, Linked, Shelved, Shelves, Clean, Prune;
      PruneShelved(s, inst);
      PruneClean(s, inst);
      DropBracketsLinked(s, Prune(s, inst), gone);
    }
  }

  lemma PruneShelved(s: State, inst: InstrumentId)
    requires Shelved(s)
    ensures Shelved(Prune(s, inst))
  {
    if inst in s.books {
      var kept := Keep(s.books[inst], s.Open());
      var s1 := s.(brackets := s.brackets - ((set id | id in s.books[inst]) - s.Open()));
      KeepMembers(s.books[inst], s.Open());
      KeepTwice(s.books[inst], s.Open());
      assert s1.Open() == s.Open();
      hide Shelved, Keep;
      ShapeShelved(s, s1);
      SetBookKeeps(s1, inst, kept);
    }
  }

  lemma PruneClean(s: State, inst: InstrumentId)
    requires Shelves(s) && Clean(s, {inst})
    ensures Clean(Prune(s, inst), {})
  {
    if inst in s.books {
      KeepMembers(s.books[inst], s.Open());
    }
  }

  /** What a clean book offers for working. */
  lemma BookReady(s: State, inst: InstrumentId)
    requires Inv(s, {}) && inst in s.books
    ensures Inv(s, {inst})
    ensures forall id | id in MatchingOrder(s, s.books[inst]) :: id in s.orders && s.orders[id].terms.instrument == inst
  {
    MatchingOrderMembers(s, s.books[inst]);
    assert Shelves(s);
    hide MatchingOrder;
  }

  lemma WorkBookKeeps(cfg: Config, s: State, inst: InstrumentId, snap: Snapshot)
    requires Inv(s, {}) && WorkBook(cfg, s, inst, snap).Ok?
    ensures
      var t := WorkBook(cfg, s, inst, snap).value;
      Inv(t, {}) && Since(s, t)
  {
    hide Inv, WorkAll, MatchingOrder, Prune;
    if inst in s.books {
      var ids := MatchingOrder(s, s.books[inst]);
      BookReady(s, inst);
      WorkAllKeeps(cfg, s, ids, inst, cfg.instruments[inst], snap);
      var s1 := WorkAll(cfg, s, ids, cfg.instruments[inst], snap).value;
      PruneKeeps(s1, inst);
      SinceTransitive(s, s1, Prune(s1, inst));
    }
  }

  lemma MatchingOrderMembers(s: State, book: seq<OrderId>)
    ensures forall id :: id in MatchingOrder(s, book) <==> id in book
  {
    var all := set id | id in book;
    KeepMembers(book, s.Stops());
    KeepMembers(book, all - s.Stops());
    forall id ensures id in MatchingOrder(s, book) <==> id in book {
      assert id in book <==> id in all;
    }
  }

  lemma WorkBooksKeeps(cfg: Config, s: State, keys: seq<InstrumentId>, snap: Snapshot)
    requires Inv(s, {}) && WorkBooks(cfg, s, keys, snap).Ok?
    ensures
      var t := WorkBooks(cfg, s, keys, snap).value;
      Inv(t, {}) && Since(s, t)
    decreases |keys|
  {
    hide Inv, WorkBook;
    if keys == [] {
    } else {
      var s1 := WorkBook(cfg, s, keys[0], snap).value;
      WorkBookKeeps(cfg, s, keys[0], snap);
      WorkBooksKeeps(cfg, s1, keys[1..], snap);
      SinceTransitive(s, s1, WorkBooks(cfg, s, keys, snap).value);
    }
  }

  lemma CancelKeeps(s: State, id: OrderId)
    requires Inv(s, {})
    ensures Inv(Cancel(s, id), {}) && Since(s, Cancel(s, id))
  {
    hide Inv, Close;
    if Cancellable(s, id) {
      CloseKeeps(s, id, Cancelled, {});
      CloseSince(s, id, Cancelled);
    }
  }

  lemma CancelEachKeeps(s: State, ids: seq<OrderId>)
    requires Inv(s, {})
    ensures Inv(CancelEach(s, ids), {}) && Since(s, CancelEach(s, ids))
    decreases |ids|
  {
    hide Inv, Cancel;
    if ids == [] {
    } else {
      CancelKeeps(s, ids[0]);
      CancelEachKeeps(Cancel(s, ids[0]), ids[1..]);
      SinceTransitive(s, Cancel(s, ids[0]), CancelEach(s, ids));
    }
  }

  /** Every call keeps the maps consistent, forgets nothing and changes no settled order. */
  lemma StepKeeps(cfg: Config, s: State, c: Command)
    requires Inv(s, {}) && Step(cfg, s, c).Ok?
    ensures
      var t := Step(cfg, s, c).value;
      Inv(t, {}) && Since(s, t)
  {
    hide Inv;
    match c
    case SubmitOrder(terms, quantity, stop) =>
      var o := NewOrder(terms, quantity, stop).value;
      SubmitKeeps(cfg, s, o, {});
      SubmitEffect(cfg, s, o);
    case CancelOrder(id) =>
      CancelKeeps(s, id);
    case CancelAll(instrument) =>
      hide WorkingOrders, CancelEach;
      CancelEachKeeps(s, WorkingOrders(s, instrument));
    case Bar(snap) =>
      var s1 := s.(out := NO_RESULT.(rejections := s.pending), pending := []);
      hide WorkBooks;
      ShapeKeeps(s, s1, {});
      WorkBooksKeeps(cfg, s1, s.bookOrder, snap);
      SinceTransitive(s, s1, WorkBooks(cfg, s1, s.bookOrder, snap).value);
  }

  lemma InitHolds()
    ensures Inv(Init, {})
  {
  }

  /** One more call. */
  lemma RunAppend(cfg: Config, commands: seq<Command>, c: Command)
    ensures Run(cfg, commands + [c])
              == if Run(cfg, commands).Ok? then Step(cfg, Run(cfg, commands).value, c) else Run(cfg, commands)
  {
    assert (commands + [c])[..|commands|] == commands;
    hide Step;
  }

  /** In every state a run reaches, working_orders(i) is the open orders of i in submission order, pairs are symmetric,
      fill ids count up, and no book and no bracket refers to a settled order. */
  lemma {:induction false} RunInvariant(cfg: Config, commands: seq<Command>)
    requires Run(cfg, commands).Ok?
    ensures Inv(Run(cfg, commands).value, {})
  {
    if commands == [] {
      InitHolds();
    } else {
      hide Inv, Step;
      var prefix := commands[..|commands| - 1];
      RunInvariant(cfg, prefix);
      StepKeeps(cfg, Run(cfg, prefix).value, commands[|commands| - 1]);
    }
  }

  /** What a prefix of a run settled stays settled through the rest of it. */
  lemma {:induction false} RunSince(cfg: Config, commands: seq<Command>, k: nat)
    requires k <= |commands| && Run(cfg, commands).Ok?
    ensures Run(cfg, commands[..k]).Ok? && Since(Run(cfg, commands[..k]).value, Run(cfg, commands).value)
    decreases |commands|
  {
    if k == |commands| {
      assert commands[..k] == commands;
    } else {
      hide Inv, Step;
      var prefix := commands[..|commands| - 1];
      assert prefix[..k] == commands[..k];
      RunSince(cfg, prefix, k);
      RunInvariant(cfg, prefix);
      StepKeeps(cfg, Run(cfg, prefix).value, commands[|commands| - 1]);
      SinceTransitive(Run(cfg, commands[..k]).value, Run(cfg, prefix).value, Run(cfg, commands).value);
    }
  }

  /** `working_orders`, with and without an instrument, on every reachable state. */
  lemma WorkingOrdersAreTheOpenOrders(cfg: Config, commands: seq<Command>, i: InstrumentId)
    requires Run(cfg, commands).Ok?
    ensures
      var s := Run(cfg, commands).value;
      && WorkingOrders(s, Some(i)) == Keep(WorkingOrders(s, None), s.OpenIn(i))
      && (forall id :: id in WorkingOrders(s, Some(i)) <==> id in s.OpenIn(i))
      && NoDups(WorkingOrders(s, None))
      && (i in s.books ==> s.books[i] == WorkingOrders(s, Some(i)))
      && (forall id | id in s.brackets :: Cancellable(s, id))
  {
    var s := Run(cfg, commands).value;
    RunInvariant(cfg, commands);
    KeepMembers(s.submitted, s.OpenIn(i));
    KeepTwiceSubset(s.submitted, s.Open(), s.OpenIn(i));
    KeepNoDups(s.submitted, s.Open());
    if i in s.books {
      KeepAll(s.books[i], s.Open());
    }
  }

  lemma KeepTwiceSubset<T>(xs: seq<T>, a: set<T>, b: set<T>)
    requires b <= a
    ensures Keep(Keep(xs, a), b) == Keep(xs, b)
  {
    if xs != [] {
      KeepTwiceSubset(xs[..|xs| - 1], a, b);
      KeepAppend(Keep(xs[..|xs| - 1], a), xs[|xs| - 1], b);
    }
  }

  lemma KeepNoDups<T>(xs: seq<T>, chosen: set<T>)
    requires NoDups(xs)
    ensures NoDups(Keep(xs, chosen))
  {
    if xs != [] {
      KeepNoDups(xs[..|xs| - 1], chosen);
      KeepMembers(xs[..|xs| - 1], chosen);
    }
  }

  lemma KeepAll<T>(xs: seq<T>, chosen: set<T>)
    requires forall x | x in xs :: x in chosen
    ensures Keep(xs, chosen) == xs
  {
    if xs != [] {
      KeepAll(xs[..|xs| - 1], chosen);
    }
  }
}
