/** What the broker promises over whole runs. */
module BrokerTheorems {
  import opened Types
  import opened Orders
  import opened Execution
  import opened BrokerSpec
  import opened BrokerIndex
  import opened BrokerLedger
  import opened BrokerBrackets
  import opened BrokerOco
  import opened BrokerRuns

  ghost predicate TidyRun(cfg: Config, commands: seq<Command>) {
    Run(cfg, commands).Ok? && forall c | c in commands :: Tidy(c)
  }

  /** An order's report agrees with the record of fills: the filled quantity is their sum up to the tolerance, and
      exactly it unless the order completed; the average price is their exact volume-weighted mean; they never exceed
      the size by more than the tolerance; the one that completes it is the one not flagged partial; fill-or-kill is
      none or one of the whole size; and every fill keeps to the order's instrument, side, limit and submission time. */
  ghost predicate Reports(cfg: Config, s: State, id: OrderId)
    requires id in s.orders
  {
    var o, sum := s.orders[id], FilledIn(s.log, id);
    && o.avgPrice * sum == PaidIn(s.log, id)
    && sum <= Max(o.quantity, 0.0) + QUANTITY_TOLERANCE && Abs(o.filled - sum) <= QUANTITY_TOLERANCE
    && (if o.status.Filled? then o.filled == o.quantity else o.filled == sum)
    && Completions(s.log, id) == (if o.status.Filled? then 1 else 0)
    && (o.terms.tif.Fok? ==>
          Prints(s.log, id) == 0 || (Prints(s.log, id) == 1 && sum == o.quantity && o.status.Filled?))
    && (forall k | 0 <= k < |s.log| && s.log[k].orderId == id :: Honours(cfg, s.log[k], o.terms))
  }

  lemma StateReports(cfg: Config, s: State, id: OrderId)
    requires Ledger(cfg, s) && id in s.orders && s.orders[id].terms.id == id
    ensures Reports(cfg, s, id)
  {
    hide FilledIn, PaidIn, Prints, Completions, Honours, Tallied;
    LedgerHonours(cfg, s, id);
    assert Tallied(s.orders[id], s.log);
    TallyReport(s.orders[id], s.log);
  }

  /** After any run every order's report is right, and an order that gets one look is settled by it. */
  lemma FillReports(cfg: Config, commands: seq<Command>, id: OrderId)
    requires Run(cfg, commands).Ok? && id in Run(cfg, commands).value.orders
    ensures
      var s := Run(cfg, commands).value;
      && Reports(cfg, s, id)
      && (s.orders[id].terms.tif in {Ioc, Fok} && s.orders[id].activatedAt.Some? ==> !s.orders[id].IsOpen())
  {
    RunSound(cfg, commands, false);
    RunInvariant(cfg, commands);
    var s := Run(cfg, commands).value;
    InvPaired(s, {});
    KeyedAt(s, id);
    hide Run, Inv, Keyed, Paired, Bracketed, Reports, Ledger, Protective, Followed, Exclusive, NeverShort;
    StateReports(cfg, s, id);
  }

  lemma KeyedAt(s: State, id: OrderId)
    requires Keyed(s) && id in s.orders
    ensures s.orders[id].terms.id == id
  {
  }

  lemma LedgerHonours(cfg: Config, s: State, id: OrderId)
    requires Ledger(cfg, s) && id in s.orders
    ensures forall k | 0 <= k < |s.log| && s.log[k].orderId == id :: Honours(cfg, s.log[k], s.orders[id].terms)
  {
  }

  lemma TallyReport(o: OrderState, log: seq<Fill>)
    requires Tallied(o, log)
    ensures
      var sum := FilledIn(log, o.terms.id);
      && sum <= Max(o.quantity, 0.0) + QUANTITY_TOLERANCE && Abs(o.filled - sum) <= QUANTITY_TOLERANCE
      && o.avgPrice * sum == PaidIn(log, o.terms.id)
      && (if o.status.Filled? then o.filled == o.quantity else o.filled == sum)
      && Completions(log, o.terms.id) == (if o.status.Filled? then 1 else 0)
      && (o.terms.tif.Fok? ==>
            Prints(log, o.terms.id) == 0 || (Prints(log, o.terms.id) == 1 && sum == o.quantity && o.status.Filled?))
  {
    hide FilledIn, PaidIn, Prints, Completions;
  }

  /** While nothing of a bracket leg has filled, it protects exactly what its parent has filled. */
  lemma ProtectiveSizing(cfg: Config, commands: seq<Command>, p: OrderId, x: OrderId)
    requires TidyRun(cfg, commands) && x in {StopId(p), TargetId(p)}
    ensures
      var s := Run(cfg, commands).value;
      Untouched(s, x) ==> p in s.orders && s.orders[x].quantity == s.orders[p].filled && s.orders[p].filled > 0.0
  {
    RunSound(cfg, commands, true);
    var s := Run(cfg, commands).value;
    hide Run;
    LegIds(p);
    assert Guarded(s, x);
  }

  /** Ahead of a leg's every print the log holds the print on its parent that raised it: opposite, of the instant the
      leg was submitted, and strictly earlier in time under either next-bar model. */
  lemma LegsFillAfterTheirParent(cfg: Config, commands: seq<Command>, p: OrderId, k: nat)
    requires TidyRun(cfg, commands)
    requires k < |Run(cfg, commands).value.log| && Run(cfg, commands).value.log[k].orderId in {StopId(p), TargetId(p)}
    ensures
      var s := Run(cfg, commands).value;
      var x := s.log[k].orderId;
      && x in s.orders
      && exists j :: 0 <= j < k && s.log[j].orderId == p && s.log[j].timestamp == s.orders[x].terms.submittedAt
                     && s.log[j].side == s.log[k].side.Opposite() && s.log[j].instrument == s.log[k].instrument
                     && if cfg.execution.SameBarClose? then s.log[j].timestamp <= s.log[k].timestamp
                        else s.log[j].timestamp < s.log[k].timestamp
  {
    RunSound(cfg, commands, true);
    var s := Run(cfg, commands).value;
    hide Run;
    LegIds(p);
    var x := s.log[k].orderId;
    assert Ledger(cfg, s) && Honours(cfg, s.log[k], s.orders[x].terms);
    assert Guarded(s, x);
    hide StopId, TargetId;
    var j :| 0 <= j < k && s.log[..k][j].orderId == p && s.log[..k][j].timestamp == s.orders[x].terms.submittedAt;
    assert s.log[j] == s.log[..k][j];
    assert Honours(cfg, s.log[j], s.orders[p].terms);
  }

  /** What an order has filled, nothing when it does not exist. */
  function FilledBy(s: State, id: OrderId): real {
    if id in s.orders then s.orders[id].filled else 0.0
  }

  /** At most one leg of `p` has printed; it closed all that `p` has filled. */
  predicate OneLegOut(s: State, p: OrderId) {
    var prints := Prints(s.log, StopId(p)) + Prints(s.log, TargetId(p));
    var net := FilledBy(s, p) - FilledBy(s, StopId(p)) - FilledBy(s, TargetId(p));
    prints <= 1 && net == if prints == 0 then FilledBy(s, p) else 0.0
  }

  /** While no leg of a bracket prints in part, at most one of the two ever prints, and the entry and its legs together
      come to nothing or to what the entry has filled. */
  lemma OneLegFills(cfg: Config, commands: seq<Command>, p: OrderId)
    requires TidyRun(cfg, commands) && Tame(Run(cfg, commands).value.log, p)
    ensures OneLegOut(Run(cfg, commands).value, p)
  {
    RunSound(cfg, commands, true);
    RunInvariant(cfg, commands);
    var s := Run(cfg, commands).value;
    InvPaired(s, {});
    hide Run, Inv, Paired, Bracketed;
    assert Rivals(s, p);
    LegPrints(cfg, s, StopId(p));
    LegPrints(cfg, s, TargetId(p));
    hide Protective, OneLook, Ledger, StopId, TargetId, Entire, Priced, StopLevel, TargetLevel;
  }

  /** And only then: on an entry that printed entire, or at prices above zero, a leg's print that falls short leaves
      the bracket half closed, or printing twice. */
  lemma OneLegFillsIff(cfg: Config, commands: seq<Command>, p: OrderId)
    requires TidyRun(cfg, commands)
    requires Entire(Run(cfg, commands).value.log, p) || Priced(Run(cfg, commands).value.log, p)
    ensures
      var s := Run(cfg, commands).value;
      OneLegOut(s, p) <==> Entire(s.log, StopId(p)) && Entire(s.log, TargetId(p))
  {
    var s := Run(cfg, commands).value;
    if Entire(s.log, StopId(p)) && Entire(s.log, TargetId(p)) {
      OneLegFills(cfg, commands, p);
    } else {
      RunSound(cfg, commands, true);
      RunInvariant(cfg, commands);
      InvPaired(s, {});
      LegIds(p);
      hide Run, Inv, Paired, Bracketed, Exclusive, OneLook, Followed, StopId, TargetId, Entire, Priced;
      if !Entire(s.log, StopId(p)) {
        ShortLegOut(cfg, s, p, StopId(p), TargetId(p));
      } else {
        ShortLegOut(cfg, s, p, TargetId(p), StopId(p));
      }
    }
  }

  lemma {:induction false} ShortPrints(log: seq<Fill>, id: OrderId)
    ensures Prints(log, id) >= Completions(log, id)
    ensures Prints(log, id) == Completions(log, id) ==> Entire(log, id)
  {
    if log != [] {
      ShortPrints(log[..|log| - 1], id);
      assert forall k | 0 <= k < |log| - 1 :: log[k] == log[..|log| - 1][k];
    }
  }

  /** A leg that has printed in part has closed less than its parent has filled, unless it has printed again. */
  lemma ShortLegOut(cfg: Config, s: State, p: OrderId, x: OrderId, y: OrderId)
    requires Ledger(cfg, s) && Keyed(s) && Protective(s) && Reserved(x) && ParentId(x) == p && !Entire(s.log, x)
    ensures Prints(s.log, x) > 0
    ensures Prints(s.log, x) + Prints(s.log, y) == 1 ==> FilledBy(s, p) - FilledBy(s, x) - FilledBy(s, y) > 0.0
  {
    ShortPrints(s.log, x);
    assert Guarded(s, x);
    if x in s.orders {
      assert Tallied(s.orders[x], s.log);
    } else {
      NoPrints(s.log, x);
    }
    if y in s.orders {
      assert Tallied(s.orders[y], s.log);
    }
    hide Protective, ChildOf, Entire;
  }

  /** The configurations under which that is every bracket of every run: partial fills off, or liquidity uncapped.
      Then the entry, too, fills whole or not at all. */
  lemma OneLegFillsWhole(cfg: Config, commands: seq<Command>, p: OrderId)
    requires TidyRun(cfg, commands) && NeverShort(cfg)
    ensures
      var s := Run(cfg, commands).value;
      var net := FilledBy(s, p) - FilledBy(s, StopId(p)) - FilledBy(s, TargetId(p));
      && Prints(s.log, StopId(p)) + Prints(s.log, TargetId(p)) <= 1
      && (net == 0.0 || (p in s.orders && net == s.orders[p].quantity))
      && (Prints(s.log, StopId(p)) + Prints(s.log, TargetId(p)) > 0 ==> net == 0.0)
  {
    RunSound(cfg, commands, true);
    RunInvariant(cfg, commands);
    var s := Run(cfg, commands).value;
    InvPaired(s, {});
    NeverShortIsTame(cfg, s, p);
    OneLegFills(cfg, commands, p);
    hide Run, Inv, Paired, Bracketed;
    NeverShortEntire(cfg, s, p);
    LegPrints(cfg, s, p);
  }

  /** An order that only prints entire has printed once, if it is filled, or not at all. */
  lemma LegPrints(cfg: Config, s: State, x: OrderId)
    requires Ledger(cfg, s) && Keyed(s) && Entire(s.log, x)
    ensures Prints(s.log, x) == if x in s.orders && s.orders[x].status.Filled? then 1 else 0
    ensures FilledBy(s, x) == if x in s.orders && s.orders[x].status.Filled? then s.orders[x].quantity else 0.0
  {
    if x in s.orders {
      EntireIsWhole(cfg, s, x);
      assert Tallied(s.orders[x], s.log);
    } else {
      NoPrints(s.log, x);
    }
  }
}
