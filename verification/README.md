# Sigmaloop, modelled and proved

This project models the parts of the Sigmaloop backtester that decide what a run reports, and proves what they promise.
`dafny verify dfyconfig.toml` checks all of it.

**The simulated broker.** `BrokerSpec` is the broker as a state machine on values: the order map in insertion order, the
per-instrument books, the bracket specs, the OCO pairs, the pending rejections and the running totals, with one function
for each operation of the source. `SimulatedBroker` is the same broker as a class that mutates its maps and its `Order`
objects in place, each method proved to take the abstract state exactly where the specification does, exceptions
included; between calls the object stands where the run of the calls made on it does, so the theorems are about it. They
are about runs: any interleaving of submissions, cancels and bars, under arbitrary price, liquidity and cost models.

- `BrokerIndex`, `BrokerIntake`: the linked maps stay consistent, history is never rewritten, and which orders are
  refused, for what.
- `BrokerLooks`, `BrokerPrints`, `BrokerCosts`: a run is a chain of looks at one order on one bar; every fill is on a
  bar that lets its order trade, in its order's time, what a bar lets trade is filled, and every fill is charged for
  what the order and the month had printed before it.
- `BrokerLedger`, `BrokerTheorems`: what an order reports agrees with its fills, and a fill never precedes its order.
- `BrokerBrackets`, `BrokerOco`, `BrokerBars`: protective legs are sized to their parent, one leg fills, and a bar that
  reaches both stops out.
- `BrokerTrailing`, `BrokerLevels`: a leg starts at its bracket's level for what the entry has paid on average, and a
  trailing level is a running extreme over the bars since.
- `BrokerLots`, `BrokerRaises`: sizes stay whole lots, and which exceptions a bar can and cannot reach.
- `BrokerExamples`, `BrokerVanish`: runs that reach them, and runs in which brackets protect less than they promise.

**Prices** (`Money`, `Pricing`, `Execution`): the tick and lot grids, synthetic books, when and where a bar fills
an order, and the bounds a settled price obeys.

**The merging feed** (`FeedSpec`, `FeedMerge`, `FeedPriority`, `Feeds`): a merge of any number of streams that refills
while it drains and admits new streams between snapshots, proved to be "sort the union by time and group it by instant".

**The position ledger** (`Positions`): a FIFO deque consumed in place, proved against a queue that matches one unit at a
time, with cash conserved at every mark. **Expiry** (`Expiry`): what the policy settles, and that it pays what
the contract owes.

**CSV streaming** (`CsvSlices`, `CsvTables`, `CsvFold`, `CsvLoad`, `CsvJoin`): chopping a window into slices changes
neither the rows nor the bars folded from quotes, and the quotes joined to bars exactly as slices passed over decide.

**Costs, calendar, cache** (`Commission`, `Calendar`, `Caches`): what schedules ask, and that splitting an order does
not change it; the computus finds the Sunday after the paschal moon, and the closures are those of the rules; the
byte-bounded LRU cache keeps to its budget under its disk tier.

## Conventions

Time is `int` nanoseconds. Prices, money and the broker's quantities are `real`, with the source's 1e-9 tolerances kept
as they are. The position ledger counts quantities in grains, the smallest tradeable step, so that its dust tests are
tests for zero. The pluggable slippage, price and cost models are arbitrary functions in `BrokerSpec.Config`, so the
theorems hold for every implementation of them; the three shipped execution models are a datatype. Exceptions are
`Raised(error)`; what state an exception leaves behind is not specified.

## Where the code does less than its documentation says

- Filling a bracketed parent again after none of its legs can be resized any more raises the duplicate-id error:
  `BrokerRaises.DuplicateLegIff` says exactly when, and `BrokerExamples.BaredEntryRaises` is a run that ends so.
- A protective level under half a tick rounds to no price, and the print that would raise its leg raises an exception
  instead: `BrokerRaises.InvalidLegIff` says exactly when, and `BrokerVanish.LowLevelRaises` is a run that ends so.
- Snapping a truncated fill to lots can exceed what remains of the order, exactly when what remains is more than the
  tolerance and less than 1e-9 of a lot short of a whole number of lots: `BrokerRaises.OvershootIffJustBelowLot`,
  `BrokerRaises.OverFillIff`, and the run `BrokerExamples.HairShortOverfills`. While every order is for whole lots it
  never does, in any run: `BrokerRaises.RoundLotsNeverOverFill`.
- Legs can over-exit: a leg's print leaves its sibling live at full size exactly when it falls short of what remained
  (`BrokerOco.SiblingSurvivesIffShort`), and `BrokerExamples.LegsOverExit` is a run in which the two then close more
  than the entry, whether remainders are carried or dropped. They never do while no leg's fill is flagged partial
  (`BrokerTheorems.OneLegFills`), and so under every cap when partial fills are off; for an entry printed whole, or at
  prices above zero, it is if and only if (`BrokerTheorems.OneLegFillsIff`). An entry filled in parts at prices not all
  above zero is outside that: its percentage levels can vanish between prints (`BrokerOco.LevelsVanish`), and in the run
  `BrokerVanish.StoppedOutPrintsOn` an entry of ten that was stopped out of four buys the other six and stands bare.
- "The first configured provider wins" holds of a source in time order exactly when no slot's first offer stands behind
  a larger key of its instant: `FeedPriority.FirstProviderWinsIff`. `FeedMerge.TiesOutOfOrderLose` is a run that loses,
  and `FeedPriority.TiedStreamIsLate` its stream.
- Aligning a stream of quote bars fails for starts at or before the epoch: `CsvSlices.AlignedStartOnEdge`,
  `CsvSlices.Slices`. Slices so cut stream the window's bars exactly when no bar has rows in two of them, nor comes out
  of order (`CsvFold.SlicesFoldIff`); in `CsvFold.EpochStartDividesABar` one bar is streamed as two.
- Slices without bars are passed over before their quotes are read, so every later bar can miss them: a bar gets the
  whole window's quote exactly if some slice read by then reached back over it, `CsvJoin.GapDecides`. In
  `CsvJoin.SkippedQuoteIsLost` the loss outlasts the slice after the gap.
- Loading a series of quote bars keeps a bar that closes after the end and streaming does not;
  `CsvLoad.StreamingMatchesLoading`.
- A flat fee is charged again when the order's first print is no more than the 1e-9 tolerance;
  `Commission.SplitInvariance`. The broker never prints so little, so its orders pay for one print:
  `BrokerCosts.OrderPaysForOnePrint`.
- The month's volume behind a tiered schedule is that of the fills since the month last changed; it is the whole month's
  when bars come in time order (`BrokerCosts.MonthIsWhole`).
- A day order does not expire at a session's close but on the first bar of a later UTC date than its first bar's;
  `BrokerPrints.OrdersKeepTheirTime`.
- Physical settlement pays what is owed only if the exercise threshold is positive;
  `Expiry.NeutralUnlessThresholdDropped`.

## Model

| member | source | states |
|---|---|---|
| `BrokerIndex.RunInvariant` | sigmaloop/execution/broker.py:238-347 | In every state reached by any calls that do not raise: ids are keyed and listed once, each book is its instrument's open orders in submission order, no book is empty, OCO links are symmetric and irreflexive within one instrument, every open order with a bracket spec has its entry, fill ids are 1, 2, 3, …, and between calls no book and no bracket names a settled order |
| `BrokerIndex.RunSince` | sigmaloop/execution/broker.py:309-347 | Through the rest of a run nothing submitted or filled is forgotten, terms never change, and a settled order never changes again |
| `BrokerIndex.StepKeeps` | sigmaloop/execution/broker.py:238-341 | One call of any kind keeps the invariant and everything settled |
| `BrokerIndex.WorkingOrdersAreTheOpenOrders` | sigmaloop/execution/broker.py:343-347 | On every reachable state the two forms of `working_orders` agree: the instrument form is the whole form restricted to that instrument, contains exactly its open orders, each once, and is the book itself; every bracket entry is an open order's |
| `BrokerIndex.WorkOrderKeeps` | sigmaloop/execution/broker.py:354-408 | Working one order, whatever verdict it meets, keeps the linked maps consistent while its book is being worked |
| `BrokerIndex.ActivateKeeps` | sigmaloop/execution/broker.py:591-666 | Raising, resizing and pairing legs keeps the linked maps consistent |
| `BrokerIndex.ForgetKeeps` | sigmaloop/execution/broker.py:835-845 | Dropping a settled order from its book, bracket and pair restores the consistency of the maps |
| `BrokerIndex.PruneKeeps` | sigmaloop/execution/broker.py:847-859 | Pruning a worked book restores the between-calls invariant, bracket entries of filled orders included |
| `BrokerIndex.WorkBookKeeps` | sigmaloop/execution/broker.py:323-341 | Working and pruning a whole book takes clean states to clean states |
| `BrokerTheorems.FillReports` | sigmaloop/execution/broker.py:354-589 | After any run an order's filled quantity is the sum of its fills (up to the 1e-9 tolerance, exactly unless it completed) and never exceeds its size by more than that, its average price is their exact volume-weighted mean, the fill that completes it is the one not flagged partial, fill-or-kill has none or one fill of the whole size, an IOC or FOK order is settled by its first eligible bar, and every fill keeps the order's instrument, side and limit and is stamped strictly after submission under the two next-bar models |
| `BrokerTheorems.ProtectiveSizing` | sigmaloop/execution/broker.py:605-688 | In every reachable state a bracket leg with nothing filled protects exactly what its parent has filled, through any number of prints, dropped remainders and cancels |
| `BrokerTheorems.LegsFillAfterTheirParent` | sigmaloop/execution/broker.py:591-720 | Ahead of a leg's every fill the log holds an opposite fill of its parent stamped with the leg's own submission, strictly earlier in time under a next-bar model |
| `BrokerTheorems.OneLegFills` | sigmaloop/execution/broker.py:722-729 | While no fill of a leg is flagged partial (and the entry's, if any is, are priced above zero), at most one leg of a bracket ever prints, and entry and legs net to what the entry filled before it and to nothing after |
| `BrokerTheorems.OneLegFillsIff` | sigmaloop/execution/broker.py:722-729 | For an entry printed whole or at prices above zero, at most one leg has printed and the net is nothing or all exactly when no leg's print fell short |
| `BrokerTheorems.OneLegFillsWhole` | sigmaloop/execution/broker.py:429-437 | With partial fills off, or liquidity uncapped, that holds of every bracket of every run, and the entry too fills whole or not at all |
| `BrokerBars.BothLegsReachedStopsOut` | sigmaloop/execution/broker.py:862-864 | Where fills are never short, when both legs of a bracket are live and a bar in time crosses the stop with its range and takes some of it where it trades, whatever else it crosses, the bar leaves the stop filled and the target closed unfilled |
| `BrokerBars.UncappedStopsOut` | sigmaloop/execution/broker.py:862-864 | With uncapped liquidity it is enough that the bar's range crosses the stop |
| `BrokerBars.UncappedTakes` | sigmaloop/execution/broker.py:410-437 | With uncapped liquidity a bar takes all of any live order, whatever the price |
| `BrokerBars.ReachedIff` | sigmaloop/execution/models.py:182-264 | A bar reaches an order exactly when the order is open, was submitted in time, is not past its date or its day, and the bar lets it trade |
| `BrokerPrints.EveryFillIsOnABar` | sigmaloop/execution/broker.py:380-543 | Every fill of a run is on a bar of the run, at its time, where the order's type, level and side let it trade, at what the price model says to the price it trades at, settled |
| `BrokerPrints.WhatTradesIsFilled` | sigmaloop/execution/broker.py:323-408 | And conversely: with uncapped liquidity an open order that a bar lets trade is filled by that bar, unless cancelled on it first |
| `BrokerPrints.BarTakes` | sigmaloop/execution/broker.py:410-437 | A bar takes all that remains if as much is offered; else nothing of an all-or-none order or under an all-or-none policy; else the whole lots in what is offered |
| `BrokerPrints.OrdersKeepTheirTime` | sigmaloop/execution/models.py:182-208 | After any run no order has filled at or past its date, nor a day order on a later day than that of its first bar, and none has expired but by a bar of the run that so ended it |
| `BrokerPrints.FirstBarStays` | sigmaloop/execution/broker.py:375-378 | The first bar an order could trade on stays its first |
| `BrokerCosts.FillsAreBilled` | sigmaloop/execution/broker.py:506-523 | After any run every fill has been charged the cost model's non-negative answer on what its order had filled before it, what the month had traded before it and whether the order only reduces, and each order reports its fills' commission |
| `BrokerCosts.OrderPaysForOnePrint` | sigmaloop/execution/commission.py:55-67 | Under any commission schedule the fills of an order on like terms are charged in all what one print of their sum would be |
| `BrokerCosts.MonthIsWhole` | sigmaloop/execution/broker.py:506-512 | With bars in time order the month's volume is that of all its fills so far |
| `BrokerCosts.RunInOrder` | sigmaloop/execution/broker.py:525-530 | Bars in time order leave fills in time order, none after a later bar |
| `BrokerIntake.RefusedIff` | sigmaloop/execution/broker.py:255-299 | An order is refused for exactly the first reason there is, by the fields of order and instrument, and taken when there is none |
| `BrokerIntake.SubmissionIsDecided` | sigmaloop/execution/broker.py:238-307 | In any run a submission is then refused, kept out of the books and reported at the next bar, or accepted last in its book |
| `BrokerIntake.BuiltIff` | sigmaloop/domain/order.py:64-116 | Which orders can be built at all |
| `BrokerLooks.RunInduction` | sigmaloop/execution/broker.py:323-408 | What holds of a new broker and is kept by single looks, and by the changes between them that print nothing, holds after any run |
| `BrokerBars.StopsComeFirst` | sigmaloop/execution/broker.py:862-864 | In matching order no order without a stop level stands before a stop of the same book |
| `BrokerBars.StopBeforeTarget` | sigmaloop/execution/broker.py:323-341 | Where fills are never short, a stop leg the bar reaches and absorbs, listed ahead of its target, ends the pass filled, the target closed unfilled |
| `BrokerTrailing.TrailingLevelIsTheRunningExtreme` | sigmaloop/execution/broker.py:747-767 | From any point of a run, the level an open trailing stop carries is the running maximum (minimum for a buy) of its level then and `high*(1-pct)` (`low*(1+pct)`) over the bars it could have traded on since |
| `BrokerTrailing.LevelTightens` | sigmaloop/execution/broker.py:747-767 | That level only ever moves towards the market |
| `BrokerTrailing.RaisedAtBracketLevel` | sigmaloop/execution/broker.py:605-657 | A leg that a print raises starts, rounded, at the spec's price, or else so far from the parent's average as the spec's fraction of it: the stop on the losing side, the target on the gaining one |
| `BrokerTrailing.LevelsIff` | sigmaloop/execution/broker.py:621-645 | A spec calls for a leg exactly where that level is above zero; a fixed price goes ahead of a fraction, and the stop's fraction ahead of the trailing one |
| `BrokerTrailing.LegsStraddle` | sigmaloop/execution/broker.py:621-645 | By fractions between nothing and all of an entry above zero, stop and target are both called for, on either side of it, the stop below for a long and above for a short |
| `BrokerLevels.LegStartsAtItsLevel` | sigmaloop/execution/broker.py:605-657 | After the bar of a run that first shows a leg, its stop or limit is, rounded, the spec's price, or the spec's fraction away on the losing or the gaining side from the exact mean its parent had paid by one of that bar's prints |
| `BrokerLevels.TrailingLegRunsFromItsBracket` | sigmaloop/execution/broker.py:747-767 | From there to wherever in the run it is still open, a trailing leg's level is the running extreme started from that level |
| `BrokerTrailing.WorkOrderTrails` | sigmaloop/execution/broker.py:354-408 | One look ratchets the order after the bar has been judged, whether or not it printed |
| `BrokerRaises.BackstopNeverFires` | sigmaloop/domain/order.py:310-382 | Where fills are never short, or the remainder is not just below a whole number of lots, the only error a look can raise is the price model's own answer to this order's own request |
| `BrokerRaises.OverFillIff` | sigmaloop/execution/broker.py:410-589 | Once priced, a look is refused only for over-filling, and exactly when a permitted truncated quantity rounds past what remains; every other fill passes every guard of `Order.apply_fill` |
| `BrokerRaises.OvershootIffJustBelowLot` | sigmaloop/domain/instrument.py:144-152 | For each lot and remainder, some offer rounds past the remainder exactly when it lies more than the tolerance and less than 1e-9 of a lot below a whole number of lots |
| `BrokerRaises.BarRaisesOnly` | sigmaloop/execution/broker.py:323-341 | With fills never short, lots of at most one unit, or every order for whole lots, and a price model that at most refuses, no bar of any run ends in an over-fill, limit, foreign-fill, bad-quantity, terminal-order or unknown-instrument error; where fills are never short and ids are tidy, nor in a duplicate id |
| `BrokerRaises.RoundLotsNeverOverFill` | sigmaloop/domain/order.py:310-382 | Ordered in whole lots of any size, under any cap, no bar of any run ends in an over-fill |
| `BrokerLots.RunGridded` | sigmaloop/domain/instrument.py:144-152 | While every order is submitted in whole lots, every order of every reachable state, legs included, is sized and filled in whole lots |
| `BrokerLots.FillableIsRound` | sigmaloop/execution/broker.py:410-437 | What a bar absorbs of an order in whole lots is whole lots |
| `BrokerRaises.InvalidLegIff` | sigmaloop/execution/broker.py:605-660 | A parent print raises the invalid-order error exactly when no leg can be resized any more and a level the spec calls for is under half a tick |
| `BrokerRaises.OvershootIffBigLot` | sigmaloop/domain/instrument.py:144-152 | A truncated quantity can round up past what remains of an order exactly when a lot is larger than one unit |
| `BrokerRaises.GridNeverOvershoots` | sigmaloop/execution/broker.py:410-437 | On a whole number of lots truncation never passes what remains, whatever the lot |
| `BrokerRaises.RoundedQuantityBound` | sigmaloop/domain/instrument.py:144-152 | Snapping to lots adds at most 1e-9 of a lot |
| `BrokerRaises.DuplicateLegIff` | sigmaloop/execution/broker.py:591-666 | A parent print raises the duplicate-id error exactly when no leg can be resized any more and the spec calls again for a leg that exists |
| `BrokerExamples.BaredEntryRaises` | sigmaloop/execution/broker.py:605-618 | A run ends in the duplicate-id error: an entry fills in part, its legs are cancelled, the rest of it prints |
| `BrokerExamples.HairShortOverfills` | sigmaloop/execution/broker.py:422-431 | A run ends in the over-fill error: in lots of a hundred an order a hair short of one is offered a hair less |
| `BrokerExamples.LegsOverExit` | sigmaloop/execution/broker.py:397-407 | Under a volume cap, carrying remainders or dropping them, the legs of a ten-lot entry close fourteen |
| `BrokerVanish.LowLevelRaises` | sigmaloop/execution/broker.py:629-637 | A run ends in the invalid-order error: a stop at two fifths of a tick, and the bar that prints its entry |
| `BrokerVanish.StoppedOutPrintsOn` | sigmaloop/execution/broker.py:622-627 | A run leaves an entry of ten bought, four of it sold by its stop, and no order to protect the rest |
| `BrokerLedger.JudgeIsLawful` | sigmaloop/execution/broker.py:410-543 | A print the broker decides on passes every guard of the order, is larger than dust, is stamped with the bar and no earlier than eligibility allows, and is whole for fill-or-kill and wherever fills are never short, and flagged partial exactly when it is short |
| `BrokerLedger.TallyPrint` | sigmaloop/domain/order.py:310-382 | Folding a fill in keeps filled quantity, average price and the partial flags in step with the sums over the order's fills |
| `BrokerLedger.EnactLedger` | sigmaloop/execution/broker.py:354-408 | Carrying out any verdict keeps every order's books |
| `BrokerBrackets.EnactProtective` | sigmaloop/execution/broker.py:591-666 | Carrying out any verdict keeps every untouched leg sized to its parent and stamped by one of its prints |
| `BrokerBrackets.NewLegsGuarded` | sigmaloop/execution/broker.py:690-720 | After legs are raised, each leg of the parent is its child: same instrument, opposite side, good till cancelled, stamped by one of its prints, and while untouched sized to what the parent filled |
| `BrokerIndex.LegsAreLegs` | sigmaloop/execution/broker.py:605-657 | The legs a spec calls for are at most two, stop first, fresh, on the reserved ids, opposite, reduce-only, good till cancelled and sized to what the parent has filled |
| `BrokerBrackets.LegIdsDiffer` | sigmaloop/execution/broker.py:668-688 | Reconstructed leg ids of different parents never coincide |
| `BrokerOco.EnactExclusive` | sigmaloop/execution/broker.py:722-729 | Every verdict keeps each bracket whose legs print entire exclusive: a filled leg closed all its parent had, two live legs are paired, and once one has filled the other is closed unfilled |
| `BrokerOco.SiblingSurvivesIffShort` | sigmaloop/execution/broker.py:397-407 | A print on one of two live paired legs leaves the other live, at full size, exactly when it falls short of what remained by more than the tolerance |
| `BrokerOco.RaisesAgain` | sigmaloop/execution/broker.py:605-660 | Once a bracket has a leg and none can be resized, the next print on an entry averaging above zero raises |
| `BrokerOco.LevelsVanish` | sigmaloop/execution/broker.py:622-627 | Below zero it need not: with a percentage stop and an average below zero the spec calls for no leg, and nothing is raised or refused |
| `BrokerRuns.RunSound` | sigmaloop/execution/broker.py:238-408 | The ledger, one-look, protective, precedence and exclusivity invariants together hold after every run |
| `SimulatedBroker.SimulatedBroker.constructor` | sigmaloop/execution/broker.py:169-208 | A new broker is the empty state, which is the run of no calls |
| `SimulatedBroker.SimulatedBroker.Promises` | sigmaloop/execution/broker.py:238-347 | Between calls everything proved of runs holds of the object: its state is that of the run of its calls |
| `SimulatedBroker.SimulatedBroker.Submit` | sigmaloop/execution/broker.py:238-307 | Raises, refuses or admits an order as built, in the source's order of checks; the whole new state, or the unchanged one, is the specification's, and the call joins the run |
| `SimulatedBroker.SimulatedBroker.Enter` | sigmaloop/execution/broker.py:238-307 | The same checks and effect for the broker's own legs, in the middle of a bar |
| `SimulatedBroker.SimulatedBroker.Reject` | sigmaloop/execution/broker.py:811-821 | The order is rejected, kept, and its record queued for the next bar |
| `SimulatedBroker.SimulatedBroker.Accept` | sigmaloop/execution/broker.py:301-307 | The order is accepted, enters its book last, opening it if need be, and registers its bracket |
| `SimulatedBroker.SimulatedBroker.Cancel` | sigmaloop/execution/broker.py:309-315 | Closes an open order and drops it from every index, or reports that there is none |
| `SimulatedBroker.SimulatedBroker.CancelAll` | sigmaloop/execution/broker.py:317-321 | Cancels, one after another, the orders that were working when it was called, and returns how many those were |
| `SimulatedBroker.SimulatedBroker.WorkingOrders` | sigmaloop/execution/broker.py:343-347 | The open orders of one instrument's book or of the broker, in submission order |
| `SimulatedBroker.SimulatedBroker.Forget` | sigmaloop/execution/broker.py:835-845 | Book, bracket and both ends of the pair lose the order; an emptied book goes |
| `SimulatedBroker.SimulatedBroker.Expire` | sigmaloop/execution/broker.py:823-833 | The order expires, leaves every index and is reported |
| `SimulatedBroker.SimulatedBroker.ActivateBrackets` | sigmaloop/execution/broker.py:591-666 | Legs are resized if any is untouched, else built, submitted stop first and paired; errors as the specification raises them |
| `SimulatedBroker.SimulatedBroker.Spawn` | sigmaloop/execution/broker.py:658-660 | New orders are built and submitted in turn until one is refused by an exception |
| `SimulatedBroker.SimulatedBroker.SettleOco` | sigmaloop/execution/broker.py:722-729 | Both pair entries go; a sibling still open is cancelled and reported |
| `SimulatedBroker.SimulatedBroker.CancelRemainder` | sigmaloop/execution/broker.py:731-736 | What the policy does not carry is cancelled and reported, unless only dust remains |
| `SimulatedBroker.SimulatedBroker.Ratchet` | sigmaloop/execution/broker.py:747-767 | The stop moves to the specification's level and nothing else changes |
| `SimulatedBroker.SimulatedBroker.Book` | sigmaloop/execution/broker.py:388-392 | A print is folded into its order, the running totals, the month's volume and the result, or refused whole |
| `SimulatedBroker.SimulatedBroker.Attempt` | sigmaloop/execution/broker.py:380-408 | Matching, truncation, pricing, booking and aftermath of an eligible order come to the specification's verdict carried out |
| `SimulatedBroker.SimulatedBroker.WorkOrder` | sigmaloop/execution/broker.py:354-408 | One look at one order in place is the specification's, errors included |
| `SimulatedBroker.SimulatedBroker.Sorted` | sigmaloop/execution/broker.py:862-864 | The stable sort by priority: stops, then the rest, each in book order |
| `SimulatedBroker.SimulatedBroker.WorkAll` | sigmaloop/execution/broker.py:335-339 | Works the listed orders that are still open when their turn comes |
| `SimulatedBroker.SimulatedBroker.Prune` | sigmaloop/execution/broker.py:847-859 | Settled orders and their brackets leave the worked book, by a pass over it |
| `SimulatedBroker.SimulatedBroker.WorkBook` | sigmaloop/execution/broker.py:327-340 | One instrument's book: unknown instrument raises, otherwise work in matching order and prune |
| `SimulatedBroker.SimulatedBroker.ProcessBar` | sigmaloop/execution/broker.py:323-341 | One bar over all books present at its start is the specification's bar, and joins the run; no order is forgotten or replaced; an exception is the one the run ends in |
| `SimulatedBroker.ActivationAside` | sigmaloop/execution/broker.py:375-378 | Stamping the first eligible bar before the look or with its verdict comes to the same state |
| `Orders.Order.ApplyFill` | sigmaloop/domain/order.py:310-382 | Folds a fill in or refuses it under the guards in the source's order, leaving a refused order untouched |
| `Orders.Order.Reject` | sigmaloop/domain/order.py:384-387 | Rejects an open order; settled ones are final |
| `Orders.Order.Cancel` | sigmaloop/domain/order.py:389-408 | Cancels an open order; settled ones are final |
| `Execution.FillsIff` | sigmaloop/execution/models.py:92-148 | For every type, side and model a bar gives an order a price exactly when some price in its range crosses the level (a stop limit's triggering price must also be within its limit; market types always, at the close only at a session's), and the price is the better of limit and market, or the worse of stop and market |
| `Execution.FillsMirror` | sigmaloop/execution/models.py:92-148 | Negate the prices and swap the side: the order fills on the same bars, at the negated price |
| `Execution.NoFreeMoney` | sigmaloop/execution/models.py:92-148 | Without gap improvement no reference price leaves the bar, a stop never fills better than the anchor, a limit never through itself |
| `Pricing.SettledPriceBounds` | sigmaloop/execution/broker.py:545-589 | Whatever costs were added: the limit holds; on a bar with a range no buy prints above its high plus the half-spread and no sell below its low less it; and short of those bounds the tick works against the trader, by less than a tick |
| `Pricing.SyntheticBookIsABook` | sigmaloop/execution/pricing.py:91-110 | A synthetic quote is non-negative, at least one tick wide, and around the level it was built on |
| `Pricing.WorstSelectionCharges` | sigmaloop/execution/pricing.py:236-248 | On a synthetic book the worst side always charges at least half a tick, and the best side mirrors it |
| `Pricing.WidthAsAsked` | sigmaloop/execution/pricing.py:91-187 | A synthetic book is within a tick of the width its model was asked for, less what of it would lie below zero |
| `Money.DirectionalRounding` | sigmaloop/utils/money.py:55-84 | Directional rounding lands on the grid, within a tick in its direction and 1e-9 of a tick the other way |
| `Money.NearestRounding` | sigmaloop/utils/money.py:55-84 | Nearest rounding lands on the grid within half a tick, keeps the sign, and treats both signs alike |
| `Feeds.MergedDataFeed.Pull` | sigmaloop/data/feed.py:387-406 | Takes one item, closes a source that ran out, refuses one that went back in time; the heap stays the pop order |
| `Feeds.MergedDataFeed.OpenSource` | sigmaloop/data/feed.py:375-385 | What a stream enters with is all of it but exactly its leading run of items at or before the floor, and the merge stays consistent |
| `Feeds.MergedDataFeed.Prepare` | sigmaloop/data/feed.py:231-244 | Behind whatever was subscribed before, every stream of the plan is opened and the instruments it names are registered; a plan already open stays as it is; it cannot fail on timestamps after the sentinel |
| `Feeds.MergedDataFeed.AddInstrument` | sigmaloop/data/feed.py:344-371 | Subscribes at any point between snapshots, reading of each stream all but its leading run up to the current one; known instruments and an exhausted plan change nothing, a plan without template raises |
| `Feeds.MergedDataFeed.Absorb` | sigmaloop/data/feed.py:408-432 | The first item of a slot is kept, later ones counted as shadowed |
| `Feeds.MergedDataFeed.PopRefill` | sigmaloop/data/feed.py:294-297 | Popping the earliest entry and refilling its source keeps one heap entry per open source, in time order, and is progress |
| `Feeds.MergedDataFeed.Drain` | sigmaloop/data/feed.py:286-297 | Refilling while draining gathers everything at one instant and leaves only later items waiting |
| `Feeds.MergedDataFeed.Next` | sigmaloop/data/feed.py:279-310 | One snapshot per instant: the emitted sequence grows by the group of that instant; an error implies a source out of order or an item at the sentinel |
| `Feeds.MergedDataFeed.RunToEnd` | sigmaloop/data/feed.py:279-310 | Opens the plan unless it is open, then iterates; that terminates, and with sources in time order reaches exhaustion without raising |
| `Feeds.MergedDataFeed.Close` | sigmaloop/data/feed.py:246-275 | Everything of the run is forgotten, the clock included |
| `Feeds.MergedDataFeed.Accounts` | sigmaloop/data/feed.py:387-422 | At every step each open source has exactly one heap entry, each source splits into popped, waiting and unread, and items popped are items emitted plus items shadowed |
| `Feeds.MergedDataFeed.SortAndGroup` | sigmaloop/data/feed.py:279-310 | Instants strictly increase; whatever a snapshot holds was offered at its instant under its slot; an exhausted feed shows the slot of every item admitted, has read exactly all of them, and every source was in time order |
| `Feeds.MergedDataFeed.ShowsSubscription` | sigmaloop/data/feed.py:344-385 | An exhausted feed shows the slot of every item that the streams of a subscription offer after its instant |
| `Feeds.MergedDataFeed.FirstProvider` | sigmaloop/data/feed.py:287-294 | Among any number of sources, subscriptions mid-run included, a prompt source is never passed over for a later one, and wins every slot no earlier source offers |
| `FeedSpec.GroupsHoldLeaders` | sigmaloop/data/feed.py:408-422 | A snapshot holds exactly the slots offered at its instant, each with the item read first |
| `FeedSpec.GroupsIncrease` | sigmaloop/data/feed.py:298-306 | Grouping a time-sorted order gives strictly increasing instants, so the non-increasing guard has nothing to catch |
| `FeedSpec.GroupsCover` | sigmaloop/data/feed.py:284-297 | Every item read has a snapshot at its instant |
| `FeedSpec.NothingLost` | sigmaloop/data/feed.py:408-432 | Items read are slots filled plus items shadowed |
| `FeedPriority.FirstProviderWinsIff` | sigmaloop/data/feed.py:287-294 | A source in time order fills every slot it offers, beside any later provider, exactly when none of its slots' first offers stands behind a larger key of its instant |
| `FeedPriority.LateLoses` | sigmaloop/data/feed.py:287-294 | For any source that is not so, one item of any later provider takes the slot |
| `FeedPriority.KeyedIsPrompt` | sigmaloop/data/provider.py:182 | Ordering ties by key is enough, and more than is needed |
| `FeedPriority.TiedStreamIsLate` | sigmaloop/data/feed.py:287-294 | The stream of that kind that loses its slot: its ties run against the key order, and a one-item rival takes what it offers |
| `FeedPriority.ExhaustReads` | sigmaloop/data/feed.py:279-297 | Sources in time order are read to the end without raising, whatever their ties |
| `FeedMerge.PopKeeps` | sigmaloop/data/feed.py:291-297 | A pop and its refill keep every source linked and pops in time order |
| `FeedMerge.PopRaises` | sigmaloop/data/feed.py:396-404 | A pop fails only when the source it refills from is itself out of order |
| `FeedMerge.PopWorks` | sigmaloop/data/feed.py:291-297 | Every pop leaves one item fewer to read |
| `FeedMerge.ExhaustedIsComplete` | sigmaloop/data/feed.py:284-297 | An empty heap means every source was read in full and was in time order |
| `FeedMerge.TiesOutOfOrderLose` | sigmaloop/data/feed.py:287-294 | Two sources in time order, the first with its ties out of key order: the bar kept is the second one's |
| `Positions.Position.ApplyFill` | sigmaloop/domain/position.py:150-220 | Refuses a foreign or empty fill and changes nothing; otherwise the position built from fills so far becomes the unit-by-unit replay of them with this one, costs and mark included |
| `Positions.Position.Reduce` | sigmaloop/domain/position.py:193-210 | Closing, going flat and flipping through zero are so many single-unit matches against the oldest units, then single-unit openings |
| `Positions.Position.Add` | sigmaloop/domain/position.py:182-188 | Opening and increasing queue that many units at the fill's price |
| `Positions.Position.Realise` | sigmaloop/domain/position.py:290-316 | Partial consumption of the deque takes exactly the oldest units and returns their P&L; past the last lot the average-cost fallback prices the rest |
| `Positions.Position.OpenOrIncrease` | sigmaloop/domain/position.py:270-288 | A fresh lot joins the deque and the average blends by size |
| `Positions.Position.RemainingAvgPrice` | sigmaloop/domain/position.py:318-322 | The lot-weighted average of what is left is the average of the units left |
| `Positions.Position.LotsAccount` | sigmaloop/domain/position.py:270-322 | For a position built from fills the lots sum to the quantity, cost the average times the size, and always cover a closing fill, so the no-lots fallback is never reached |
| `Positions.Position.BooksBalance` | sigmaloop/domain/position.py:119-122 | Over any fills from flat and at every mark, realised plus unrealised P&L is the cash the fills moved plus the value of what is held |
| `Positions.CashConservation` | sigmaloop/domain/position.py:150-220 | The same identity for the unit queue, and its net size is the signed sum of the fills |
| `Positions.FeedCloses` | sigmaloop/domain/position.py:290-316 | Feeding n units against the queue removes the n oldest and realises exactly their gains |
| `Positions.CloseThenOpen` | sigmaloop/domain/position.py:193-205 | A flip empties the queue before it reopens on the other side |
| `Positions.OneUnitConserves` | sigmaloop/domain/position.py:150-220 | One unit traded moves equity at any mark by mark minus price, whether it opens or closes |
| `Expiry.ResolutionFollowsPolicy` | sigmaloop/execution/expiry.py:250-324 | By payoff, side and policy: a long contract of either right settles when it pays at least the threshold, an unforced short one in the money when drawn (always at probability one, never at none), a forced one always; it then pays the fee for each contract and is worth the signed payoff, and otherwise is worthless and free |
| `Expiry.SettlementNeutrality` | sigmaloop/execution/expiry.py:250-383 | Every resolution's fills flatten the contract, deliver the reported shares and carry the reported fees; `cash_impact` is their cash net of fees; worthless is worth nothing; a settlement is worth signed size times multiplier times intrinsic exactly unless shares are delivered on a contract out of the money |
| `Expiry.PositiveThresholdIsNeutral` | sigmaloop/execution/expiry.py:264-324 | With a positive exercise threshold every settlement pays what is owed, and cash settlement agrees with physical in worth, reason and fees |
| `Expiry.NeutralUnlessThresholdDropped` | sigmaloop/execution/expiry.py:269-281 | An unforced settlement misses what is owed exactly when a long contract out of the money is exercised into shares under a threshold at or below zero |
| `Expiry.AssembledBooks` | sigmaloop/execution/expiry.py:334-383 | The synthetic fills say what the summary says, in holdings, fees and cash |
| `Expiry.StandardExpiryEngine.ExpiringPositions` | sigmaloop/execution/expiry.py:150-173 | Exactly the open contracts at or past their date at a session close, in order; exactly the observed underlyings are repriced |
| `Expiry.StandardExpiryEngine.Resolve` | sigmaloop/execution/expiry.py:190-193 | Resolves at the market's price or else the last one seen, raising when there is none, worthless exactly when the policy does not settle it and at the policy's fee for each contract otherwise; fill numbers advance by the fills made |
| `Expiry.StandardExpiryEngine.CheckEarlyAssignment` | sigmaloop/execution/expiry.py:195-226 | Assigns exactly the short, open, American, priced, in-the-money contracts the draw picks, flattening them for what is owed; remembers the price of exactly the contracts it considers |
| `CsvSlices.Slices` | sigmaloop/data/providers/csv_provider.py:1965-1990 | The slices partition the window into contiguous disjoint intervals, one when the rows fit the budget; cuts break no bar exactly when there are none or the start is a bar's first instant |
| `CsvSlices.StepFitsBudget` | sigmaloop/data/providers/csv_provider.py:1965-1990 | A slice takes no longer than the row budget does at the files' average density, unless that makes too many slices, and less than a bar more when aligned; so many cover the window |
| `CsvSlices.TotalRowsAdds` | sigmaloop/data/providers/csv_provider.py:1965-1990 | The budget is measured against every row of every file |
| `CsvSlices.PartitionCovers` | sigmaloop/data/providers/csv_provider.py:1965-1990 | Every instant of the window is in exactly one slice and no other instant is in any |
| `CsvSlices.EdgesUnbroken` | sigmaloop/data/providers/csv_provider.py:1968-1973 | Cuts on bar edges leave no bar in two slices |
| `CsvSlices.AlignedStartOnEdge` | sigmaloop/data/providers/csv_provider.py:1743-1746 | Widening a start to its bar lands on the bar's first instant exactly when the start is past the epoch (or bars are one instant wide) |
| `CsvTables.SlicesGatherTheWindow` | sigmaloop/data/providers/csv_provider.py:1748-1757 | However a window is sliced, gathering and de-duplicating slice by slice yields the window's rows, or its error |
| `CsvTables.GatherSplits` | sigmaloop/data/providers/csv_provider.py:1510-1533 | Gathering either side of an instant and concatenating is gathering whole |
| `CsvTables.GatheredRowsAreDistinct` | sigmaloop/data/providers/csv_provider.py:1535-1563 | A gathered window has every (timestamp, symbol) of its rows once, in order |
| `CsvTables.PolicyPicksTheRow` | sigmaloop/data/providers/csv_provider.py:1510-1563 | Gathering fails exactly under the strict policy with some key twice in the window; else it keeps of each key the row first, or last, in the order of files and rows |
| `CsvTables.SortIsStable` | sigmaloop/data/providers/csv_provider.py:1531-1532 | Sorting leaves the rows of each key in the order they came in |
| `CsvTables.DeduplicateSplits` | sigmaloop/data/providers/csv_provider.py:1535-1563 | De-duplication under each policy distributes over a cut in time, the strict policy's error included |
| `CsvTables.SortSplits` | sigmaloop/data/providers/csv_provider.py:1531-1532 | A stable sort may be done either side of an instant apart |
| `CsvTables.FirstsCollapse` | sigmaloop/data/providers/csv_provider.py:1557-1559 | Keeping firsts leaves each key once, in order |
| `CsvTables.LastsCollapse` | sigmaloop/data/providers/csv_provider.py:1560-1562 | Keeping lasts leaves each key once, in order |
| `CsvFold.BarsFromQuotesIsFold` | sigmaloop/data/providers/csv_provider.py:1818-1906 | The fold yields one bar for every symbol and bucket with a row, in order, each folded from exactly its rows |
| `CsvFold.BarOfMeans` | sigmaloop/data/providers/csv_provider.py:1873-1884 | A bar opens at its first row's bid, ask or middle, as asked, closes at its last with that row's quote, and its extremes bound its rows' and are reached |
| `CsvFold.FoldIsUnique` | sigmaloop/data/providers/csv_provider.py:1818-1906 | Only one sequence of bars is the fold of given rows |
| `CsvFold.FoldSplitsIff` | sigmaloop/data/providers/csv_provider.py:1818-1906 | Folding either side of a cut is folding together exactly when every bar before the cut comes before every bar after it |
| `CsvFold.SlicesFoldIff` | sigmaloop/data/providers/csv_provider.py:1748-1761 | However a window is cut, streaming the slices folds the bars of the whole window exactly when no row's bar comes at or after the bar of a row in a later slice |
| `CsvFold.EpochStartDividesABar` | sigmaloop/data/providers/csv_provider.py:1743-1761 | From the epoch, two quotes of one bar land in two slices and are streamed as two bars |
| `CsvFold.EpochStartStep` | sigmaloop/data/providers/csv_provider.py:1965-1990 | Those are the slices an aligned start at the epoch and a budget of one row give |
| `CsvFold.SlicesFoldTheWindow` | sigmaloop/data/providers/csv_provider.py:1748-1761 | Cut anywhere on bar edges, streaming the slices folds the bars of the whole window |
| `CsvFold.Stream` | sigmaloop/data/providers/csv_provider.py:1721-1796 | Past the epoch, streaming quote bars yields the whole window's fold, bars closing after the end dropped, whatever the row budget |
| `CsvFold.EndDecides` | sigmaloop/data/providers/csv_provider.py:1775-1776 | Dropping bars that close after the end drops none exactly when no row's bar does, and so for an aligned end |
| `CsvLoad.StreamingMatchesLoading` | sigmaloop/data/providers/csv_provider.py:2023-2062 | Without warm-up, a symbol's loaded series is its bars of the fold, late closers included; it equals the streamed one for every symbol exactly when no row's bar closes after the end, and so for an aligned end |
| `CsvLoad.TrimKeepsWindow` | sigmaloop/data/providers/csv_provider.py:2064-2071 | Trimming keeps every bar of the window and exactly the wanted number before it, the latest, or all there are |
| `CsvJoin.QuoteReader.Attach` | sigmaloop/data/providers/csv_provider.py:2160-2223 | Each bar gets the slice's last quote at or before it, else the carried one, subject to the age limit; no quote is later than its bar; the carry takes each symbol's last quote |
| `CsvJoin.QuoteReader.AttachAll` | sigmaloop/data/providers/csv_provider.py:2160-2223 | For any slicing and any slices without bars, each bar gets the last quote at or before it among the windows read by then, subject to the age limit; and whatever happens, no quote is later than its bar or another symbol's |
| `CsvJoin.BarsEverywhere` | sigmaloop/data/providers/csv_provider.py:1748-1757 | A bar in every slice leaves no gap |
| `CsvJoin.GaplessSeesAll` | sigmaloop/data/providers/csv_provider.py:2160-2223 | Without gaps that is the last quote at or before the bar in the whole window from one frame before its start |
| `CsvJoin.CarryBridges` | sigmaloop/data/providers/csv_provider.py:2171-2205 | The slice's window with the carry behind it sees exactly what all the windows read so far do |
| `CsvJoin.CarryAdvances` | sigmaloop/data/providers/csv_provider.py:2195-2204 | The carry is always each symbol's last quote among the windows read |
| `CsvJoin.GapDecides` | sigmaloop/data/providers/csv_provider.py:1748-1757 | At any point of any run a bar gets the whole window's quote exactly if there is none, or some slice read by then reached back over it |
| `CsvJoin.SkippedQuoteIsLost` | sigmaloop/data/providers/csv_provider.py:1748-1757 | A quote in a slice without bars is missed in the second slice after it too |
| `CsvJoin.AgeDecides` | sigmaloop/data/providers/csv_provider.py:2160-2223 | A quote is attached exactly while the age limit added to its time reaches the bar |
| `CsvJoin.AsOfIsLatest` | sigmaloop/data/providers/csv_provider.py:2207-2223 | The lookup is the latest quote of the symbol not after the bar, or there is none |
| `Commission.SplitInvariance` | sigmaloop/execution/commission.py:55-67 | For every schedule and nesting, an order split into prints costs what one print would, exactly unless it has a flat fee and a first print of dust is followed by another |
| `Commission.SplitCost` | sigmaloop/execution/commission.py:153-356 | The split costs the single print plus the flat fees once more for every print that starts on dust |
| `Commission.CommissionIsMarginal` | sigmaloop/execution/commission.py:153-330 | Each commission is what the order owes after less before, and never negative |
| `Commission.FeesAreMarginal` | sigmaloop/execution/commission.py:273-294 | Each regulatory fee is what the order owes after less before, and never negative |
| `Commission.CommissionAsked` | sigmaloop/execution/commission.py:153-330 | What each schedule asks of an order at once: the rate but no less than the floor, and no more than the cap, which prevails; a flat fee; so much a contract and a base, unless waived on a cheap close; the month's band |
| `Commission.DustOwesNothing` | sigmaloop/execution/commission.py:153-330 | Until more than dust has printed no floor is owed |
| `Commission.FeesAsked` | sigmaloop/execution/commission.py:273-294 | The options fee on either side; on sales a part of the value; on sales of shares so much for each, capped |
| `Commission.PerShareMonotone` | sigmaloop/execution/commission.py:161-175 | The floored and capped per-share schedule is non-negative and grows with the total |
| `Commission.FindRate` | sigmaloop/execution/commission.py:320-325 | The scan ends on the last band whose threshold the month has reached, or the lowest |
| `Calendar.EasterIsSunday` | sigmaloop/data/calendar.py:325-337 | For every year from 1 on, Easter is a Sunday from 22 March to 25 April |
| `Calendar.EasterFollowsTheMoon` | sigmaloop/data/calendar.py:325-337 | Easter is the one Sunday in the seven days after the paschal full moon of the epact |
| `Calendar.MoonIsByEpact` | sigmaloop/data/calendar.py:325-337 | The algorithm's full moon is the one the epact of Lilius and Clavius gives |
| `Calendar.EasterDate` | sigmaloop/data/calendar.py:335-337 | The month and day it returns exist and are the offset from 22 March |
| `Calendar.NthWeekdayIs` | sigmaloop/data/calendar.py:296-300 | The n-th weekday is that weekday, in the n-th seven days from the month's start, after n-1 of its kind; in the month up to the fourth, past it from the sixth |
| `Calendar.LastWeekdayIs` | sigmaloop/data/calendar.py:303-307 | The last weekday is that weekday within the month's last seven days, with none later |
| `Calendar.RuleHolidaysIff` | sigmaloop/data/calendar.py:340-360 | A day is a rule's closure exactly if it is one of the ten, each given by its month, weekday and place or by its date and the working day beside it |
| `Calendar.NyseHolidaysIff` | sigmaloop/data/calendar.py:340-360 | The year's closures are those and the listed ones of that year that are no weekend |
| `Calendar.RuleHolidaysAreWeekdays` | sigmaloop/data/calendar.py:340-360 | Good Friday is a Friday and every rule yields a weekday, so the weekend filter drops no rule-based holiday |
| `Caches.MemoryDataCache.Get` | sigmaloop/data/cache.py:187-195 | A hit returns the entry and moves it to the young end; a miss changes only the counter |
| `Caches.MemoryDataCache.Put` | sigmaloop/data/cache.py:197-212 | Bytes stay the sum of the entries and within budget; a series that fits is resident and youngest afterwards, the rest being the old entries fitted; one too large is not admitted; evictions count what left |
| `Caches.MemoryDataCache.Invalidate` | sigmaloop/data/cache.py:218-222 | Exactly the one key goes, with its bytes |
| `Caches.MemoryDataCache.Clear` | sigmaloop/data/cache.py:224-227 | Nothing stays |
| `Caches.FittedIsShortest` | sigmaloop/data/cache.py:208-212 | Eviction removes exactly the shortest least-recently-used prefix that makes the rest fit |
| `Caches.DroppedKeepsOrder` | sigmaloop/data/cache.py:187-222 | Taking a key out, or moving it to the young end, keeps the others in their order |
| `Caches.NewcomerStays` | sigmaloop/data/cache.py:197-212 | An entry that fits the budget is never evicted by its own arrival |
| `Caches.TieredDataCache.Get` | sigmaloop/data/cache.py:369-376 | A hit is the one series the content-addressed key names; a miss means neither tier could serve it; disk hits are promoted and corrupt files dropped |
| `Caches.TieredDataCache.Put` | sigmaloop/data/cache.py:378-381 | Both tiers take the series, short ones only memory |
| `Caches.TieredDataCache.Invalidate` | sigmaloop/data/cache.py:386-388 | Both tiers lose the key |

## Left out

- Modules that only raise `NotImplementedError` (engine, portfolio accounting and sizing, indicators, metrics, results,
  strategies, plugins, the Yahoo and Polygon providers): there is no behaviour to model.
- SimulatedBroker.SimulatedBroker.Submit: takes an order as its constructor leaves it. One whose status or fill fields a
  caller has written first is covered by `Enter`, not by the theorems about runs.
- Float rounding: reals are exact, and the source's `round(x, 10)` repairs have nothing to repair.
- State after an exception: a bar that raises has no specified effect on its object; the runs end there.
- Pricing inside `_build_fill` before settlement: the shipped price, slippage and cost models are not instantiated in
  the broker, whose theorems hold for any; the synthetic quote, spread adjustment and cost schedules have their own
  modules.
- Counters nothing depends on (synthetic-quote fills, uncosted spreads, partial fills), log warnings, rejection messages
  and order tags.
- Option chains are a map from contract to quote, and the registry a map from id to contract terms.
- Whole-order quantity from a `FillDecision`: the shipped execution models never set one.
- Positions: dust below a grain, MAE and MFE extremes, marks between fills, dividends and borrow cost.
- Feed: provider routing, corporate actions, session flags, and which names a provider can resolve; instrument ids are
  their ranks in string order, and the heap is the sorted sequence of its pops.
- CSV: header detection, parsing, Parquet and its cache, timestamp normalisation, how far warm-up reads back and split
  adjustment; each file is a sequence of rows sorted by timestamp and symbol, and symbols are ranks.
- CSV file pruning: files outside a slice contribute no rows, so the model reads every file for every slice.
- Tier tables arrive sorted; sorting them on construction is not modelled.
- Calendar: time zones, sessions, half days and the year fraction; years start at 1 and have no upper end.
- Cache: locks, hit-rate properties, and the digest, which is taken to name one series.
- Positions of contracts in the expiry engine are their signed size; the underlying's own multiplier is one.
