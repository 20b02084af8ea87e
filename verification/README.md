# Order-book replay, trading state machine, command protocol, actor proxy and event buffer

This project models five cores of the repository in Dafny and proves what they promise over whole runs.

- **The order-book replay** (`DOM/engine.py`): sorting and de-duplication of a market-by-order stream, the
  fold that keeps the order table, the price levels, the first-in-first-out refill lots inside every order
  and the log of resting segments, the per-candle refill points, the snapshot, the quote choice and the
  sampling of points for rendering. `DomModel` is the meaning, `DomReplay` and `DomPayload` the code that
  updates its structures in place, `DomMeaning` and `DomRefills` say what every event does and when a refill is
  reported, told from the event list and the order alone.
- **The trading state machine** (`triggerEngine.py`): setups that age, touch their zones and fire, positions
  that open, reverse and close. `TriggerModel` is the meaning, `TriggerEngine` the mutable setups, entry
  states and dictionaries, `TriggerRules` the prices, times and ages that decide, `TriggerRuns` and
  `TriggerMemory` the claims about whole runs.
- **The execution command protocol** (`absorption/absorption_runtime.py`): pending, sent and completed
  commands under polling, client reports, retryable rejections and session changes. `CommandModel` is the
  meaning, `ExecutionRuntime` the dictionaries and sets, `CommandProtocol`, `CommandFlights` and
  `CommandPositions` the claims about whole runs, `CommandReports` and `CommandPolls` what one report or poll does
  to which keys; `PercentileRanks` is the tie-aware rank of the same file.
- **The actor proxy** (`actor_proxy/actor_proxy_engine.py`): tracked candidates, replacements from recent
  adds, exit metrics and the confirmed exit. `ActorRanking` chooses the orders to track; then `ActorModel`,
  `ActorEngine`, `ActorOrders` and `ActorDecision` for what an event does to an order and when an exit is due, and
  `ActorRuns`, `ActorExit`, `ActorLedger` for the runs.
- **The minute-bucketed event buffer** (`absorption/raw_event_buffers.py`): `RawEventLog` is the flat log it
  must agree with, `RawEventBuffer` the nested buckets.

The pattern is the same everywhere. A pure step function says what one event does. A method that changes
fields, dictionaries and lists in place is proved equal to that step. The main results are then about every
sequence of steps; what a step itself means is stated once more without its functions, in terms of the inputs and
the plain fields, and proved to agree. `DomFailures` holds inputs at which the order-book replay breaks what its names promise.
`Wrappers`, `Sums` and `Sorting` hold what the parts share: options, sums over maps and bags, a stable sort.

## What the proofs found

- The price levels agree with the live orders exactly as long as no partial cancel spelled other than "C"
  has dropped a remainder since the last clear (`DomLevels.LevelsExactIff`); the exact surplus of every
  level is the depth such cancels left behind (`DomLevels.LevelIsDepthPlusGhost`). An add of 5 and a "CANCEL"
  of 2 leave 3 contracts with no order (`DomFailures.CancelLeavesDepth`).
- The reported net liquidity change is the change of the resting depth except for an add over a live order,
  a modify of an unknown id and a cancel of an unknown id (`DomInvariants.ChangeLawful`); each of the three
  happens (`DomFailures.AddOverLiveMisreports` and its neighbours).
- A price of exactly zero counts as a missing price, because the code tests it for truth.
- Only the action text "R" clears the book, and only with a price; the text "CLEAR" is a cancel.
- The replayed list is independent of delivery order exactly when the sort key determines the event
  (`DomOrdering.DeliveryIrrelevantIff`): the sort key lacks the instrument, price and size. The book itself can
  show it: two adds that differ only in size leave the size delivered first (`DomFailures.DeliveryShowsInBook`).
- The book snapshot for the end of the plan window shows later events when no event of the run falls inside
  the window (`DomPayload.SnapshotFaithful`, `DomFailures.SnapshotLooksAhead`).
- Quotes named "non-crossed" can cross (`Quotes.QuotesCanCross`); `Quotes.NonCrossedQuote` states exactly when
  they do not.
- A thinned list of render points is in display order, except when the primary points exactly fill the limit:
  then they keep the order they came in (`RenderSampling.SampleWithPrimaryWindow`).
- The cap on executed refills of a refill point loses exactly the largest amount by which executed refills
  had outrun reported ones (`DomRefillPoints.CappedExact`).

## Model

| member | source | states |
|---|---|---|
| `DomInvariants.ConsumeLotsExact` | DOM/engine.py:1212-1222 | the lot loop takes exactly min(quantity, total of the lots) and leaves positive lots of the same price and side |
| `DomInvariants.ConsumeLotsFifo` | DOM/engine.py:1212-1222 | what is left, contract by contract, is the queue without its oldest contracts: first in, first out |
| `DomInvariants.ConsumeExact` | DOM/engine.py:1203-1223 | consumption takes existing quantity first, then lots, in all min(quantity, size), and the split of the size into both parts survives |
| `DomInvariants.ModifyLawful` | DOM/engine.py:1294-1393 | a modify of a live order keeps the order law and conserves depth and refill contracts, whether it grows, shrinks, re-prices or flips the side |
| `DomInvariants.ExecuteLawful` | DOM/engine.py:1394-1473 | an execute conserves depth and refill contracts and keeps size = existing + lots |
| `DomInvariants.CancelLawful` | DOM/engine.py:1474-1511 | a cancel conserves them too, up to exactly the ghost depth and lost refill of a dropped remainder |
| `DomInvariants.ChangeLawful` | DOM/engine.py:1225-1521 | every event on every order keeps: size = existing + lots, lots positive with the order's price and side, depth and refill conserved up to named losses, and a truthful net change exactly outside three named cases |
| `DomLevels.StepOk` | DOM/engine.py:636-680 | one replayed event keeps the whole book invariant |
| `DomLevels.RunOk` | DOM/engine.py:585-680 | every reachable book is well formed: every order split exactly, every stored level positive |
| `DomLevels.LevelIsDepthPlusGhost` | DOM/engine.py:1564-1577 | in every reachable book a level is the sum of the live sizes at its side and price plus the depth abandoned by partial cancels since the last clear, so at least that sum |
| `DomLevels.LevelsExactIff` | DOM/engine.py:1491-1511 | levels equal the live depth everywhere if and only if no partial cancel dropped a remainder since the last clear |
| `DomLedger.RefillLedger` | DOM/engine.py:1203-1223 | over every run, refills emitted = executed + withdrawn + live lots + contracts lost unreported, and the loss is never negative |
| `DomLedger.RefillLedgerExact` | DOM/engine.py:1309-1349 | without a clear, an add over a live id or a dropped remainder, nothing is lost |
| `DomCause.RefillHasCause` | DOM/engine.py:1311-1349 | every reported refill is preceded by a positive execute on the same tracked order, after its last add, removal or move, with price and side unchanged in between |
| `DomCause.CreditHasCause` | DOM/engine.py:1416-1472 | in every reachable book pending refill credit has such a cause |
| `DomRefills.CreditIsFilled` | DOM/engine.py:1311-1472 | in every reachable book the refill credit of an order is the sum of the sizes of the fills on it since it last began anew: was added, appeared, disappeared, moved or was refilled |
| `DomRefills.RefillIff` | DOM/engine.py:1309-1349 | an event reports a refill of a live order if and only if it is a modify that keeps its price and side and raises it, and the order was filled since it last began anew or still holds refilled contracts; the refill is exactly the rise |
| `DomRefills.UnknownNotRefilled` | DOM/engine.py:1295-1307 | an unknown order is never refilled |
| `DomRefills.FilledThenRaised` | DOM/engine.py:1309-1349 | an order of 10, filled for 4 and raised to 10, reports a refill of 4 |
| `DomMeaning.EventTurns` | DOM/engine.py:1225-1511 | over every run each event changes exactly the order it acts on, into what a new order, a modify, a fill or a cancel of that size leaves: size, place, start, credit, and which contracts leave existing quantity and lots; a clear forgets all orders |
| `DomMeaning.EventReports` | DOM/engine.py:1512-1561 | an event with an order, a price and a side reports them, the order before and after, every kind of contracts, the refill contracts drawn and the net change, each from the plain fields |
| `DomMeaning.OthersReportNothing` | DOM/engine.py:636-680 | whatever is reported comes from an event that acts on that order and applies to that price and side |
| `DomMeaning.NamelessIsNew` | DOM/engine.py:661-664 | an event without an order id never meets a live order |
| `DomHistory.HistoryIsReplay` | DOM/engine.py:1579-1630 | for every instant of the render window the logged segments covering it are, each once, exactly the positive-size orders of the book replayed up to that instant |
| `DomHistory.SegmentsClipped` | DOM/engine.py:1602-1630 | every segment of the log shows contracts, lies inside the render window and keeps to the price bounds |
| `DomOrdering.CanonicalFacts` | DOM/engine.py:618-635 | sorting and de-duplication yield each event once, in strict key order |
| `DomOrdering.CanonicalMeans` | DOM/engine.py:618-635 | whatever was delivered, the replayed events are delivered ones, none precedes an earlier one by time, sequence and the texts of source, order id and action, none repeats another in the six identity fields, and each delivered event is one of them or repeats one |
| `DomOrdering.CanonicalTie` | DOM/engine.py:618-626 | of events with equal sort keys the one delivered first is replayed first |
| `DomOrdering.CanonicalInTimeOrder` | DOM/engine.py:620-626 | whatever is delivered, the replayed list never goes back in time |
| `DomOrdering.DeliveryIrrelevant` | DOM/engine.py:618-680 | where sort keys determine events, two deliveries of the same events, in any order and with any repeats, give the same book, payloads and history |
| `DomOrdering.DeliveryIrrelevantIff` | DOM/engine.py:620-635 | the replayed list is free of delivery order if and only if events with equal sort keys are equal |
| `DomFailures.DeliveryShowsInBook` | DOM/engine.py:620-635 | two adds of one order with equal keys and sizes 5 and 6: the book holds whichever was delivered first |
| `DomFailures.CancelLeavesDepth` | DOM/engine.py:1491-1511 | an add of 5 and a "CANCEL" of 2 leave no order and 3 contracts on the level |
| `DomFailures.SnapshotLooksAhead` | DOM/engine.py:790-793 | a single event after the plan window is in the snapshot for its end |
| `DomFailures.AddOverLiveMisreports` | DOM/engine.py:1265-1293 | an add over a live order: the level falls by 2 and a rise of 3 is reported |
| `DomFailures.ModifyUnknownMisreports` | DOM/engine.py:1295-1307 | a modify of an unknown order: the level rises by 5 and 10 is reported |
| `DomFailures.CancelUnknownMisreports` | DOM/engine.py:1474-1521 | a cancel of an unknown order: nothing moves and a fall of 5 is reported |
| `DomRefillPoints.TalliesExact` | DOM/engine.py:703-739 | count, contracts, withdrawn contracts and the tenth refill of every candle, price and side are those read off the event list |
| `DomRefillPoints.TallyOrders` | DOM/engine.py:708-739 | a tally exists exactly for a touched candle, price and side, names exactly the orders that touched it and the last time one did |
| `DomRefillPoints.CappedExact` | DOM/engine.py:728-731 | the capped executed contracts fall short of all executed refills by exactly the largest overrun over the refills reported so far |
| `DomRefillPoints.PointsExact` | DOM/engine.py:910-948 | for positive event times: a point is emitted exactly when its tenth refill in replay order lies in the plan window, with that instant and the exact totals |
| `DomReplay.OrderState.TakeFromLots` | DOM/engine.py:1212-1222 | the in-place lot loop leaves the lots and takes the amount that the queue meaning says |
| `DomReplay.OrderState.ConsumeLiquidity` | DOM/engine.py:1203-1223 | in-place consumption of one order agrees with its meaning |
| `DomReplay.OrderState.Reshape` | DOM/engine.py:1309-1357 | an order modified in place ends as the modify rule says, with its refill and withdrawal |
| `DomReplay.DomBook.AdjustLevel` | DOM/engine.py:1564-1577 | one level moves by the delta, disappears when not positive, and no other level changes |
| `DomReplay.DomBook.CloseSegmentOf` | DOM/engine.py:1602-1630 | a segment is logged, clipped to the window, exactly when it is visible and not empty |
| `DomReplay.DomBook.CloseAllSegments` | DOM/engine.py:1579-1600 | every live order's segment is closed, once each |
| `DomReplay.DomBook.ApplyAdd` | DOM/engine.py:1265-1293 | the dictionaries after an add are those of the step |
| `DomReplay.DomBook.ModifyAbsent` | DOM/engine.py:1295-1307 | the same for a modify of an unknown id |
| `DomReplay.DomBook.ModifyPresent` | DOM/engine.py:1309-1393 | the same for a modify of a live order |
| `DomReplay.DomBook.ExecutePresent` | DOM/engine.py:1394-1473 | the same for an execute |
| `DomReplay.DomBook.CancelPresent` | DOM/engine.py:1474-1511 | the same for a cancel |
| `DomReplay.DomBook.ApplyEvent` | DOM/engine.py:1225-1561 | one event updates order table, levels and log as the step does, and reports its payload |
| `DomReplay.DomBook.ClearBook` | DOM/engine.py:641-653 | a clear closes every segment and empties orders and levels |
| `DomReplay.DomBook.Process` | DOM/engine.py:636-680 | one event of the loop: skipped, cleared, or applied under its own or a fresh synthetic key |
| `DomPayload.SnapshotFaithful` | DOM/engine.py:767-793 | the snapshot is the book at the end of the plan window if and only if some event was seen by then or the final levels are empty |
| `DomPayload.SnapshotSeen` | DOM/engine.py:767-770 | once some replayed event lies inside the plan window, the snapshot is the book at its end |
| `DomPayload.ReplayAll` | DOM/engine.py:618-777 | the sorted, de-duplicating loop ends in the replayed book, payloads, tallies and snapshot |
| `DomPayload.BuildPayload` | DOM/engine.py:564-948 | book, payloads, history, refill points and snapshot of a delivery, all at once |
| `Quotes.ClosestPair` | DOM/engine.py:2057-2071 | the nested loop returns a pair of least positive spread, the highest bid among ties, or nothing exactly when no bid lies below an ask |
| `Quotes.NonCrossedQuote` | DOM/engine.py:2050-2086 | the best pair when there is one, the fallbacks otherwise, and the exact condition under which the result does not cross |
| `Quotes.QuotesCanCross` | DOM/engine.py:2072-2086 | concrete levels and previous quotes whose chosen quotes cross |
| `Sampling.SampleIndexIncreasing` | DOM/engine.py:2115-2120 | indices rounded half to even are strictly increasing |
| `Sampling.SampleEnds` | DOM/engine.py:2115-2120 | with a limit of two or more, the first and the last index are both ends |
| `Sampling.RoundIsNearest` | DOM/engine.py:2119-2120 | no integer is nearer than the rounded one, and of two as near it is the even one |
| `Sampling.SampledNearest` | DOM/engine.py:2115-2120 | the i-th of `limit` sampled points is the one nearest to the i-th evenly spaced position, the even one of two as near |
| `Sampling.SamplePointsExact` | DOM/engine.py:2115-2120 | exactly min(length, limit) points, in order, none twice, with both ends |
| `RenderSampling.SampleByPriority` | DOM/engine.py:2145-2189 | exactly min(length, limit) input points, each once; no dropped point stands above a kept one by contracts and kind; a thinned list is in display order |
| `RenderSampling.SampleWithPrimaryWindow` | DOM/engine.py:2192-2238 | the same count; all primary points survive if they fit; within the thinned part no dropped point outranks a kept one; a thinned list is in display order unless the primary points exactly fill the limit |
| `RenderSampling.PrimaryIsVisible` | DOM/engine.py:2206-2213 | the points spared are, each as often as given, those of which some instant lies in the primary window |
| `TriggerModel.ExecutionBin` | triggerEngine.py:1690-1742 | a chosen bin is one of the candle's, executed on the entry side and strictly beyond the zone |
| `TriggerModel.ExecutionBinBest` | triggerEngine.py:1690-1742 | none is chosen only if none executes beyond the zone, and none is preferred to the chosen one |
| `TriggerRuns.ScanFires` | triggerEngine.py:1412-1484 | a scan fires only a setup it was given, in its own and the wanted direction |
| `TriggerRules.FiresIffReady` | triggerEngine.py:1616-1688 | a setup fires if and only if some bin was traded on its side strictly beyond both edges of its zone and it is either untouched, on its fifth to hundredth candle, with the zone reached, or touched less than eleven candle lengths ago |
| `TriggerRules.FiresOn` | triggerEngine.py:1690-1742 | the entry names the setup, its reference and the candle, enters on the nearest such bin, the most traded of those, and stops at the far edge |
| `TriggerRules.StaysIffYoung` | triggerEngine.py:1616-1688 | a setup that does not fire is forgotten exactly if its hundred candles or its ten touched ones are over, and else grows a candle older, marked exactly if it is retested |
| `TriggerRuns.SignalGrammar` | triggerEngine.py:1149-1355 | over every run the signals are entry, exit, entry, ...; every exit names the open position; a reversal is an exit followed at once by the opposite entry; a position is stored exactly when the trace ends in an entry; while it is open every setup is opposite |
| `TriggerRuns.PhaseOk` | triggerEngine.py:2083-2112 | the state is trading exactly while a position is open, and idle only with nothing remembered |
| `TriggerRuns.SetupsOk` | triggerEngine.py:1762-1778 | every touched setup ever remembered was marked by a retest on an earlier candle inside its age bounds |
| `TriggerRuns.EntersIffReady` | triggerEngine.py:1412-1484 | in every reachable state a candle enters exactly when some remembered setup is ready |
| `TriggerRuns.EntryLegit` | triggerEngine.py:1616-1742 | every entry of every run: a retest now, or one marked on an earlier candle, at most ten candles ago as far as the times are known; the bin strictly beyond the zone, the stop strictly on the other side, no better bin, and the position named after the reference and the candle |
| `TriggerRuns.OffersRemembered` | triggerEngine.py:1486-1515 | while a position stays open, an offered opposite reference is remembered, and added only if its id was not remembered before |
| `TriggerMemory.FlatRemembers` | triggerEngine.py:1412-1455 | a candle on which the machine is flat and nothing is ready signals nothing and leaves exactly the survivors, each a candle older, followed by an untouched setup of age 0 with id, direction and zone of the best reference offered |
| `TriggerMemory.FlatEnters` | triggerEngine.py:1412-1434 | while flat the first ready setup enters, its position is stored, and exactly the setups against it stay remembered |
| `TriggerMemory.HoldingQuiet` | triggerEngine.py:1486-1515 | while a position is open and nothing is ready: an exit refill closes it and forgets everything, otherwise nothing is signalled, the position stays, and exactly the survivors and the unknown opposite references are remembered |
| `TriggerMemory.HoldingReverses` | triggerEngine.py:1517-1613 | while a position is open the first ready setup reverses it and nothing stays remembered |
| `TriggerMemory.OfferEnters` | triggerEngine.py:1412-1688 | a reference offered while flat whose zone is not reached before makes the candle enter that reaches it 5 to 100 candles later and trades beyond it, if none before entered |
| `TriggerMemory.TouchEnters` | triggerEngine.py:1616-1807 | once the zone was reached, the next candle that trades beyond it enters, unless one has entered or eleven candle lengths have passed |
| `TriggerEngine.ReferenceSetup.ExecutionBinOf` | triggerEngine.py:1690-1742 | collecting the matches and taking the best of them is the chosen bin |
| `TriggerEngine.ReferenceSetup.Process` | triggerEngine.py:1616-1688 | one setup aged, marked and fired in place agrees with the step of one setup |
| `TriggerEngine.EntryStore.Scan` | triggerEngine.py:1420-1434 | the loop over the setups changes each in place, stops at the first that fires, and keeps the survivors in order |
| `TriggerEngine.EntryStore.EntrySignal` | triggerEngine.py:1412-1455 | while flat: the signal and the entry state after the scan and the new reference |
| `TriggerEngine.EntryStore.OppositeEntrySignal` | triggerEngine.py:1457-1484 | while holding: only the opposite setups are processed, the others are kept |
| `TriggerEngine.EntryStore.RememberOpposite` | triggerEngine.py:1486-1515 | the new opposite references are appended, each id once |
| `TriggerEngine.EntryStore.AfterEntry` | triggerEngine.py:1604-1613 | after an entry only the setups against it survive |
| `TriggerEngine.TriggerEngine.ReversePosition` | triggerEngine.py:1517-1565 | a reversal replaces position and entry state and emits exit then entry |
| `TriggerEngine.TriggerEngine.ProcessClosedCandle` | triggerEngine.py:1149-1355 | one candle takes its key through the step and emits its signals; no other key changes |
| `CommandProtocol.RunSound` | absorption/absorption_runtime.py:588-1139 | in every reachable state sent keys are pending, pending and completed never meet, and every dispatch is accounted for |
| `CommandProtocol.CompletedStaysDone` | absorption/absorption_runtime.py:1021-1033 | while its symbol stays active a completed key stays completed and is never dispatched again |
| `CommandProtocol.DispatchedAtMostOnce` | absorption/absorption_runtime.py:622-634 | from any point of any run on, while its symbol stays active: a close key is dispatched at most once, an open key at most once plus its retryable rejections and removals in between, and neither that once if it was in flight or completed at that point |
| `CommandFlights.NothingQueuedInFlight` | absorption/absorption_runtime.py:991-1005 | in every reachable state a pending command that shares its evaluation key with one in flight is in flight too, or is an open command that a retryable rejection gave back |
| `CommandFlights.StepQueuesIdle` | absorption/absorption_runtime.py:588-1034 | no poll, report, trigger or session change of any run leaves a newly queued command waiting for an evaluation key that has one in flight |
| `CommandFlights.RefreshSparesFlights` | absorption/absorption_runtime.py:991-1005 | a refresh of any keys queues only for keys with nothing in flight and drops nothing |
| `CommandPositions.GetIsLookup` | absorption/absorption_runtime.py:1191-1208 | reading the list of open positions is reading the dictionary it stands for |
| `CommandPositions.KeepIsFilter` | absorption/absorption_runtime.py:485-487 | a session change keeps exactly the positions of active symbols, each key once |
| `CommandPositions.ReportFiles` | absorption/absorption_runtime.py:638-724 | an opened or still-open report files its position under the client's own key in place of the one on file, and touches no other |
| `CommandPositions.EndRemoves` | absorption/absorption_runtime.py:725-854 | a message that ends a position takes exactly that one off the books, any other none |
| `CommandPositions.RunDictionary` | absorption/absorption_runtime.py:588-1139 | in every reachable state no key is filed twice and every position is under its own key |
| `CommandProtocol.UpdateAdvances` | absorption/absorption_runtime.py:638-854 | every client report keeps the protocol invariant |
| `CommandReports.ReportSettles` | absorption/absorption_runtime.py:638-1139 | in every reachable state a report completes exactly the pending commands that carry its client, symbol and timeframe, no id against it, and a kind its lifecycle settles; takes out of flight exactly those, the ones it gives back and the opens it withdraws; and leaves every other command as it was |
| `CommandReports.CompletionsBelong` | absorption/absorption_runtime.py:1085-1139 | whatever a report newly completes has its client, symbol and timeframe and no request or client position id that conflicts; an opened report completes every pending open of its own with its request id and no conflicting client position id |
| `CommandReports.ReportQueuesAll` | absorption/absorption_runtime.py:638-863 | after a report of a new, changed or ended position every command the oracle has for the symbol is queued, unless it is completed or one is in flight for its evaluation key |
| `CommandReports.SessionKeeps` | absorption/absorption_runtime.py:485-505 | a session change keeps exactly what belongs to an active symbol, in every store |
| `CommandPolls.PollSends` | absorption/absorption_runtime.py:588-636 | a poll leaves in flight exactly what was and every pending command of the polling client on a polled symbol and the timeframe asked for |
| `CommandPolls.FirstPollAsks` | absorption/absorption_runtime.py:965-980 | the first poll of an evaluation key with nothing in flight sends what the oracle answers |
| `CommandPolls.TriggerQueuesAll` | absorption/absorption_runtime.py:856-863 | a trigger queues every command the oracle has for any known client on any active timeframe of the symbol, unless completed or one is in flight |
| `CommandPolls.OnFileMeans` | absorption/absorption_runtime.py:1184-1208 | a report is about the position under the client's own id, else about the first of its client that the position or cluster id identifies |
| `CommandPolls.ReportedFields` | absorption/absorption_runtime.py:638-724 | field by field, what the report says wins over what is on file, and what it leaves open is taken from there |
| `ExecutionRuntime.Commands.RefreshCommands` | absorption/absorption_runtime.py:982-1034 | in-place refresh queues exactly the oracle's new commands |
| `ExecutionRuntime.Commands.RefreshAllForSymbol` | absorption/absorption_runtime.py:856-863 | it refreshes every known client and timeframe of the symbol in turn |
| `ExecutionRuntime.Commands.CommandPayloads` | absorption/absorption_runtime.py:588-636 | a poll returns exactly the commands it newly marks as sent |
| `ExecutionRuntime.Commands.SettleMatches` | absorption/absorption_runtime.py:1100-1139 | the loop over pending commands settles exactly the matching ones, in one pass |
| `ExecutionRuntime.Commands.CompleteMatchingCommands` | absorption/absorption_runtime.py:1085-1139 | completing moves the matches from pending and sent to completed; a retry only takes them out of sent |
| `ExecutionRuntime.Commands.RemovePendingOpenCommands` | absorption/absorption_runtime.py:929-957 | exactly the removable open commands leave pending and sent |
| `ExecutionRuntime.Commands.UpdatePositionStatus` | absorption/absorption_runtime.py:638-854 | one client report changes commands and open positions as the step says |
| `ExecutionRuntime.Commands.DropCommands` | absorption/absorption_runtime.py:488-501 | the clean-up loops keep exactly the commands of active symbols in all three stores |
| `ExecutionRuntime.Commands.Reconfigure` | absorption/absorption_runtime.py:485-505 | a session change keeps exactly the state of active symbols |
| `PercentileRanks.Positions` | absorption/absorption_runtime.py:1833-1838 | first and last index of a value in the sorted list are its numbers of smaller and of not larger values |
| `PercentileRanks.Ranks` | absorption/absorption_runtime.py:1825-1840 | each rank is the middle of those counts over n - 1 |
| `PercentileRanks.RanksOrdered` | absorption/absorption_runtime.py:1825-1840 | ranks lie in [0, 1], equal values rank equally and larger values strictly higher |
| `PercentileRanks.RanksConserveMass` | absorption/absorption_runtime.py:1825-1840 | the ranks of n values sum to exactly n / 2 |
| `ActorRanking.TrackedBest` | actor_proxy/actor_proxy_engine.py:237-270 | exactly min(limit, count) orders are tracked, each once, in rank order, and no dropped order outranks a tracked one |
| `ActorRanking.ImportanceMeans` | actor_proxy/actor_proxy_engine.py:243-259 | an importance adds up initial size, refilled contracts, refills, executed contracts and time in the book, each over the largest of its kind and times its own weight |
| `ActorRanking.OutranksMeans` | actor_proxy/actor_proxy_engine.py:260-270 | rank goes by importance, then initial size, then refilled contracts, then number of refills |
| `ActorRanking.ImportanceInRange` | actor_proxy/actor_proxy_engine.py:248-259 | an importance lies between zero and the sum of the weights |
| `ActorRanking.ImportanceMonotone` | actor_proxy/actor_proxy_engine.py:248-259 | an order at least as large in every respect is at least as important |
| `ActorLedger.DominantIsFirst` | actor_proxy/actor_proxy_engine.py:489-492 | in every reachable state the dominant candidate is the one that outranked all others when tracking began |
| `ActorEngine.OrdersWithImportance` | actor_proxy/actor_proxy_engine.py:237-270 | the loop that scores the orders and the sort give the ranking |
| `ActorModel.Replacement` | actor_proxy/actor_proxy_engine.py:532-571 | a replacement is a remembered ADD that matches side, price, time and size |
| `ActorLedger.ReplacementNearest` | actor_proxy/actor_proxy_engine.py:532-544 | one is found whenever some ADD matches, and none is nearer in time |
| `ActorOrders.MatchesMean` | actor_proxy/actor_proxy_engine.py:546-571 | an ADD may stand in for a lost order if and only if it is another order on the same side, not known to be of another instrument, within the ticks and the time gap, and its size within the similarity bounds times the reference size |
| `ActorOrders.ReplacementStands` | actor_proxy/actor_proxy_engine.py:532-544 | the replacement is the first such ADD nearest in time, and there is none only if none may stand in |
| `ActorOrders.EventMeans` | actor_proxy/actor_proxy_engine.py:337-474 | a modify, fill or cancel leaves the named or remaining contracts and counts what it cancelled and filled; an order it empties is gone with the right status or taken over by the nearest ADD that may stand in |
| `ActorOrders.EventLogs` | actor_proxy/actor_proxy_engine.py:337-417 | such an event logs exactly the contracts it refilled, cancelled and filled |
| `ActorOrders.EventTouchesOne` | actor_proxy/actor_proxy_engine.py:327-335 | it changes the first candidate with its order id and no other |
| `ActorOrders.AddMeans` | actor_proxy/actor_proxy_engine.py:304-321 | an ADD renews the candidate with its order id, or else takes the place of the first lost one it may stand in for, or else changes none |
| `ActorOrders.ClearMeans` | actor_proxy/actor_proxy_engine.py:322-326 | a CLEAR loses exactly the candidates that show contracts; each is gone or taken over |
| `ActorOrders.StartMeans` | actor_proxy/actor_proxy_engine.py:272-300 | tracking starts with one fresh candidate per tracked order, in rank order, lost already if it shows nothing |
| `ActorLedger.CountersMatchLog` | actor_proxy/actor_proxy_engine.py:337-474 | in every reachable state the cancelled, filled and replaced contracts of a cluster are exactly those in its complete activity log |
| `ActorLedger.ActiveIffShown` | actor_proxy/actor_proxy_engine.py:302-474 | in every reachable state a candidate is active exactly while it shows contracts |
| `ActorRuns.ReplacementIsRecent` | actor_proxy/actor_proxy_engine.py:525-571 | adds older than the gap never matter for a replacement |
| `ActorRuns.PruningLosesNothing` | actor_proxy/actor_proxy_engine.py:525-587 | for non-decreasing times the tracker that prunes its logs and one that keeps everything stay in the same state |
| `ActorRuns.PruningKeepsMetrics` | actor_proxy/actor_proxy_engine.py:167-222 | over every such run the rates, the score and the exit conditions read off the pruned log are those of the complete log |
| `ActorRuns.PruningKeepsSignals` | actor_proxy/actor_proxy_engine.py:99-117 | and they answer every event with the same signals |
| `ActorExit.EachCluster` | actor_proxy/actor_proxy_engine.py:99-117 | one event advances every accepting cluster exactly once and no other |
| `ActorDecision.ExitConditionsMean` | actor_proxy/actor_proxy_engine.py:635-660 | the exit conditions hold if and only if: the contracts of active candidates are less than the threshold times their positive initial sum; the refilled contracts logged in the recent window are at most the drop ratio times max(1, baseline sum); some candidate is gone or reduced; none was replaced within the confirmation window; and the evidence, spelled out as shares of contracts and three facts, reaches the score threshold |
| `ActorDecision.ScoreIsEvidence` | actor_proxy/actor_proxy_engine.py:608-633 | the score is 0.35 of the share of missing contracts, 0.20 of the share cancelled or filled, 0.20 for dried refills, 0.15 for a lost dominant candidate and 0.10 for no recent replacement, and lies in [0, 1] |
| `ActorDecision.AcceptsMeans` | actor_proxy/actor_proxy_engine.py:494-523 | an event counts for a cluster exactly if it lies in its tracking window and its symbol and instrument are unknown or the cluster's |
| `ActorExit.ExitConfirmed` | actor_proxy/actor_proxy_engine.py:119-165 | for positive, non-decreasing event times: an event raises an exit if and only if an exit, told from contracts, logged refills, states and times as above, was due after every accepted event from one at least the confirmation window earlier up to it |
| `ActorExit.ExitNeverChanges` | actor_proxy/actor_proxy_engine.py:135-136 | a raised exit signal never changes while tracking lasts |
| `ActorExit.ExitTells` | actor_proxy/actor_proxy_engine.py:662-690 | a raised exit tells the evidence of that moment, the share of initial contracts still active and the state of the dominant candidate |
| `ActorExit.AnswersRaised` | actor_proxy/actor_proxy_engine.py:99-117 | an event answers exactly the signals raised by then of the clusters that accept it |
| `ActorExit.ScoreIsWeightedSum` | actor_proxy/actor_proxy_engine.py:608-633 | the score is the weighted sum of its five parts, each in [0, 1], and the outer clamp never acts |
| `ActorEngine.TrackedCandidate.ReplacementFrom` | actor_proxy/actor_proxy_engine.py:532-544 | the list of matches and its nearest member is the replacement |
| `ActorEngine.TrackedCandidate.ModifyBy` | actor_proxy/actor_proxy_engine.py:337-367 | a candidate modified in place ends as the rule says and logs its refill or reduction |
| `ActorEngine.TrackedCandidate.FillBy` | actor_proxy/actor_proxy_engine.py:369-385 | the same for a fill or trade |
| `ActorEngine.TrackedCandidate.CancelBy` | actor_proxy/actor_proxy_engine.py:387-417 | the same for a cancel |
| `ActorEngine.TrackedCandidate.Lose` | actor_proxy/actor_proxy_engine.py:419-438 | a lost candidate adopts the replacement found among the recent adds, if any |
| `ActorEngine.TrackedCluster.ApplyEvent` | actor_proxy/actor_proxy_engine.py:302-335 | one event changes candidates and pruned activity log in place as the step does |
| `ActorEngine.TrackedCluster.Update` | actor_proxy/actor_proxy_engine.py:119-165 | the exit decision in place: weakening set, kept, cleared, or the signal raised |
| `ActorEngine.ActorProxyEngine.StartTracking` | actor_proxy/actor_proxy_engine.py:47-97 | tracking starts with the most important orders and nothing counted, replacing an earlier cluster of the position |
| `ActorEngine.ActorProxyEngine.StopTracking` | actor_proxy/actor_proxy_engine.py:230-235 | exactly that position is forgotten, and its candidates are marked as exited |
| `ActorEngine.ActorProxyEngine.OnRawDomEvent` | actor_proxy/actor_proxy_engine.py:99-117 | one event steps the whole engine and answers the raised signals in tracking order |
| `RawEventLog.LogIsSurvivors` | absorption/raw_event_buffers.py:32-48 | after any run a timeframe's log is, in order, the events appended since it was last enabled of whose minute no instant was in a window marked since |
| `RawEventLog.RangeIsMarked` | absorption/raw_event_buffers.py:161-178 | an event falls to the marked bucket range of [open, close) if and only if some instant of the window lies in the same 60,000 ms minute |
| `RawEventLog.AlignedWindowMarks` | absorption/raw_event_buffers.py:161-178 | for bounds on the minute those are exactly the events with open <= time < close |
| `RawEventLog.MarkingIsLocal` | absorption/raw_event_buffers.py:133-153 | marking one timeframe leaves every other log as it is |
| `RawEventBuffer.TimeframeStore.Snapshot` | absorption/raw_event_buffers.py:57-69 | a snapshot is sorted and, as a bag, exactly the log's events in [open, close) |
| `RawEventBuffer.TimeframeStore.MarkProcessed` | absorption/raw_event_buffers.py:147-153 | exactly the events go of whose minute some instant lies in the window, the counter stays the retained count, and the clamp at zero changes nothing |
| `RawEventBuffer.RawMarketEventBuffer.Configure` | absorption/raw_event_buffers.py:32-40 | enabled timeframes keep their events, new ones start empty, the others are dropped |
| `RawEventBuffer.RawMarketEventBuffer.AppendTradeEvent` | absorption/raw_event_buffers.py:42-48 | the event is appended to every active timeframe of its symbol |
| `RawEventBuffer.RawMarketEventBuffer.MarkTimeframeProcessed` | absorption/raw_event_buffers.py:133-153 | the nested stores follow the flat log |
| `RawEventBuffer.RawMarketEventBuffer.RemoveInactiveSymbols` | absorption/raw_event_buffers.py:155-159 | exactly the logs of active symbols stay |
| `RawEventBuffer.RawMarketEventBuffer.SnapshotTradeEvents` | absorption/raw_event_buffers.py:50-69 | sorted, and as a bag the flat log's events in the window; nothing for an unknown symbol or timeframe |
| `RawEventBuffer.RawMarketEventBuffer.PendingCount` | absorption/raw_event_buffers.py:71-79 | the counter is the number of retained events of the symbol and timeframe |
| `RawEventBuffer.RawMarketEventBuffer.PendingOfSymbol` | absorption/raw_event_buffers.py:80-81 | for a symbol alone, the retained events of all its timeframes |
| `RawEventBuffer.RawMarketEventBuffer.PendingOfTimeframe` | absorption/raw_event_buffers.py:82-88 | for a timeframe alone, its retained events over all symbols |
| `RawEventBuffer.RawMarketEventBuffer.PendingInAll` | absorption/raw_event_buffers.py:89-93 | with neither, everything retained |

## Left out

- Page and payload dictionaries, formatting, ids made by hashing, logging, CSV recording and all network and
  database access.
- DOM replay: the text forms of prices and actions. An action is taken trimmed and in upper case, a price as
  a real number, so two spellings of one price are one refill point here.
- DOM replay: the `consume_refill` argument, which every caller sets to true.
- DomReplay.DomBook.CloseAllSegments: does not state the order in which one clear or the final close logs its
  segments, because it is the iteration order of a dictionary; the log is a bag.
- DomReplay.DomBook.ApplyEvent: does not model the resting quantities and best prices before and after the
  event that the payload also carries; they are copies of the level tables.
- DomPayload.SnapshotFaithful: covers the level tables of the snapshot, not its copy of the order dictionary.
- DomPayload.ReplayAll: does not model the best-bid and best-ask lines and the activity statistics that the
  same loop collects for display (DOM/engine.py:740-766).
- DomPayload.BuildPayload: does not model the iceberg re-reads (DOM/engine.py:794-908), nor which lists are
  sampled for the page.
- DomHistory.HistoryIsReplay: states the history for the price filter given in the window; the iceberg filter
  is not modelled.
- Render sampling: the contract amount of a point is a field of the point, not derived from its payload.
- TriggerEngine.TriggerEngine.ProcessClosedCandle: which refills qualify as entry references and whether an
  exit refill was found are arbitrary inputs of every candle; the refill memory, order-book context, prices of
  signals, exits' reference bins and the separate start of actor tracking are not modelled.
- Trigger engine: the copy of the first setup's fields into the entry state, of which only the phase is kept.
- Commands: the trading decision engine is an arbitrary source of commands; the results about what may be
  queued ask only that it answers with commands of the evaluation key it was asked for.
- ExecutionRuntime.Commands.UpdatePositionStatus: does not model the trigger stores, zone states, position
  locks and the reply record that the same method touches.
- ExecutionRuntime.Commands.CommandPayloads: the answer is the set of dispatched keys, without the order of the
  pending dictionary. At absorption/absorption_runtime.py:606-610 the file carries an unresolved merge; the
  first side is modelled.
- Percentile ranks: sums and quotients are exact rationals.
- Actor proxy: the metrics that no decision reads, and polling `update_cluster_state` without an event. Two lost
  candidates may adopt the same add, so no distinctness of active order ids is claimed. Rates and scores are
  exact.
- Actor proxy: the record of exit signals kept after tracking stops.
- Event buffer: the two retention diagnostics (absorption/raw_event_buffers.py:94-131).
