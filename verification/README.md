# Verified model of the live trading core

This project models the parts of the bot that decide what it owns, what it owes and what it may
do next, and proves what the program relies on in every run. Eight components, in the order of
their dependencies:

- **Campaign machine** (`CloseRange`, `CloseRangeProperties`, `CloseRangeWindows`, `Liquidation`,
  `CloseRangeMachine`): a breakout campaign with a parent and up to three add-ons, its daily
  decisions, funding debits, liquidation cascades, indicators and snapshots. Transition functions
  carry the theorems; the class updates its fields in place and every method is proved equal to
  them.
- **Reconstruction** (`Historical`, `LateFunding`): rebuilding a historical campaign from a
  reference and settlements at once, and replaying bars that waited for a settlement.
- **Execution ledger and protocol** (`Ledger`, `LedgerProperties`, `Protocol`,
  `ProtocolProperties`, `ProtocolRuns`, `ProtocolGuarantees`): commands from submitted to received
  to applied or rejected, over a venue that accepts, rejects, loses replies, lags and closes trades
  on its own, with crashes between any two writes.
- **Executor** (`LiveExecutor`): the methods that drive this protocol; each is proved to be a run
  of the transition system, so the guarantees about reachable states hold around every call.
- **Delivery** (`Delivery`): handing venue-side closures to the strategies exactly once.
- **Adapter** (`Adapter`, `AdapterRuns`, `AdapterHooks`, `AdapterBars`, `AdapterStartup`,
  `AdapterGuarantees`, `AdapterSlots`, `AdapterFills`, `AdapterWitness`, `AdapterRefill`,
  `CloseRangeLive`): which funded slots a campaign owns, closes or aborts, which it has used up, a
  reversal that waits for the old stack, and every hook of the live strategy, over an engine with
  crashes and restarts.
- **Shared books** (`Portfolio`, `PortfolioStore`, `PortfolioCash`, `Shadow`): reservations of many
  clients on one cash pool, and the daily job whose compare-and-swap chain can stop anywhere.
- **Evidence and risk** (`MultiTimeframe`, `Evidence`, `RiskGuard`): building higher candles from a
  minute stream, which candles a strategy may learn from, and the guard in front of the executor.

## What is assumed of the environment

- The venue answers a definitive client error only when it opens no trade, lists a trade it opened
  until it is closed, gives each trade a fresh identifier and never changes the side or quantity of
  a trade. Anything else about it (delays, losses, order) is nondeterministic.
- A database transaction happens entirely or not at all; a crash may come between any two.
- Command keys, event keys and digests are injective: two different identities never collide.
- Prices, sizes and collateral are real numbers; timestamps are integers (seconds, or minutes for
  the candle stream). Entry prices are positive by type.
- One process writes as the executor at a time; the portfolio store and the shadow job have many
  concurrent clients.

## Where the code and its description part

- **A close can be repeated although the newest read shows the trade gone.** The read that an entry
  makes refreshes the unknown trades, not the missing ones. A recorded close is sent again exactly
  for a trade that the latest reconciliation read listed, or that was opened since
  (`CloseRepeatsExactly`), so the claim about the newest read fails in exactly the states of
  `NewestReadClaimFailsExactly`; `RepeatedCloseDespiteLatestRead` reaches one. Accounting stays
  exactly-once either way (`ClosedOnce`).
- **A start can fail for good.** `run_portfolio_live` reconciles a restored strategy before it
  delivers the closures that wait for it. A closure of a slot that the snapshot lists as closing or
  aborting then finds no unit, and the start raises, every time. `StartSucceedsExactly` is the exact
  condition, `ClosureOfListedSlotIsFatal` what follows from it, and `FatalStartHappens` a run that
  gets there. The adapter's ownership errors are otherwise unreachable.
- **A slot that was filled can be filled again.** `forget_closed_child` promises that a closed
  add-on's slot is not reused within its campaign. The snapshot of a bar is saved before its orders
  and again at its end, so a fill in between that is closed before the next snapshot (beyond the
  distance cap, or by a retried exit) is known to nobody after a crash: `on_startup` discards the
  add-on and takes its number back. `StartForgetsExactly` says when, for one start, and
  `ForgetsExactly` for whole runs; without such a start every add-on order goes to an unused slot
  (`NoSlotFilledTwice`). `FarFillIsForgotten` is the run that leads there from any add-on order,
  and `SlotFilledTwiceHappens` a run in which the same slot is then asked for again.
- **A gap over more than one boundary cannot be mended by replay.** The recorded mark then lies
  beyond the candle due next, so the candle it waits for is never accepted
  (`GapOutOfReachExactly`, `BrokenForever`; `GapOutOfReachHappens` is such a run). The timeframe
  stays closed, safely, until an operator acts.
- **The cascade needs orderly minute bars.** Minute bars are not validated; a bar whose adverse
  extreme lies beyond its own open can miss a level that the open has reached. Which campaigns and
  bars are affected is exactly `OpenTakesItsUnitsExactly`; `DisorderlyBarMissesALevel` is one.
- **A manual close unbalances the books.** `scripts/reconcile_manual_close.py` writes a daily total
  without its P&L event, so totals and events disagree afterwards unless the total is zero
  (`TotalWithoutEventBalances`). `BooksBalance` holds for the executor's path.

## Model

| member | source | states |
|---|---|---|
| `ProtocolGuarantees.ClosedOnce` | src/lnmarkets_bot/engine/live_executor.py:212-310 | in every reachable state, whatever replies are lost, whatever crashes, and whether the bot or the venue closed the trade, a trade has at most one closing order row and one close P&L event, and only if the venue really closed a trade this bot had opened and recorded |
| `ProtocolGuarantees.CloseRepeatsExactly` | src/lnmarkets_bot/engine/live_executor.py:229-247 | in every reachable idle state a close whose command already exists is sent again if and only if the venue was readable and the latest reconciliation read listed the trade, or it was opened after that read |
| `ProtocolGuarantees.NewestReadClaimFailsExactly` | src/lnmarkets_bot/engine/live_executor.py:229-233 | the claim that the newest inventory read of any kind lists a trade whose close is sent again fails at a reachable idle state if and only if the venue was readable, the reconciliation read listed the trade or it was opened since, and the newest read does not list it |
| `ProtocolGuarantees.RepeatedCloseDespiteLatestRead` | src/lnmarkets_bot/engine/live_executor.py:371-379 | a reachable state in which the read made by an entry shows the trade gone, and the close is still posted again: that read refreshes the unknown trades but not the missing ones |
| `ProtocolGuarantees.RetryClosesTheDecidedTrade` | src/lnmarkets_bot/engine/live_executor.py:189-210 | a pending exit only ever closes a trade whose close command was already recorded for it |
| `ProtocolGuarantees.UnrecordedExposureIsBounded` | src/lnmarkets_bot/engine/live_executor.py:353-471 | crashes included, at most one entry command is submitted or received, each decision identity causes at most one post of a new trade ever, each post opens at most one trade, and at most one trade the bot opened is missing from the ledger |
| `ProtocolGuarantees.NothingUnrecordedWhenPosting` | src/lnmarkets_bot/engine/live_executor.py:425-434 | at the moment an entry is posted, every trade the bot ever opened is in the ledger |
| `ProtocolGuarantees.NoEntryBesideStrangers` | src/lnmarkets_bot/engine/live_executor.py:371-383 | an entry command is begun only when the latest inventory read lists nothing but recorded trades of the bot |
| `ProtocolGuarantees.RejectionIsFinal` | src/lnmarkets_bot/engine/live_executor.py:435-459 | an entry rejected on a definitive answer has no trade behind it and none in flight |
| `ProtocolGuarantees.LostEntryBlocksForever` | src/lnmarkets_bot/engine/live_executor.py:513-528 | once the reply to an entry is lost and no result is saved, on every continuation of the run the command stays unresolved and no entry is begun |
| `ProtocolGuarantees.MemoryRefinesLedger` | src/lnmarkets_bot/engine/live_executor.py:672-745 | outside the window of an accepted close whose rows are being written, the known trades are exactly the ledger-open ones and every position is the recorded open trade of its slot |
| `ProtocolRuns.NeverAmbiguous` | src/lnmarkets_bot/engine/live_executor.py:700-724 | the reconstruction of positions never meets two ledger-open trades that claim one owner and slot |
| `ProtocolGuarantees.RestartRecovers` | src/lnmarkets_bot/engine/live_executor.py:672-745 | from every reachable state a crash followed by a start has a run to the idle state: no saved result is refused, no mapping is ambiguous, and memory mirrors the ledger again |
| `ProtocolGuarantees.FinishRecovery` | src/lnmarkets_bot/engine/live_executor.py:676-699 | a start applies every saved result, one by one, and then succeeds |
| `ProtocolGuarantees.BooksBalance` | src/lnmarkets_bot/persistence/recorder.py:565-600 | every applied command has exactly its own order and fill rows, event keys are unique, and on every date the P&L events add up to the realized and funding totals over all runs |
| `ProtocolRuns.ProcessStepKeeps` | src/lnmarkets_bot/engine/live_executor.py:143-187 | every step of process, venue, crash or restart keeps the whole invariant behind these guarantees |
| `ProtocolRuns.RestoreMirrors` | src/lnmarkets_bot/engine/live_executor.py:700-745 | the memory rebuilt at a restart mirrors the ledger |
| `LedgerProperties.CloseIsAccountedOnce` | src/lnmarkets_bot/persistence/recorder.py:565-600 | in a sound ledger a trade has at most one closing order, and has one exactly when its close command is applied |
| `LedgerProperties.ApplyIsIdempotent` | src/lnmarkets_bot/persistence/recorder.py:572-573 | applying an applied command again answers the same row ids and changes nothing |
| `LedgerProperties.FundingReplayIsIdempotent` | src/lnmarkets_bot/engine/live_executor.py:599-668 | replaying any list of settlements already recorded, in any order and under any run id, leaves the ledger as it was |
| `LedgerProperties.PostKeeps` | src/lnmarkets_bot/persistence/recorder.py:574-600 | applying a received command keeps one row each, unique event keys and the agreement of events with daily totals |
| `LedgerProperties.FundingKeeps` | src/lnmarkets_bot/persistence/recorder.py:449-474 | recording a settlement keeps the same invariants |
| `LedgerProperties.BothSidesMove` | src/lnmarkets_bot/persistence/recorder.py:476-505 | a new event and its daily delta move both sides of the daily totals by the same amount on every date |
| `LedgerProperties.TotalWithoutEventBalances` | scripts/reconcile_manual_close.py:120-124 | a daily total written without its event keeps events and totals in agreement if and only if it is zero |
| `LedgerProperties.UpsertAdds` | src/lnmarkets_bot/persistence/recorder.py:400-430 | an upsert adds its deltas to the total of its own date and to no other |
| `LedgerProperties.BeginKeeps` | src/lnmarkets_bot/persistence/recorder.py:520-535 | beginning a command keeps the ledger sound |
| `LedgerProperties.ReceiveKeeps` | src/lnmarkets_bot/persistence/recorder.py:537-546 | saving a result keeps the ledger sound and never un-applies a command |
| `Ledger.Recorder.BeginCommand` | src/lnmarkets_bot/persistence/recorder.py:520-535 | inserts exactly when the key is new and says so |
| `Ledger.Recorder.CommandResult` | src/lnmarkets_bot/persistence/recorder.py:537-546 | the result replaces the status of every command that is not applied |
| `Ledger.Recorder.RejectCommand` | src/lnmarkets_bot/persistence/recorder.py:548-554 | marks one command rejected and delivered |
| `Ledger.Recorder.ApplyCommand` | src/lnmarkets_bot/persistence/recorder.py:565-600 | one transaction: order, fill, event, daily delta only for a new event, and the applied status with the row ids; without a received result an error and no change |
| `Ledger.Recorder.AcknowledgeCommands` | src/lnmarkets_bot/persistence/recorder.py:602-608 | marks exactly the given commands delivered |
| `Ledger.Recorder.UpsertDaily` | src/lnmarkets_bot/persistence/recorder.py:400-430 | adds to the row of one run and date, or appends it |
| `Ledger.Recorder.RecordPnlEvent` | src/lnmarkets_bot/persistence/recorder.py:476-505 | inserts unless the event key exists |
| `Ledger.Recorder.SyncFundingRow` | src/lnmarkets_bot/engine/live_executor.py:640-668 | one settlement recorded once: fee, daily total and event |
| `Ledger.Recorder.LatestLocallyOpenTrades` | src/lnmarkets_bot/persistence/recorder.py:314-354 | the trades whose latest recorded action is an open, with that row, and no others |
| `LiveExecutor.LiveExecutor.Submit` | src/lnmarkets_bot/engine/live_executor.py:143-187 | each call is a run of the transition system; nothing happens without a side or a price |
| `LiveExecutor.LiveExecutor.RetryPendingExits` | src/lnmarkets_bot/engine/live_executor.py:189-210 | attempts every pending exit in order, as a run of the system |
| `LiveExecutor.LiveExecutor.DoExit` | src/lnmarkets_bot/engine/live_executor.py:212-310 | a run of the system; on success the slot is flat and the close is in the books |
| `LiveExecutor.LiveExecutor.RecordClose` | src/lnmarkets_bot/engine/live_executor.py:262-310 | memory is cleared, the result saved, then applied |
| `LiveExecutor.LiveExecutor.DoEntry` | src/lnmarkets_bot/engine/live_executor.py:312-383 | a position on the same side is kept, one on the other side is closed first; otherwise as for a flat slot |
| `LiveExecutor.LiveExecutor.EnterFlat` | src/lnmarkets_bot/engine/live_executor.py:384-434 | reads the inventory, checks the blocks twice, records the command and only then posts |
| `LiveExecutor.LiveExecutor.PostNewTrade` | src/lnmarkets_bot/engine/live_executor.py:425-459 | the outcome is one of: accepted, definitively rejected and taken back, or unresolved and kept |
| `LiveExecutor.LiveExecutor.RecordOpen` | src/lnmarkets_bot/engine/live_executor.py:460-495 | saves and applies the accepted entry, then fills the slot |
| `LiveExecutor.LiveExecutor.EntryAdmissionReason` | src/lnmarkets_bot/engine/live_executor.py:497-511 | there is no reason exactly when the owner's evidence is healthy, nothing blocks entries and decision and quote are fresh |
| `LiveExecutor.LiveExecutor.EntriesBlockedReason` | src/lnmarkets_bot/engine/live_executor.py:513-528 | there is no reason exactly when entries are unblocked in the sense the protocol uses |
| `LiveExecutor.LiveExecutor.SyncFunding` | src/lnmarkets_bot/engine/live_executor.py:599-668 | records the venue's settlements of recorded trades, as a run of the system |
| `LiveExecutor.LiveExecutor.Reconcile` | src/lnmarkets_bot/engine/live_executor.py:672-745 | applies every saved result and rebuilds the positions; fails only when the venue cannot be read |
| `LiveExecutor.LiveExecutor.ApplyReceived` | src/lnmarkets_bot/engine/live_executor.py:676-683 | applies every received command; none is refused |
| `LiveExecutor.RestorePositions` | src/lnmarkets_bot/engine/live_executor.py:700-745 | one position per ledger-open trade, with the venue's terms where it still runs |
| `LiveExecutor.LiveExecutor.ReconcileExternalClosures` | src/lnmarkets_bot/engine/live_executor.py:747-881 | books what the venue closed and answers exactly the undelivered closures, or stops on a closure without a price |
| `LiveExecutor.LiveExecutor.RecordClosures` | src/lnmarkets_bot/engine/live_executor.py:800-880 | books every missing trade the history tells about; the others stay missing |
| `LiveExecutor.LiveExecutor.RecordExternal` | src/lnmarkets_bot/engine/live_executor.py:835-880 | one external closure: command, result and rows, after which its slot is flat |
| `Delivery.DeliveredExactlyOnce` | src/lnmarkets_bot/engine/portfolio_live.py:245-267 | in every run, at every crash point and wherever a hook raises, a stored strategy state contains an external closure exactly when its command is acknowledged, contains no closure twice, and nothing that is not an accounted closure of its owner |
| `Delivery.RedeliveredToPreEventState` | src/lnmarkets_bot/engine/portfolio_live.py:321-360 | after a crash the restored state lacks a closure exactly when that closure is still to be delivered to this owner |
| `Delivery.DeliveryIsComplete` | src/lnmarkets_bot/engine/live_executor.py:589-597 | one delivery leaves the owner nothing undelivered and touches no other owner's closures |
| `Delivery.RaiseStep` | src/lnmarkets_bot/engine/portfolio_live.py:245-254 | a hook that raises stops the process and leaves the ledger and every stored state alone |
| `Delivery.BooksStaySound` | src/lnmarkets_bot/persistence/recorder.py:602-608 | delivery and acknowledgement disturb no order, fill, event or daily total in any run |
| `Delivery.StepKeeps` | src/lnmarkets_bot/persistence/recorder.py:507-518 | every step, a crash between hook and transaction included, keeps the agreement of memory, stored state and acknowledgements |
| `Delivery.Deliverer.DeliverExternal` | src/lnmarkets_bot/engine/portfolio_live.py:245-267 | the hook sees every event in order; state and acknowledgement change together, or neither does when the hook raises |
| `Liquidation.CascadeFollowsPath` | src/lnmarkets_bot/strategy/close_range.py:344-422 | for every valid historical campaign and every bar whose adverse extreme is not beyond its open, the sort-and-process loop never fails a lookup; each unit leaves exactly when the path from the open to the extreme first reaches its level or its parent's, at that price, by exactly one decision; exit prices move only in the adverse direction; the rest stay in order |
| `Liquidation.OpenTakesItsUnitsExactly` | src/lnmarkets_bot/strategy/close_range.py:367-375 | for every valid historical campaign and every bar, orderly or not: all units whose own or parent's level the open has reached leave if and only if the parent is hit or no unit has a level that the open has reached and the bar's extreme has not |
| `Liquidation.OrderlyBarTakesItsUnits` | src/lnmarkets_bot/strategy/close_range.py:375-378 | on an orderly bar every unit whose own or parent's level the open has reached leaves; the bars this can fail on are all disorderly |
| `Liquidation.DisorderlyBarMissesALevel` | src/lnmarkets_bot/strategy/close_range.py:375-378 | a valid campaign and a bar whose open lies below a long unit's level while the loop liquidates nobody |
| `Liquidation.CascadeRemovesHits` | src/lnmarkets_bot/strategy/close_range.py:379-422 | on any bar the loop fails no lookup; it ends the campaign exactly when the parent is hit and otherwise removes exactly the hit units |
| `Liquidation.ExitPriceIsFirstTouch` | src/lnmarkets_bot/strategy/close_range.py:376-380 | the price of a hit is the level, or the open if the bar opened beyond it |
| `Liquidation.ParentFirst` | src/lnmarkets_bot/strategy/close_range.py:381-422 | at a tie the parent goes first and takes every survivor with it at its price |
| `Liquidation.CloseChildrenClosesAll` | src/lnmarkets_bot/strategy/close_range.py:424-442 | the parent's exit removes every remaining child, one decision each in slot order |
| `CloseRangeProperties.OpKeepsRestorable` | src/lnmarkets_bot/strategy/close_range.py:796-816 | every operation, raising or not, leaves a machine that the checks of a restart accept |
| `CloseRangeProperties.RunKeepsRestorable` | src/lnmarkets_bot/strategy/close_range.py:796-816 | so does every run of operations |
| `CloseRangeProperties.RestoreInvertsPersist` | src/lnmarkets_bot/strategy/close_range.py:480-573 | restoring what was stored gives the machine back, field for field |
| `CloseRangeProperties.RestoreIsValid` | src/lnmarkets_bot/strategy/close_range.py:507-573 | restoring never yields a machine its own checks would refuse |
| `CloseRangeProperties.RestartAnywhere` | src/lnmarkets_bot/strategy/close_range.py:480-573 | stopping after any prefix of a run and restoring leads to the same machine and the same decisions |
| `CloseRangeProperties.FilledSlotNeverReopens` | src/lnmarkets_bot/strategy/close_range.py:684-720 | over any run of the machine, no add-on is opened in a slot that the machine was told the same campaign filled live |
| `CloseRangeProperties.ConfirmKeeps` | src/lnmarkets_bot/strategy/close_range.py:292-304 | confirming a fill keeps the campaign valid |
| `CloseRangeProperties.DiscardKeeps` | src/lnmarkets_bot/strategy/close_range.py:306-319 | so does discarding an unfilled add-on, which returns its slot number |
| `CloseRangeProperties.ChildClosedKeeps` | src/lnmarkets_bot/strategy/close_range.py:455-478 | so does the closure of a child |
| `CloseRangeWindows.CandidateRefines` | src/lnmarkets_bot/strategy/close_range.py:731-762 | the candidate taken from the bounded deques and the incremental average is the candidate defined on the whole history |
| `CloseRangeWindows.FoldedIsWindows` | src/lnmarkets_bot/strategy/close_range.py:764-789 | incremental indicators are the last 256 candles, the last 64 closes and the recursive average of the whole history |
| `CloseRangeWindows.RunFollowsHistory` | src/lnmarkets_bot/strategy/close_range.py:211-246 | over any run, whatever happens to campaigns, indicators and source digest are those of the complete history fed, and that history is one unbroken daily chain |
| `CloseRangeWindows.WarmupAgreesWithRun` | src/lnmarkets_bot/strategy/close_range.py:137-150 | a machine that only warms up on the same candles agrees on indicators, digest, count and last candle |
| `CloseRangeWindows.AdvanceKeepsPending` | src/lnmarkets_bot/strategy/close_range.py:248-290 | folding daily advances also leaves the pending candidate a warm-up would |
| `CloseRangeMachine.CloseRangeMachine.Warmup` | src/lnmarkets_bot/strategy/close_range.py:137-150 | loads candle by candle; a gap raises and leaves what was loaded |
| `CloseRangeMachine.CloseRangeMachine.Advance` | src/lnmarkets_bot/strategy/close_range.py:211-219 | equals the transition function: the open first, then the close |
| `CloseRangeMachine.CloseRangeMachine.CompleteAndApplyNextOpen` | src/lnmarkets_bot/strategy/close_range.py:221-246 | equals the transition function: the close first, then the next open |
| `CloseRangeMachine.CloseRangeMachine.ObserveClose` | src/lnmarkets_bot/strategy/close_range.py:248-290 | equals the transition function, indicators and ageing included |
| `CloseRangeMachine.CloseRangeMachine.ConfirmOwnedFill` | src/lnmarkets_bot/strategy/close_range.py:292-304 | equals the transition function |
| `CloseRangeMachine.CloseRangeMachine.DiscardUnfilledAddon` | src/lnmarkets_bot/strategy/close_range.py:306-319 | equals the transition function |
| `CloseRangeMachine.CloseRangeMachine.ApplyHistoricalFunding` | src/lnmarkets_bot/strategy/close_range.py:321-342 | equals the transition function: one debit per unit that had joined |
| `CloseRangeMachine.CloseRangeMachine.ObserveHistoricalPrices` | src/lnmarkets_bot/strategy/close_range.py:344-422 | the loops that collect, sort and process hits equal the cascade the path theorem is about |
| `CloseRangeMachine.CloseRangeMachine.ParentLiquidated` | src/lnmarkets_bot/strategy/close_range.py:424-442 | equals the transition function |
| `CloseRangeMachine.CloseRangeMachine.ChildClosed` | src/lnmarkets_bot/strategy/close_range.py:455-468 | equals the transition function, a missing child included |
| `CloseRangeMachine.CloseRangeMachine.ForgetClosedChild` | src/lnmarkets_bot/strategy/close_range.py:470-478 | equals the transition function |
| `CloseRangeMachine.CloseRangeMachine.ApplyOpen` | src/lnmarkets_bot/strategy/close_range.py:575-721 | equals the transition function: exit, recovery, parent, add-on or refusal |
| `CloseRangeMachine.CloseRangeMachine.FindCandidate` | src/lnmarkets_bot/strategy/close_range.py:731-762 | equals the windowed candidate |
| `CloseRangeMachine.CloseRangeMachine.AppendIndicatorsInPlace` | src/lnmarkets_bot/strategy/close_range.py:764-789 | equals the incremental indicator step |
| `CloseRangeMachine.CloseRangeMachine.Save` | src/lnmarkets_bot/strategy/close_range.py:480-505 | answers the snapshot of the current state |
| `CloseRangeMachine.CloseRangeMachine.Load` | src/lnmarkets_bot/strategy/close_range.py:507-573 | installs an accepted snapshot; a refused one changes nothing |
| `Historical.BulkReconstructionIsSound` | src/lnmarkets_bot/strategy/historical.py:47-78 | if the reconstruction accepts, then for every interleaving of the same settlements and candles in which each unit joins at its entry, replay through the machine raises nothing, liquidates nobody and ends with the campaign the reconstruction installed, collateral included |
| `Historical.MoreMarginIsSafer` | src/lnmarkets_bot/strategy/historical.py:64-70 | a level that a candle misses at some collateral is missed at every larger collateral, for both sides |
| `Historical.DebitsOnlyFall` | src/lnmarkets_bot/strategy/historical.py:58-63 | the debits of every prefix of the settlements leave at least the final collateral |
| `Historical.HydrateHistorical` | src/lnmarkets_bot/strategy/historical.py:16-78 | refuses and leaves the machine alone, or installs the units, clocks and flags of the specification |
| `Historical.VerifyReference` | src/lnmarkets_bot/strategy/historical.py:22-46 | every check in the program's order, before anything is written |
| `Historical.RebuildUnits` | src/lnmarkets_bot/strategy/historical.py:54-71 | margin and level of each unit; stops at the first that may not have survived |
| `LateFunding.LateFundingIsHarmless` | src/lnmarkets_bot/engine/portfolio_live.py:127-161 | for any buffered bars without a missing minute, replaying them with the settlements in between fails exactly when on-time processing with entries disabled would, emits no intent, and ends with the same campaign, collateral, indicators and flags; the funding clock agrees while the campaign that waited still runs |
| `LateFunding.VerifiedHistoricalFunding` | src/lnmarkets_bot/engine/portfolio_live.py:59-78 | accepts exactly the rows that fill every eight-hour step after the start up to the boundary with positive fixings, and answers those |
| `LateFunding.VerifiedIsPublished` | src/lnmarkets_bot/engine/portfolio_live.py:59-78 | from an honest source, what is accepted is what was published in that interval |
| `LateFunding.ReplayHistoricalBars` | src/lnmarkets_bot/engine/portfolio_live.py:127-161 | the loop over bars and settlements equals the specified replay, errors included |
| `AdapterGuarantees.NoOrphan` | src/lnmarkets_bot/strategy/close_range_live.py:243-434 | in every reachable state of a running process every funded slot is a unit of the live campaign or is being closed; while anything is being closed there is no campaign and no entry waiting |
| `AdapterGuarantees.EntriesMeetFlatSlots` | src/lnmarkets_bot/strategy/close_range_live.py:273-320 | an entry is submitted only for a slot that is flat |
| `AdapterGuarantees.HooksNeverRaise` | src/lnmarkets_bot/strategy/close_range_live.py:322-434 | no order result, external closure, withheld bar or reconciliation raises in a reachable state |
| `AdapterGuarantees.StartSucceedsExactly` | src/lnmarkets_bot/strategy/close_range_live.py:73-143 | after any crash the start succeeds, with every funded slot owned, if and only if no closure still to be delivered concerns a slot the snapshot lists as closing or aborting |
| `AdapterGuarantees.ClosureOfListedSlotIsFatal` | src/lnmarkets_bot/engine/portfolio_live.py:354-360 | the failing case is reachable whenever a snapshot lists a funded slot: the venue closes it, the process stops before delivery, and every later start fails, because reconciliation runs before delivery |
| `AdapterWitness.FatalStartHappens` | src/lnmarkets_bot/engine/portfolio_live.py:354-360 | a reachable run to such a state from a quiet history: a breakout funds a parent, the range ends, its close fails, the venue closes it and the process dies; no continuation changes anything again |
| `AdapterGuarantees.BarStopsExactly` | src/lnmarkets_bot/strategy/close_range_live.py:145-218 | in a reachable state a bar stops the process if and only if the machine refuses its prices or its candle; no decision and no handling of one raises |
| `AdapterFills.ForgetsExactly` | src/lnmarkets_bot/engine/portfolio_live.py:687-790 | over any run with crashes: at some point a slot that the running campaign has already filled is free for the next add-on if and only if some start of the run begins where such a slot is lost |
| `AdapterFills.StartForgetsExactly` | src/lnmarkets_bot/strategy/close_range_live.py:104-124 | after a successful start a filled slot of the campaign is free if and only if the snapshot has no trace of the fill, no closure of the parent waits, and the slot is not funded, not being aborted and not waiting to be delivered |
| `AdapterFills.NoSlotFilledTwice` | src/lnmarkets_bot/strategy/close_range.py:470-482 | in every run in which no start loses a filled slot, crashes included, every add-on order goes to a slot that its campaign never filled before |
| `AdapterFills.StepTracked` | src/lnmarkets_bot/strategy/close_range_live.py:145-434 | no step other than a start makes a filled slot free again: neither bars with decisions taken back, fills, refusals, exits, closures, retries nor reconciliation |
| `AdapterFills.FarFillIsForgotten` | src/lnmarkets_bot/engine/portfolio_live.py:744-790 | from every reachable engine about to submit an add-on order: filled beyond the distance cap, its exit done, a crash before the end of the bar, and the next start frees the slot |
| `AdapterFills.StartReturnsSlotExactly` | src/lnmarkets_bot/strategy/close_range_live.py:104-124 | a start from a snapshot with a modelled add-on, aborted slots and undelivered closures of children included, keeps the campaign and takes the slot number back if and only if the slot is not funded, not being aborted and not waiting to be delivered |
| `AdapterRefill.SlotFilledTwiceHappens` | src/lnmarkets_bot/engine/portfolio_live.py:687-790 | a reachable run in which an add-on order is about to be submitted for a slot that the same campaign has already filled |
| `AdapterSlots.BarCarries` | src/lnmarkets_bot/strategy/close_range_live.py:145-320 | a bar makes no used slot free, whatever is decided, taken back or kept waiting during it, and any campaign it introduces is newer than all before |
| `AdapterHooks.SavedBack` | src/lnmarkets_bot/strategy/close_range_live.py:436-506 | a snapshot gives back everything but the urgent intents |
| `AdapterHooks.ExternalsSettle` | src/lnmarkets_bot/strategy/close_range_live.py:374-420 | a batch of external closures leaves exactly the surviving slots owned and never raises |
| `AdapterHooks.FillSettlesAddon` | src/lnmarkets_bot/strategy/close_range_live.py:322-372 | an add-on filled beyond the distance cap is marked, and its exit follows at once |
| `AdapterHooks.FillSettlesParent` | src/lnmarkets_bot/strategy/close_range_live.py:322-357 | a confirmed parent fill settles the campaign on the funded price |
| `AdapterHooks.NoFillSettles` | src/lnmarkets_bot/strategy/close_range_live.py:322-357 | a refused entry leaves no trace in the model |
| `AdapterHooks.ReconcileSettles` | src/lnmarkets_bot/strategy/close_range_live.py:422-434 | reconciling a settled adapter drops what is flat and nothing else |
| `AdapterBars.LiveBarActs` | src/lnmarkets_bot/strategy/close_range_live.py:145-218 | after a live bar the adapter is settled, or enters with its last intent only |
| `AdapterBars.MinuteActs` | src/lnmarkets_bot/strategy/close_range_live.py:145-192 | a live minute: exits that are due, and a reversal when everything is flat |
| `AdapterBars.DailyActs` | src/lnmarkets_bot/strategy/close_range_live.py:193-218 | a live day: exits, at most one entry, or a parent that waits for the closes |
| `AdapterBars.WarmupSettles` | src/lnmarkets_bot/strategy/close_range_live.py:220-241 | warm-up emits no intent, keeps missed exits actionable and leaves no unfunded parent |
| `AdapterBars.ExpiredByNextDay` | src/lnmarkets_bot/strategy/close_range_live.py:175-192 | by the next completed day a waiting reversal has expired |
| `AdapterStartup.StartSettles` | src/lnmarkets_bot/strategy/close_range_live.py:73-143 | whatever state a crash left, what reconciliation and delivery leave is accepted by the ownership checks |
| `AdapterStartup.ParentSettles` | src/lnmarkets_bot/strategy/close_range_live.py:90-110 | the modelled parent is confirmed at its funded price or given up |
| `CloseRangeLive.CloseRangeLive.OnStart` | src/lnmarkets_bot/strategy/close_range_live.py:73-143 | equals the specified start, ownership errors included |
| `CloseRangeLive.CloseRangeLive.OnMinuteBar` | src/lnmarkets_bot/strategy/close_range_live.py:145-192 | equals the specified minute hook |
| `CloseRangeLive.CloseRangeLive.OnDailyBar` | src/lnmarkets_bot/strategy/close_range_live.py:145-218 | equals the specified daily hook |
| `CloseRangeLive.CloseRangeLive.ReconcileWarmupDecisions` | src/lnmarkets_bot/strategy/close_range_live.py:220-241 | equals the specified warm-up handling |
| `CloseRangeLive.CloseRangeLive.IntentsFor` | src/lnmarkets_bot/strategy/close_range_live.py:243-320 | equals the specified intents, in order |
| `CloseRangeLive.CloseRangeLive.OnExitResult` | src/lnmarkets_bot/strategy/close_range_live.py:322-357 | equals the specified handling of an executed exit |
| `CloseRangeLive.CloseRangeLive.OnEntryFilled` | src/lnmarkets_bot/strategy/close_range_live.py:322-372 | equals the specified handling of a fill and its follow-up exit |
| `CloseRangeLive.CloseRangeLive.OnEntryRefused` | src/lnmarkets_bot/strategy/close_range_live.py:322-357 | equals the specified handling of a refusal |
| `CloseRangeLive.CloseRangeLive.OnExternalPositionClosed` | src/lnmarkets_bot/strategy/close_range_live.py:380-420 | equals the specified hook, the raising cases included |
| `CloseRangeLive.CloseRangeLive.OnExternalPositionsClosed` | src/lnmarkets_bot/strategy/close_range_live.py:374-378 | children first, then the parent, stopping at the first error |
| `CloseRangeLive.CloseRangeLive.ReconcileExecutionState` | src/lnmarkets_bot/strategy/close_range_live.py:422-434 | equals the specified reconciliation |
| `CloseRangeLive.CloseRangeLive.MarkOutOfRangeFills` | src/lnmarkets_bot/strategy/close_range_live.py:508-521 | marks exactly the add-ons filled beyond the cap |
| `CloseRangeLive.CloseRangeLive.RestorePersistentState` | src/lnmarkets_bot/strategy/close_range_live.py:453-506 | installs an accepted snapshot and refuses any other |
| `PortfolioCash.NeverOversubscribed` | src/lnmarkets_bot/portfolio/store.py:183-229 | for any number of clients and any age of the newest observation, margin reserved and not yet taken never exceeds the true wallet of its book |
| `PortfolioCash.OnePositionPerPosting` | src/lnmarkets_bot/portfolio/store.py:242-263 | a reservation is posted or accounted exactly when one owned position draws on it, and never two |
| `PortfolioCash.ReservationsMoveForward` | src/lnmarkets_bot/portfolio/store.py:133-181 | a reservation moves only reserved to released, or reserved to posted to accounted, and nothing else about it changes |
| `PortfolioCash.BooksApart` | src/lnmarkets_bot/portfolio/store.py:133-229 | no action on one book changes cash, observations or margin of the other |
| `PortfolioCash.StepKeeps` | src/lnmarkets_bot/portfolio/store.py:133-263 | every client, venue and observer step keeps the cash invariants |
| `PortfolioStore.PortfolioStore.Register` | src/lnmarkets_bot/portfolio/store.py:121-131 | registers once; a different configuration under the same name is refused |
| `PortfolioStore.PortfolioStore.ObserveCash` | src/lnmarkets_bot/portfolio/store.py:133-181 | one transaction: the observation and the reflected postings, or an error and no change |
| `PortfolioStore.PortfolioStore.AccountReflected` | src/lnmarkets_bot/portfolio/store.py:169-180 | succeeds exactly when every reflected reservation is a posted one of this book |
| `PortfolioStore.PortfolioStore.CommittedSats` | src/lnmarkets_bot/portfolio/store.py:218-223 | the sum of reserved and posted margin of one book |
| `PortfolioStore.PortfolioStore.Reserve` | src/lnmarkets_bot/portfolio/store.py:183-229 | reserves against fresh cash minus what is committed, or refuses |
| `PortfolioStore.PortfolioStore.Release` | src/lnmarkets_bot/portfolio/store.py:231-240 | releases only an open reservation |
| `PortfolioStore.PortfolioStore.RecordPosition` | src/lnmarkets_bot/portfolio/store.py:242-263 | consumes one reservation into one position, or refuses |
| `PortfolioStore.PortfolioStore.InitializeMachine` | src/lnmarkets_bot/portfolio/store.py:331-362 | stores the first state once; the same again is accepted, another refused |
| `PortfolioStore.PortfolioStore.AdvanceMachine` | src/lnmarkets_bot/portfolio/store.py:377-413 | compare-and-swap by day and digest: the next day is stored with its decisions, a repeat is verified, anything else refused |
| `Shadow.ResumableFold` | scripts/run_breakout_forward_shadow.py:101-145 | stopped anywhere, rerun or raced by any number of jobs, whatever candles each reads, the stored machine and decisions are those of one uninterrupted pass from the seed over the days it holds, which follow one another without a gap |
| `Shadow.SameSourceSameDays` | scripts/run_breakout_forward_shadow.py:101-145 | when all runs read the same source, every day a history appends is the candle of that source |
| `Shadow.SameSourceSameBook` | scripts/run_breakout_forward_shadow.py:101-145 | two histories from the same seed on the same source, whatever runs stopped or raced: the one that got less far holds a prefix of the other's days, and at the same day both hold the same state and the same decisions |
| `Shadow.OnlyTheNextDayAppends` | src/lnmarkets_bot/portfolio/store.py:377-413 | a stale or gapped writer changes nothing; the book changes only for the very next day |
| `Shadow.AlteredSourceIsRefused` | scripts/run_breakout_forward_shadow.py:86-98 | a run continues exactly when its source up to the stored day is the chain that was processed |
| `Shadow.StepKeeps` | scripts/run_breakout_forward_shadow.py:101-145 | every step of every job keeps each one at its place on a single pass |
| `Shadow.AdvanceForwardShadow` | scripts/run_breakout_forward_shadow.py:101-145 | a call loads or initializes, verifies the source and advances day by day; an error leaves the days already appended |
| `Shadow.AdvanceOneDay` | scripts/run_breakout_forward_shadow.py:116-145 | one compare-and-swap of the next day |
| `MultiTimeframe.StreamIncremental` | src/lnmarkets_bot/data/multitimeframe.py:197-236 | for every stream, with any overlaps, gaps and jumps, what each base bar makes the loop yield is the minute itself and then, in the configured order, the candles that this minute makes due |
| `MultiTimeframe.StreamingIsBatch` | src/lnmarkets_bot/data/multitimeframe.py:114-156 | after every prefix of every stream a timeframe's emitted candles are the batch candles of the delivered minutes that are due |
| `MultiTimeframe.DueIsBatchTrimmed` | src/lnmarkets_bot/data/multitimeframe.py:213-236 | what is due is the whole batch but at most its first candle (begun inside) and its last (not yet ended) |
| `MultiTimeframe.DueExactly` | src/lnmarkets_bot/data/multitimeframe.py:217-233 | a bucket is due if and only if a minute of it was delivered, its end was reached, and the stream did not begin inside it |
| `MultiTimeframe.CandlesInOrder` | src/lnmarkets_bot/data/multitimeframe.py:215-236 | each bucket is emitted at most once, in order of time |
| `MultiTimeframe.BucketIsExact` | src/lnmarkets_bot/data/multitimeframe.py:222-223 | a bucket holds the delivered minutes inside it, no more and no fewer, in order |
| `MultiTimeframe.CompleteExactly` | src/lnmarkets_bot/data/multitimeframe.py:281-291 | a candle is complete if and only if every minute of its bucket was delivered |
| `MultiTimeframe.Highest` | src/lnmarkets_bot/data/multitimeframe.py:267-279 | the high of a candle is attained by one of its minutes and exceeded by none |
| `MultiTimeframe.Lowest` | src/lnmarkets_bot/data/multitimeframe.py:267-279 | the low of a candle is attained by one of its minutes and undercut by none |
| `MultiTimeframe.IncompleteWasReported` | src/lnmarkets_bot/data/multitimeframe.py:208-212 | behind every emitted incomplete candle is a delivered minute that carries the evidence gap |
| `MultiTimeframe.BucketStartIsGrid` | src/lnmarkets_bot/data/multitimeframe.py:238-251 | replacing calendar fields is rounding down to one grid of the timeframe's width |
| `MultiTimeframe.TakeMinute` | src/lnmarkets_bot/data/multitimeframe.py:214-233 | one minute for one timeframe: the state kept is exactly the open bucket |
| `Evidence.OnlyUnbrokenEvidence` | src/lnmarkets_bot/engine/portfolio_live.py:489-515 | in every run, through any crashes, replays and stored snapshots, the candles a strategy has learned from on each timeframe are complete and each is the immediate successor of the one before |
| `Evidence.StoredMarkHolds` | src/lnmarkets_bot/engine/portfolio_live.py:701-712 | once a mark is stored, across any number of crashes the timeframe learns nothing and the owner's entries stay blocked until the exact recorded candle is replayed whole in warm-up |
| `Evidence.BrokenUntilMended` | src/lnmarkets_bot/engine/portfolio_live.py:491-509 | within a process, every step but that replay keeps the mark and what was learned |
| `Evidence.ExactReplayMends` | src/lnmarkets_bot/engine/portfolio_live.py:501-504 | that replay clears the mark and the candle is learned at once |
| `Evidence.GapOutOfReachExactly` | src/lnmarkets_bot/engine/portfolio_live.py:505-508 | a live gap records a mark that no replay can reach exactly when the bar after the gap lies in a bucket that starts after the last committed boundary |
| `Evidence.GapOutOfReachHappens` | src/lnmarkets_bot/engine/portfolio_live.py:505-508 | a run from the start that reaches a stored mark of this kind: one committed candle, then a live gap minute two boundaries later |
| `Evidence.BrokenForever` | src/lnmarkets_bot/engine/portfolio_live.py:491-515 | with such a mark stored, the timeframe stays broken and entries blocked in every run |
| `Evidence.CandlesAreAligned` | src/lnmarkets_bot/data/multitimeframe.py:259-279 | the stream's candles sit on their grid, as the chain theorem needs |
| `Evidence.Owner.ProcessBar` | src/lnmarkets_bot/engine/portfolio_live.py:487-515 | the marks, the skip and the hand-over of one bar, the loop over the subscribed timeframes included |
| `RiskGuard.RiskGuard.Submit` | src/lnmarkets_bot/risk/guard.py:210-397 | answer and rate window after one intent are those of the specified decision |
| `RiskGuard.RiskGuard.Fit` | src/lnmarkets_bot/risk/guard.py:312-353 | the exposure, margin and cash clamps are those of the specification |
| `RiskGuard.ForwardedIsWithinLimits` | src/lnmarkets_bot/risk/guard.py:271-353 | a forwarded entry is positive, within position, leverage and total-notional limits, its margin and reserve fit the remaining margin after the floor, its cash need fits, and it is never larger than what sizing asked for |
| `RiskGuard.ExitsNeverCount` | src/lnmarkets_bot/risk/guard.py:221-223 | every exit of a run is forwarded, and the run keeps its rate window and its handed-over entries as if the exits were not there |
| `RiskGuard.RateIsBounded` | src/lnmarkets_bot/risk/guard.py:249-269 | with a monotone clock, no closed sixty-second interval of a process hands more entries to the executor than the limit |
| `RiskGuard.WindowHolds` | src/lnmarkets_bot/risk/guard.py:118 | over every run the deque never drops an order that still counts, and any limit+1 consecutive entries span more than a minute |
| `RiskGuard.ExposureStaysCapped` | src/lnmarkets_bot/risk/guard.py:312-322 | starting within the total cap, with fills at the requested contracts, no run leaves it: close-and-reopen flips, lost replies and their recovery included |
| `RiskGuard.EventFits` | src/lnmarkets_bot/engine/live_executor.py:905-909 | no single event raises the exposure above the larger of its old value and the cap |

## Left out

- HTTP, signing, pagination, WebSocket, timeouts and retry timing: the venue is a nondeterministic environment.
- Dashboard, charts, CLI, logging, deployment and readiness scripts: presentation and I/O.
- Other strategies: `Evidence` sees a strategy only through the candles it commits; range strategies, which receive withheld candles on purpose, are not covered by it.
- Operator resolution of an unresolved entry, liveness of gap recovery, float rounding, hashing, date parsing and SQLite internals.
- Metadata that decides nothing: entry displacement, recovery campaign ids, surviving-unit lists, recent decisions, signal ids, audit reasons of an exit, and the counters of unreported realized P&L.
- `seed_campaign`, `import_shadow_observation`, `record_accounting`, `record_close` and `parent_admission_reason`: they would add easy members only.
- Python aliasing of the mutable campaign and unit objects: the class holds them as values in its fields, so identity of unit objects across snapshots is not captured.
- Several bindings in one engine: `AdapterRuns` has one; `Delivery` and `PortfolioCash` have any number of owners and clients.
- The historical hydrator and the buffered replay inside the live loop appear in `Historical`, `LateFunding` and `Evidence`, not in the adapter's engine.
- Daily realized P&L is an input of the guard; its restoration from the database is not modelled. The rate window lives in memory, so its bound is per process.
- A timeframe listed twice in the configuration of the candle stream: the live script removes duplicates from what it passes.
- Strategies without a persistent state, whose closures are acknowledged with nothing stored: `Delivery` always stores a snapshot.
- Timestamps within a minute: the candle stream is modelled on whole minutes.
- FilledSlotNeverReopens: speaks of the fills the machine was told of; `AdapterFills` adds what a crash makes of the others.
- NeverOversubscribed: margin that the venue already took but the store has not yet seen posted is left out of the sum, because the true wallet is already smaller by it.
- ExposureStaysCapped: assumes that a fill has the contracts requested, as the executor's own position does unless the venue reports another quantity.
- AdvanceForwardShadow: the frame of completed daily rows is a sequence of candles; reading and filtering it from disk is not part of this model.
