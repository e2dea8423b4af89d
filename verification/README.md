# Verification of the agent-room runtime

A Dafny model of the durable cores of `skill/agent-room`, with proofs about whole runs. Check it with
`dafny verify dfyconfig.toml`.

## What is modelled

* **Attention ledger and persistent adapter.** `Leases`, `Ledgers` (the tables, and one function per
  transaction), `AttentionStores` (the store as a class, each method proved equal to its function),
  `LedgerInvariants`, `AgentOutput` (relay items and their budgets), `AdapterRuns` (every interleaving of
  transactions, RPC outcomes and crashes), `AdapterTheorems`, `OutputLimits` and `PartialStop` (exactly when a
  turn keeps its budgets, and a run that loses one), `Rebinding` and `OldInput` (exactly when recovery binds the
  right turn, and two runs where it does not), `RoomClosure`, `Retries`, `Scenarios`, `AppServers`,
  `RecoverySteps`, `Notices` and `Dispatches` (what messages, dispatches and reconciliations ask of the ledger, row
  by row), `LedgerMeanings` (the larger transactions row by row), `AdapterTraces` and `CodexAdapter` (the adapter as a
  class: output, dispatch, controls, relays and recovery as methods, each of which extends a legal run of
  `AdapterRuns` and is told exactly by the stream, the answers and the clock), `Ingestion`.
* **Inbox queue.** `InboxQueue` (cursor, choice, acknowledgement), `InboxTheorems` (all runs, draining),
  `RuntimeConsumer` (the urgency probe).
* **Wiki page cache.** `WikiDeltas`, `WikiPages`, `WikiOffers` (what an offer holds), `WikiPageContexts` (the
  class), `WikiAgreement` (the cache against what the model holds), `WikiReading` (the reader's selection).
* **Wiki journal.** `WikiJournals`, `WikiPublication` (runs with crashes), `WikiRunners` (the code's own order
  of effects), `WikiReviews`.
* **Listener.** `WebSocketFrames`, `Backfill`, `DurableLog`; `AgentEvents` is the shared event filter.

## What is assumed

A SQLite transaction or an atomic file replacement happens whole or not at all. SHA-256 digests and the ids
made from them are injective. `SequenceMatcher.get_opcodes` tiles both line lists and its equal spans are
equal. The app-server gives a turn id to one thread, and history it shows for a thread names turns of that
thread. Where a statement asks for full history in order (`Rebinding.Durable`), a thread also takes inputs only in
its newest turn (`Rebinding.OneActiveTurn`). An input may be accepted although its answer is an error; only the
statements under `FullHistory` take an error to mean that it was not. The wiki server answers one lease once and repeats its receipt. The room server returns the oldest
messages above the requested id, in order, at most as many as asked for. Clock readings, random masks, RPC
outcomes, chunk boundaries and crash points are arbitrary. JSON and UTF-8 decoding are a parser that accepts or
refuses a record.

## What the proofs found

* A stop that detaches only some members of a turn leaves a gap in `position`. A later binding to that turn can
  be ignored, and the attention then names the turn without being covered by its output. Two runs of the adapter
  are given: one in which two finals of a turn cover the same attention (`PartialStop.FinalBudgetBreaks`), and one
  in which two commentaries do (`PartialStop.CommentaryBudgetBreaks`). Over all runs the budgets of a turn hold
  exactly when no output is written while only such strangers wait for one (`OutputLimits.FinalBudgetIff`,
  `CommentaryBudgetIff`). A turn without a gap or strangers keeps them in every continuation in which no stop
  leaves it with a gap (`OutputLimits.BudgetsHoldFromHere`).
* The client message id is the same for every dispatch of an attention, so recovery can bind a requeued
  attention to an earlier turn. In one run a crash cuts the second dispatch short and the task is left accepted
  on the interrupted turn, unanswered and never due again (`OldInput.StoppedWorkIsBoundToItsOldTurn`); in
  another a new turn had taken the input, the ledger does not know that turn, and what it writes is dropped
  (`OldInput.LiveTurnIsDisowned`). Over all runs recovery is right exactly when the first turn of the history that
  shows the id is the one that took this dispatch (`Rebinding.BindsOwnInputIff`); with full history in order, that
  is exactly when the history shows the id, at the moment the dispatch is prepared, in no turn but the one that
  then takes it (`Rebinding.RecoveryIsRightIff`). So an id the history does not show yet is safe
  (`Rebinding.NewIdIsRecoveredRightly`).
* A page removed upstream is retracted from the model exactly when the reader's offer is admitted, the
  snapshot names the page missing, and the cache still holds it (`WikiReading.RemovedPageStaysIff`). A page evicted
  from a full cache, of 64 pages or any other limit, is not (`WikiReading.EvictedPageIsNotRetracted`).
* The app-server does not know the lease: an adapter displaced in the middle of a dispatch can still have its input
  accepted beside its successor's, but no more than that one (`Leases.DisplacedOwnerSendsAtMostOnce`).
* A bad inbox record stops ingestion for good (`Ingestion.BadRecordBlocks`). The first-run cursor is documented
  as a complete-file boundary, but the code takes the file size (`skill/agent-room/attention_store.py:268-306`):
  that is a boundary exactly when the inbox is empty or ends with a newline
  (`Ingestion.FirstCursorIsBoundaryIff`), and otherwise the tail of a line is taken for a record
  (`Ingestion.MidLineStart`).

## Where code and documents differ

* `skill/agent-room/references/adapter-protocol-v2.md:101-103` names bundle, turn and item as the inputs of a
  relay's op id; the code also digests the covered attention ids and the kind
  (`skill/agent-room/codex_adapter_v2.py:315-327`). The model follows the code.

## Model

| member | source | states |
|---|---|---|
| `Leases.EpochsOnlyGrow` | skill/agent-room/attention_store.py:440-502 | over any interleaving of claims, renewals, releases and mutations the lease epoch never decreases, a lease once made stays, and while the epoch stays so does its owner |
| `Leases.EachEpochHasOneOwner` | skill/agent-room/attention_store.py:440-481 | any two moments of a run with the same epoch have the same owner |
| `Leases.SuccessfulMutationsAreOrdered` | skill/agent-room/attention_store.py:605-623 | the epochs of mutations that pass the fence never go down along a run; equal epochs mean one owner |
| `Leases.DisplacedOwnerIsFencedOut` | skill/agent-room/attention_store.py:605-623 | once a newer epoch has been seen, no later mutation under an older epoch succeeds, whatever the clocks say |
| `Leases.TakeoverStartsNewEpoch` | skill/agent-room/attention_store.py:440-481 | a granted claim by another owner starts exactly the next epoch, and the displaced owner fails the fence under every epoch and clock |
| `Leases.LiveLeaseIsKept` | skill/agent-room/attention_store.py:440-481 | while a lease has not expired and its holder lives, a claim by anyone else changes nothing |
| `Leases.OwnCallsMean` | skill/agent-room/attention_store.py:440-502 | the holder's own claim and its renewal in time move nothing but the expiry, a late renewal moves nothing, a release ends the term at once |
| `Leases.SuccessIsInTerm` | skill/agent-room/attention_store.py:440-502 | over every run each successful mutation falls into a term that its owner claimed or renewed under that epoch, before its end |
| `Leases.DisplacedOwnerSendsAtMostOnce` | skill/agent-room/codex_adapter_v2.py:1055-1128 | over any interleaving of adapters, each input sent for a dispatch prepared before it: once a newer epoch has been seen, at most one more input of the displaced owner is accepted |
| `AttentionStores.AttentionStore.ClaimLease` | skill/agent-room/attention_store.py:440-481 | granted exactly when there is no lease, it is the own one, it expired or its holder is dead; the new lease row |
| `AttentionStores.AttentionStore.RenewLease` | skill/agent-room/attention_store.py:483-502 | moves the expiry only for the holder before expiry; otherwise StaleLease and no change |
| `AttentionStores.AttentionStore.ReleaseLease` | skill/agent-room/attention_store.py:585-603 | expires the matching lease at once, without a fence on expiry |
| `AttentionStores.AttentionStore.NextPending` | skill/agent-room/attention_store.py:863-880 | a due attention that no other due one precedes in rank, then stored time, then inbox offset, then id; none exactly when nothing is due |
| `AttentionStores.AttentionStore.SetThread` | skill/agent-room/attention_store.py:625-652 | fenced update of the room's thread |
| `AttentionStores.AttentionStore.RequeueMissingThread` | skill/agent-room/attention_store.py:690-766 | row by row, exactly: open output-free turns of the thread fail, their members without a final are requeued and detached, the thread is forgotten |
| `AttentionStores.AttentionStore.RequeueMissingTurn` | skill/agent-room/attention_store.py:768-842 | the same for one turn, only while it is open, on that thread and without output |
| `AttentionStores.AttentionStore.PrepareDispatch` | skill/agent-room/attention_store.py:1007-1059 | unknown attention, stale lease, or one prepared intent row |
| `AttentionStores.AttentionStore.FinalizeDispatch` | skill/agent-room/attention_store.py:944-1105 | the whole new ledger of a binding: turn row if new, membership at the row count or ignored, acceptance, attempts, intent |
| `AttentionStores.AttentionStore.RetryUnobservedDispatch` | skill/agent-room/attention_store.py:1123-1161 | the intent fails; the attention is due at once if it is neither accepted nor terminal |
| `AttentionStores.AttentionStore.DeferAttention` | skill/agent-room/attention_store.py:1163-1221 | immediate retry, backoff, or failed at the ceiling |
| `AttentionStores.AttentionStore.InterruptTurnForControl` | skill/agent-room/attention_store.py:1277-1361 | member by member, exactly: protected unanswered members are requeued and detached, the others end interrupted, unsent output is suppressed |
| `AttentionStores.AttentionStore.CancelPendingBeforeControl` | skill/agent-room/attention_store.py:1223-1275 | older unprotected pending chat of the room is cancelled, and the control is accepted and closed |
| `AttentionStores.AttentionStore.CloseRoomForControl` | skill/agent-room/attention_store.py:1363-1438 | the whole new ledger of a room closure |
| `AttentionStores.AttentionStore.CreateRelayItem` | skill/agent-room/attention_store.py:1440-1487 | a row is added exactly when neither its turn, item and kind nor its op id is taken |
| `AttentionStores.AttentionStore.MarkRelayFailed` | skill/agent-room/attention_store.py:1505-1539 | attempt count and backoff of exactly the rows with that op id |
| `AttentionStores.AttentionStore.MarkRelayAccepted` | skill/agent-room/attention_store.py:1541-1587 | the row is sent, and every covered attention gets its first response, and its final response if the relay is a final |
| `AttentionStores.AttentionStore.MarkTurnNoReply` | skill/agent-room/attention_store.py:1664-1697 | exactly the open optional members of the turn are cancelled |
| `AttentionStores.AttentionStore.MarkTurnCompleted` | skill/agent-room/attention_store.py:1711-1758 | turn, attentions naming it, and unsent output if the end is not a completion |
| `AttentionStores.AttentionStore.AdoptRecoveredTurn` | skill/agent-room/attention_store.py:504-533 | epoch of the open turn and of its unfinished attentions |
| `AttentionStores.AttentionStore.ReapStaleTurns` | skill/agent-room/attention_store.py:535-583 | row by row, exactly the open turns of older epochs are closed; reply-required attentions stay pending |
| `AttentionStores.AttentionStore.RetireLegacyContext` | skill/agent-room/attention_store.py:895-919 | only pending unprotected retired metadata is cancelled |
| `LedgerInvariants.GiveBackKeeps` | skill/agent-room/attention_store.py:690-842 | giving turns back keeps membership, acceptance, intents, coverage, finals and open turns consistent |
| `LedgerInvariants.InterruptKeeps` | skill/agent-room/attention_store.py:1277-1361 | so does a stop, including the partly detached turn |
| `LedgerInvariants.CloseRoomKeeps` | skill/agent-room/attention_store.py:1363-1438 | so does a room closure |
| `LedgerInvariants.FinalizeKeeps` | skill/agent-room/attention_store.py:944-1105 | so does a binding, given a prepared intent on the turn's thread |
| `LedgerInvariants.CreateRelayKeeps` | skill/agent-room/attention_store.py:1440-1487 | so does an output row that covers members of its turn |
| `LedgerInvariants.RelayAcceptedKeeps` | skill/agent-room/attention_store.py:1541-1587 | so does an accepted relay; final responses stay exactly those an accepted final covers |
| `LedgerInvariants.CloseAbandonedKeeps` | skill/agent-room/attention_store.py:535-583 | so does the reaper |
| `LedgerInvariants.TurnCompletedKeeps` | skill/agent-room/attention_store.py:1711-1758 | so does a completion |
| `LedgerInvariants.PendingCountIsExact` | skill/agent-room/attention_store.py:1760-1776 | under the invariant the reply-required pending count is exactly the reply-required, nonterminal attentions that no accepted final covers |
| `LedgerMeanings.StopCancelsOlderChat` | skill/agent-room/attention_store.py:1223-1275 | a stop cancels exactly the waiting, unprotected attentions of its room stored before it, closes itself, and changes no other row |
| `LedgerMeanings.InterruptMeans` | skill/agent-room/attention_store.py:1277-1361 | of an interrupted turn the protected members without a final are free again and no longer members, the others end interrupted, and only its unsent output is suppressed |
| `LedgerMeanings.ClosureSparesOtherRooms` | skill/agent-room/attention_store.py:1363-1438 | a room closure leaves every turn, attention, output and thread of other rooms as it was |
| `LedgerMeanings.LostThreadMeans` | skill/agent-room/attention_store.py:690-766 | exactly the open output-free turns of the thread fail, exactly their members without a final are free again, keeping a first response, and only threads of that id are forgotten |
| `LedgerMeanings.LostTurnMeans` | skill/agent-room/attention_store.py:768-842 | the same for one turn, whose members lose their first response |
| `LedgerMeanings.RetryingMeans` | skill/agent-room/attention_store.py:1123-1161 | a dispatch given up fails in its intent alone, and its attention is due at once exactly if it was neither accepted nor ended |
| `LedgerMeanings.AdoptionMeans` | skill/agent-room/attention_store.py:504-533 | adoption moves the epoch of the turn if it is open, and of exactly those of its attentions that are neither completed nor ended |
| `LedgerMeanings.ReapingMeans` | skill/agent-room/attention_store.py:535-583 | the reaper ends exactly the optional open attentions of the turns it closes; those that ask for a reply stay as they were |
| `LedgerMeanings.RetiringMeans` | skill/agent-room/attention_store.py:895-919 | exactly a retired record that is neither accepted, ended nor protected is cancelled |
| `AgentOutput.FinalsBounded` | skill/agent-room/attention_store.py:1641-1662 | if each final covers someone no earlier final of the turn covered, there are at most as many finals as attentions covered by finals |
| `AgentOutput.CommentariesBounded` | skill/agent-room/attention_store.py:1597-1628 | at most one commentary more than there are direct attentions covered by commentaries |
| `AdapterRuns.FoundInHistory` | skill/agent-room/codex_adapter_v2.py:728-741 | the search finds a turn exactly when some turn of the history shows the client message id, and it is such a turn |
| `AdapterRuns.StepKeepsGood` | skill/agent-room/codex_adapter_v2.py:555-1640 | every adapter step (30 kinds, any crash point) keeps ledger consistency, the one prepared dispatch in flight, thread caching, acceptance counts and output budgets |
| `AdapterRuns.ReachableIsGood` | skill/agent-room/codex_adapter_v2.py:555-1640 | so all of that holds in every reachable world |
| `AdapterRuns.GiveBackStep` | skill/agent-room/attention_store.py:690-842 | giving back output-free turns requeues all their members, each counted once, and keeps both budgets |
| `AdapterRuns.StoppedStep` | skill/agent-room/codex_adapter_v2.py:1179-1228 | a stop counts exactly the protected unanswered members as requeued, and marks the turn if it leaves a gap |
| `AdapterRuns.BindStep` | skill/agent-room/codex_adapter_v2.py:743-767 | binding an input in the crash window or after the RPC keeps all invariants |
| `AdapterTheorems.AcceptedAtMostOncePerRequeue` | skill/agent-room/codex_adapter_v2.py:1027-1158 | over every run, also with inputs accepted although the answer is an error: accepted inputs of one attention are at most 1 plus its requeues plus its accepted inputs lost before they were bound |
| `AdapterTheorems.AcceptedAtMostOncePlusRequeues` | skill/agent-room/codex_adapter_v2.py:743-767 | given that history shows every accepted input not yet bound and an RPC error means not accepted: at most 1 plus the number of ledger requeues |
| `AdapterTheorems.NothingIsLost` | skill/agent-room/codex_adapter_v2.py:672-767 | under that assumption no accepted input is ever lost |
| `AdapterTheorems.UnboundAreTaken` | skill/agent-room/codex_adapter_v2.py:743-767 | in every run an accepted input not yet bound was taken by a turn of the thread of its prepared dispatch |
| `Rebinding.BindsOwnInputIff` | skill/agent-room/codex_adapter_v2.py:728-767 | over every run and whatever the history shows: recovery binds the attention to the turn that took its input, or retries it if none did, exactly when the first turn showing the client message id is that turn, or no turn shows it |
| `Rebinding.OnlyTakerIff` | skill/agent-room/codex_adapter_v2.py:728-767 | with full, truthful history in order, that is exactly when no other turn of the thread ever took an input for the attention |
| `Rebinding.RecoveryIsRightIff` | skill/agent-room/codex_adapter_v2.py:1040-1062 | told when the dispatch is prepared: recovery will be right exactly when the thread's history shows the id then in no turn, or only in the turn that takes the input again |
| `Rebinding.NewIdIsRecoveredRightly` | skill/agent-room/codex_adapter_v2.py:1040-1062 | if the thread's history shows the id in no turn when the dispatch is prepared, recovery will be right |
| `OldInput.StoppedWorkIsBoundToItsOldTurn` | skill/agent-room/codex_adapter_v2.py:728-767 | a concrete run after which a reply-required task, requeued as often as it was accepted, names a closed turn, has no response and is never pending |
| `OldInput.FullHistoryMisleads` | skill/agent-room/codex_adapter_v2.py:728-741 | a reachable world with full, truthful history in order whose first turn showing the id is not the one that took the input |
| `OldInput.LiveTurnIsDisowned` | skill/agent-room/codex_adapter_v2.py:1326-1389 | a concrete run after which the turn that took the last input is unknown to the ledger and every item of it is dropped |
| `AdapterTheorems.OutputBudgets` | skill/agent-room/codex_adapter_v2.py:1391-1493 | on every turn no stop left with a gap, in every run: each final and each later commentary covers someone new; finals number at most the attentions that joined, commentaries at most 1 plus the direct ones |
| `OutputLimits.CoversNobodyNewIff` | skill/agent-room/codex_adapter_v2.py:1431-1493 | in every world that keeps the invariants, an output covers nobody that finals do not cover already exactly when only attentions wait that name the turn without being its members |
| `OutputLimits.FinalBudgetIff` | skill/agent-room/codex_adapter_v2.py:1431-1493 | over every run each final of a turn covers someone new exactly when no step was about to write a final while only such strangers waited |
| `OutputLimits.CommentaryBudgetIff` | skill/agent-room/attention_store.py:1597-1628 | the same for commentaries after the first and direct attentions |
| `OutputLimits.WritesIff` | skill/agent-room/codex_adapter_v2.py:1391-1493 | what a step writes on a turn is decided before it: a final or a commentary exactly when the item is new and not empty, its gate is open and somebody is covered |
| `OutputLimits.BudgetsHoldFromHere` | skill/agent-room/attention_store.py:983-996 | from any reachable world where a turn has no gap, its budgets hold so far and every attention naming it is its member, both budgets hold in every continuation in which no stop leaves it with a gap |
| `AdapterTheorems.FinalResponsesAreExact` | skill/agent-room/attention_store.py:1541-1587 | in every reachable ledger a final response is recorded exactly when an accepted final covers the attention; hence the exact pending count |
| `AdapterTheorems.CoverageNeverChanges` | skill/agent-room/attention_store.py:1440-1487 | relay rows are only appended along a run, and no row's turn, item, kind or coverage ever changes |
| `AdapterTheorems.FallbacksStayWithinCandidates` | skill/agent-room/codex_adapter_v2.py:1468-1493 | at every promotion of every run, the final covers no more than its held item of that turn did, and no later step changes that |
| `AdapterTheorems.UnboundIsNotCovered` | skill/agent-room/codex_adapter_v2.py:1109-1120 | output recorded while an accepted input is not yet bound never covers that input |
| `AdapterTheorems.CoverageIsOfOneScope` | skill/agent-room/codex_adapter_v2.py:1326-1343 | what one output covers is of one room and server: the cross-room guard never fires |
| `AdapterTheorems.ResumeBranchIsUnreachable` | skill/agent-room/codex_adapter_v2.py:969-1012 | once recovery is over every stored thread is cached, so a dispatch never resumes one |
| `PartialStop.GateStaysOpen` | skill/agent-room/attention_store.py:1641-1662 | an attention that names the turn without being a member lets every further final through |
| `PartialStop.StopLeavesAStranger` | skill/agent-room/attention_store.py:1326-1330 | a run of the adapter (a stop, then two crashes) after which an attention is accepted on a turn, unanswered, and not a member of it |
| `PartialStop.FinalBudgetBreaks` | skill/agent-room/codex_adapter_v2.py:1431-1455 | a run of the adapter in which a turn gets two finals and the second covers nobody new |
| `PartialStop.CommentaryBudgetBreaks` | skill/agent-room/codex_adapter_v2.py:1406-1430 | a run of the adapter in which a turn gets two commentaries and the second covers no new direct attention |
| `RoomClosure.ControlClosesRoom` | skill/agent-room/attention_store.py:1363-1438 | after the control no turn of the room is open, no relay of its turns is pending or held, no unfinished attention remains, and the thread is forgotten |
| `RoomClosure.DeadForever` | skill/agent-room/codex_adapter_v2.py:1326-1365 | a turn open at closure stays closed, without nonterminal members and without new relay rows in every continuation |
| `RoomClosure.RoomStaysSilent` | skill/agent-room/codex_adapter_v2.py:1230-1270 | both together, for a closure at any step of any run |
| `Retries.StepKeepsAttempts` | skill/agent-room/attention_store.py:1163-1221 | no step lowers an attention's attempts, and each positive deferral uses one |
| `Retries.DeferMeaning` | skill/agent-room/attention_store.py:1184-1221 | a positive deferral counts one attempt and either delays by the backoff, at most 30 s, or fails at the ceiling |
| `Retries.NoDelayNoAttempt` | skill/agent-room/attention_store.py:1184-1221 | a deferral without delay uses no attempt and is due at once |
| `Retries.RetriesAreBounded` | skill/agent-room/attention_store.py:26-27 | over every run at most 7 positive deferrals leave an attention retryable, and with the 1,000 ms base they delay it by at most 91,000 ms in all |
| `Retries.UnsentBacksOff` | skill/agent-room/attention_store.py:1505-1539 | an output that was not taken is due again after 1, 2, 4, 8, 16, 32 and then always 60 seconds; no other output changes |
| `RecoverySteps.ReapCompletes` | skill/agent-room/attention_store.py:535-583 | after the reaper every open turn is proven and of the new epoch, and no proven turn that history does not call over was closed |
| `RecoverySteps.OutputsChain` | skill/agent-room/codex_adapter_v2.py:1345-1389 | output steps compose: members stay, rows are appended, new rows cover members only |
| `RecoverySteps.UnacceptedIsNotCovered` | skill/agent-room/codex_adapter_v2.py:1109-1120 | an attention not yet accepted is covered by nothing output in between |
| `RecoverySteps.ReachableTurnRows` | skill/agent-room/attention_store.py:944-980 | every reachable ledger meets what recovery asks of turn rows |
| `AppServers.AppServer.Request` | skill/agent-room/codex_rpc.py:105-125 | the first response with the own id is returned, everything before it is appended to the buffer in order, nothing after it is read |
| `AppServers.ReplyIsFirst` | skill/agent-room/codex_rpc.py:105-125 | what a request takes from the stream is the first response with its id; before it, in order, and behind it the stream is whole |
| `Notices.ItemLeavesOneRow` | skill/agent-room/codex_adapter_v2.py:1391-1466 | an item with text leaves exactly one row, once, if its turn has a member that has not ended: with its text, covering exactly those members, final or commentary only while somebody lacks one; otherwise none |
| `Notices.ItemWaives` | skill/agent-room/attention_store.py:1664-1697 | an item changes no attention, except that a waived reply cancels exactly the open optional ones of its turn |
| `Notices.CompletionAnswers` | skill/agent-room/codex_adapter_v2.py:1468-1493 | a completed turn adds one final with the text of its newest held item, for those it covered that can be answered, exactly when that item still answers someone; a turn that ends otherwise adds none and suppresses what is unsent |
| `Notices.CompletionCloses` | skill/agent-room/attention_store.py:1711-1758 | the turn and every attention naming it are closed with its end, and nothing else changes |
| `Notices.EachMessageIsHandled` | skill/agent-room/codex_adapter_v2.py:1547-1558 | of a handled sequence each message was handled in its turn, on what those before it left |
| `Notices.EachItemHasARow` | skill/agent-room/codex_adapter_v2.py:1547-1558 | no item is dropped: if its turn still has a member that has not ended, it has left a row |
| `Notices.EachCompletionCloses` | skill/agent-room/codex_adapter_v2.py:1468-1517 | no completion is dropped: its turn is closed in the end |
| `Dispatches.JoiningBinds` | skill/agent-room/attention_store.py:944-1105 | after a dispatch the attention is accepted on the answered turn with its intent, operation and epoch, is its member unless a stop left a gap there, and nobody else is bound or unbound |
| `Dispatches.PuttingOffMeans` | skill/agent-room/attention_store.py:1123-1221 | after a refusal the intent is failed and the attention waits, with one attempt more if there is a delay, failed at the ceiling; no other row changes |
| `Dispatches.ResolvesOneMeans` | skill/agent-room/codex_adapter_v2.py:743-767 | one reconciled dispatch: bound to the first turn that shows its input, or failed and due again, and nothing else changed |
| `Dispatches.SettlesOneMeans` | skill/agent-room/codex_adapter_v2.py:769-810 | one reconciled turn: adopted if it is shown or the thread was not idle, left alone if it has output, else closed as failed with its members free again |
| `Dispatches.RecoveredEnds` | skill/agent-room/codex_adapter_v2.py:610-670 | after the recovery of a thread no turn that its history calls over is open |
| `CodexAdapter.FindTurn` | skill/agent-room/codex_adapter_v2.py:728-741 | the loop computes the specified search and returns a turn of the history |
| `CodexAdapter.LatestUnknownItem` | skill/agent-room/codex_adapter_v2.py:1483-1486 | a held item of the turn no other is newer than; none exactly when there is none |
| `CodexAdapter.PersistentCodexAdapter.CreateOutput` | skill/agent-room/codex_adapter_v2.py:1345-1389 | covers the nonterminal members, or those of them a held item covered, and records nothing when there are none; fails only without the lease |
| `CodexAdapter.PersistentCodexAdapter.HandleAgentItem` | skill/agent-room/codex_adapter_v2.py:1391-1466 | the ledger is what the item asks for (`Notices`), or the lease had lapsed at a clock reading taken in between |
| `CodexAdapter.PersistentCodexAdapter.HandleTurnCompleted` | skill/agent-room/codex_adapter_v2.py:1468-1517 | likewise for a completion: the promotion happens exactly when it is due, then the turn is closed and no longer runs |
| `CodexAdapter.PersistentCodexAdapter.Drain` | skill/agent-room/codex_adapter_v2.py:1117-1120 | everything buffered is handled, each message in its order, nothing more is read, and the running turns are those that no completion ended |
| `CodexAdapter.PersistentCodexAdapter.DrainMessages` | skill/agent-room/codex_adapter_v2.py:1547-1558 | the same for what is buffered followed by every message that comes in time |
| `CodexAdapter.PersistentCodexAdapter.Decide` | skill/agent-room/codex_adapter_v2.py:1027-1054 | nothing is done exactly if nothing is due; otherwise the most urgent due attention is taken by its event, and work is steered exactly if a turn runs on its room's thread |
| `CodexAdapter.PersistentCodexAdapter.RetireNext` | skill/agent-room/codex_adapter_v2.py:1031-1034 | retired metadata is cancelled without any dispatch; otherwise the lease was lost |
| `CodexAdapter.PersistentCodexAdapter.Steer` | skill/agent-room/codex_adapter_v2.py:1062-1120 | told by the stream alone: an accepted steer adds exactly that one accepted input, handles exactly what came before the response, none of it covering the attention, and then binds it to the answered turn; a refusal accepts nothing and puts it off, after the orphan is reconciled if no turn is active |
| `CodexAdapter.PersistentCodexAdapter.StartNewTurn` | skill/agent-room/codex_adapter_v2.py:1121-1158 | told by the stream alone: an answer with a turn adds exactly that one accepted input and binds the attention to that turn, which then runs; an error accepts nothing and puts the attention off; it fails only without response, turn id or lease |
| `CodexAdapter.PersistentCodexAdapter.ReconcileActiveTurn` | skill/agent-room/codex_adapter_v2.py:826-877 | exactly: an ended turn is replayed item by item and closed, one still shown or on a busy thread is left alone, else it is given back; and the turn stops running exactly when it was recovered |
| `CodexAdapter.PersistentCodexAdapter.HandleStopControl` | skill/agent-room/codex_adapter_v2.py:1179-1228 | told by the answer: without active turn or with an accepted interrupt, the turn is interrupted and then the older disposable chat cancelled; a refused one only defers the control |
| `CodexAdapter.PersistentCodexAdapter.HandleRoomClosedControl` | skill/agent-room/codex_adapter_v2.py:1230-1270 | the room is closed in the ledger and its thread dropped, whatever the interrupt answers; it fails only without answer or lease |
| `CodexAdapter.PersistentCodexAdapter.ProcessRelays` | skill/agent-room/codex_adapter_v2.py:1560-1601 | exactly the due rows are tried, each once: sent if the server takes it, else due again after the doubled delay; exactly those whom a sent row covers get a first response, by a final also a final one; nothing in shadow mode |
| `CodexAdapter.PersistentCodexAdapter.ReconcileDispatches` | skill/agent-room/codex_adapter_v2.py:743-767 | every prepared dispatch of the thread is bound to the first turn showing its input, or failed and due again; no other row changes |
| `CodexAdapter.PersistentCodexAdapter.ReconcileAcceptedTurns` | skill/agent-room/codex_adapter_v2.py:769-810 | every open turn of the thread is adopted if history shows it or the thread was not idle for it, else given up if it has no output; all other rows stay |
| `CodexAdapter.PersistentCodexAdapter.RecoverTurn` | skill/agent-room/codex_adapter_v2.py:1014-1025 | the turn is replayed item by item, and closed exactly if history says it is over |
| `CodexAdapter.PersistentCodexAdapter.RecoverTurns` | skill/agent-room/codex_adapter_v2.py:650-670 | exactly the turns that are unfinished in the ledger or in progress are replayed, in order, and the last one in progress runs afterwards |
| `CodexAdapter.PersistentCodexAdapter.RecoverThread` | skill/agent-room/codex_adapter_v2.py:610-670 | a thread that is there: its dispatches are resolved, then its open turns settled, then its history replayed; one that is gone: its dispatches are retried and its turns given back |
| `CodexAdapter.PersistentCodexAdapter.RecoverExistingThreads` | skill/agent-room/codex_adapter_v2.py:610-670 | every saved thread is recovered or given up |
| `CodexAdapter.PersistentCodexAdapter.Initialize` | skill/agent-room/codex_adapter_v2.py:555-608 | when it returns, every open turn carries the new epoch, was in durable history or on a thread not proven idle, and is not over by that history; every such turn that was open still is; it fails only without the lease |
| `AdapterTraces.EpochsAreFenced` | skill/agent-room/attention_store.py:605-623 | over every run, no turn row carries an epoch above those of the calls that wrote it |
| `CodexAdapter.NextProcess` | skill/agent-room/codex_adapter_v2.py:555-608 | wherever a process ends, its ledger is that of a legal run from which the next process starts |
| `Ingestion.Ingestor.IngestInbox` | skill/agent-room/attention_store.py:308-438 | succeeds exactly when every complete line from the offset on is acceptable; then rows in the table stay, a new row is that of the first line with its key that is no mere context, watermarks are the greatest ids seen, and reading stops behind the last newline; otherwise nothing changes; the three counts |
| `Ingestion.PassMeans` | skill/agent-room/attention_store.py:326-396 | the same of one pass, line by line |
| `Ingestion.PassContinues` | skill/agent-room/attention_store.py:326-347 | a pass over a longer file is the pass over the shorter one continued where that one stopped |
| `Ingestion.AlwaysABatch` | skill/agent-room/attention_store.py:308-438 | for any byte-level split of appends interleaved with calls, rows, watermarks and offset are those of one pass over the bytes at the last successful call |
| `Ingestion.IncrementalEqualsBatch` | skill/agent-room/attention_store.py:308-438 | on acceptable records: one pass over the longest newline-terminated prefix, whose length is the offset |
| `Ingestion.BadRecordBlocks` | skill/agent-room/attention_store.py:334-350 | a bad record changes nothing, in this and in every later call however much is appended |
| `Ingestion.Ingestor.InitializeSource` | skill/agent-room/attention_store.py:268-306 | an existing cursor wins; a new one is the start of the file for a replay, else its size |
| `Ingestion.FirstCursorIsBoundaryIff` | skill/agent-room/attention_store.py:276-294 | the first-run cursor is a point that reading lines reaches exactly when the inbox is empty or ends with a newline |
| `Ingestion.MidLineStart` | skill/agent-room/attention_store.py:292-347 | from a cursor inside a line, the tail of that line is read as a record; if it is not acceptable, ingestion never moves again |
| `InboxQueue.ChooseRecord` | skill/agent-room/orchestrator_queue.py:204-250 | the chosen record is preferred to every other live one, and park point, end and compaction count are as specified |
| `InboxQueue.ChosenMeans` | skill/agent-room/orchestrator_queue.py:204-220 | no live record is more urgent than the chosen one; among equals chat takes the newest, everything else the oldest |
| `InboxQueue.ChoiceIsUnique` | skill/agent-room/orchestrator_queue.py:204-220 | at most one record is preferred to all others |
| `InboxQueue.NothingGuardedBelow` | skill/agent-room/orchestrator_queue.py:221-243 | no live protected record lies below the park point of a choice |
| `Common.RankIsUrgency` | skill/agent-room/orchestrator_queue.py:23-32 | one priority ranks before another exactly when the protocol lists it as more urgent |
| `InboxQueue.PriorityMeans` | skill/agent-room/orchestrator_queue.py:163-201 | a known declared priority stands; else the frame decides, and chat is direct, broadcast, for the room, addressed by an agent or informational, exactly by whom it names and who sent it |
| `InboxQueue.AckPointMeans` | skill/agent-room/orchestrator_queue.py:221-243 | the park point is the end of the chosen record, or the first protected live record before it |
| `InboxQueue.CompactedMeans` | skill/agent-room/orchestrator_queue.py:221-250 | the offer counts exactly the unprotected live records that it overtakes behind the cursor |
| `InboxQueue.OfferMeans` | skill/agent-room/orchestrator_queue.py:221-250 | an offer ends at its record's end, and its park point is that end or does not reach the record |
| `InboxQueue.Queue.NextRecord` | skill/agent-room/orchestrator_queue.py:253-293 | a cursor beyond the end starts over; then it skips exactly the acked prefix; nothing is offered exactly when nothing is live, and then the cursor is at the end |
| `InboxQueue.Queue.Acked` | skill/agent-room/orchestrator_queue.py:116-129 | obsolete, acked by id, or unprotected and at most the room watermark |
| `InboxQueue.Queue.AckRecord` | skill/agent-room/orchestrator_queue.py:296-316 | offset and watermark never go back; the id moves to the end of the 1024-entry window |
| `InboxQueue.AckMeans` | skill/agent-room/orchestrator_queue.py:116-129 | after an acknowledgement the record itself counts as acknowledged, and of those not acknowledged by id exactly the unprotected ones at or below the watermark of their own room |
| `InboxQueue.Queue.ProcessOne` | skill/agent-room/runtime_consumer.py:307-334 | a delivery is acked only after it ran; a failed run changes nothing but the skipped prefix |
| `InboxTheorems.OfferIsSafe` | skill/agent-room/orchestrator_queue.py:221-243 | up to the park point of an offer every record is accounted for once the offered one is acked |
| `InboxTheorems.ProtectedWorkIsNeverSkipped` | skill/agent-room/orchestrator_queue.py:204-316 | over all appends, pulls and acks, late or twice: a protected record below the offset was acked; any other was acked, is obsolete, is under its watermark, or was overtaken by an acked later record at least as urgent |
| `InboxTheorems.AppendStep` | skill/agent-room/listen.py:1131-1133 | a line added to the inbox under the queue is the append step of the run |
| `InboxTheorems.PullStep` | skill/agent-room/orchestrator_queue.py:253-293 | one call of the queue on the state of a run is one step of the run, with the offer that step has |
| `InboxTheorems.AcknowledgeStep` | skill/agent-room/orchestrator_queue.py:296-316 | so is an acknowledgement of any earlier pull, late or again |
| `InboxTheorems.DrainOffersOnce` | skill/agent-room/orchestrator_queue.py:253-316 | with at most 1024 ids unread, a drain offers no id twice and the window holds every id it acked |
| `InboxTheorems.DrainEnds` | skill/agent-room/orchestrator_queue.py:253-316 | and after at most as many acks as ids nothing is live and the cursor is at the end of the log |
| `RuntimeConsumer.UrgentInboxProbe.NextDeliveryId` | skill/agent-room/runtime_consumer.py:48-79 | the newest direct message since the last look, or none; every complete record is read once, a torn tail is left, a rotated file is read from the start |
| `RuntimeConsumer.NewestMeans` | skill/agent-room/runtime_consumer.py:48-79 | what the probe returns is a direct message other than the current delivery, and every later direct message belongs to the current delivery |
| `WikiDeltas.JoinSplit` | skill/agent-room/wiki_context.py:83-83 | joining the lines of a body gives the body, for all of the line breaks |
| `WikiDeltas.CollectSections` | skill/agent-room/wiki_context.py:84-89 | the loop keeps exactly the non-equal opcodes, in order, with the text they remove and insert |
| `WikiDeltas.DeltaRoundTrip` | skill/agent-room/wiki_context.py:83-92 | for any opcodes tiling both line lists with equal spans equal, the sections fit the old body and rebuild the new body exactly |
| `WikiPageContexts.WikiPageContext.Prepare` | skill/agent-room/wiki_context.py:42-114 | every refusal in its order, no packet exactly when no slug needs a change, or a packet that holds the right change for exactly the slugs that need one; a refusal changes nothing |
| `WikiOffers.ChangeForMeans` | skill/agent-room/wiki_context.py:58-95 | per slug: a bootstrap exactly for a page the cache lacks, a delta exactly for a newer one, a removal exactly for a cached one that is gone, a refusal exactly for a conflict of revisions; a delta names the cached base and patches its body into the new one |
| `WikiOffers.SectionsMean` | skill/agent-room/wiki_context.py:84-89 | a delta has a section for each opcode that changes something, saying what it removes and inserts, and none for equal lines |
| `WikiOffers.PreparedMeans` | skill/agent-room/wiki_context.py:42-114 | an offer holds each needed change once and nothing else, within the budget; no packet means that no slug needs one; neither is given on a conflict |
| `WikiPageContexts.WikiPageContext.AcknowledgeInjection` | skill/agent-room/wiki_context.py:116-131 | only an offer that is latest for all its slugs; pages move to the end, the oldest are evicted, the offer is forgotten |
| `WikiAgreement.ChangesAreSound` | skill/agent-room/wiki_context.py:56-95 | every change of an offer meets its base in the model and leads to the offered version |
| `WikiAgreement.ReadingSoundChanges` | skill/agent-room/wiki_context.py:116-124 | reading a packet: each change meets its base in its turn, and the model ends with the offered versions and nothing else changed |
| `WikiAgreement.AcknowledgedAgrees` | skill/agent-room/wiki_context.py:116-131 | a successful acknowledgement meets every base, leaves the model with the offered version of every slug, and keeps the agreement |
| `WikiAgreement.CacheAgreesWithModel` | skill/agent-room/wiki_context.py:33-131 | for every run of prepare, acknowledge and reset, the cached pages are exactly pages the model holds, despite supersession and eviction |
| `WikiAgreement.ResetFencesOldOffers` | skill/agent-room/wiki_context.py:33-40 | after a reset no offer made before it is ever acknowledged, whatever happens later and even with the same context id |
| `WikiAgreement.SupersededIsRefused` | skill/agent-room/wiki_context.py:105-120 | once a later offer names one of its slugs, an offer is never acknowledged |
| `WikiAgreement.AcknowledgedIff` | skill/agent-room/wiki_context.py:116-120 | an acknowledgement succeeds exactly in the same room and context while each of its slugs was last offered by it; a refusal changes nothing |
| `WikiAgreement.PlacedAtTheEnd` | skill/agent-room/wiki_context.py:121-127 | acknowledged pages move to the end of the cache in the order of the offer, all others keep theirs, so the longest unread are evicted first |
| `WikiAgreement.PendingIsBounded` | skill/agent-room/wiki_context.py:110-113 | superseded offers never pile up: at most as many pending offers as pages allowed |
| `WikiReading.CurrentIsUpToDate` | skill/agent-room/wiki_reader.py:66-72 | when the reader's selection needs no packet, the model holds every page of the snapshot at its version and the cache holds no missing page |
| `WikiReading.OfferRemovesIff` | skill/agent-room/wiki_reader.py:62-66 | the reader's offer removes a slug exactly when the snapshot has no page for it, names it missing, and the cache holds it |
| `WikiReading.RemovedPageStaysIff` | skill/agent-room/wiki_context.py:58-68 | after one reader round, a page the snapshot no longer has is still in the model exactly when it was there and the offer was not admitted, the page not named missing, or not cached |
| `WikiReading.RefusedIff` | skill/agent-room/wiki_context.py:42-109 | the reader's offer is refused exactly when the room, the budget, the page count, a stale page, the packet size or the room for pending offers stands against it |
| `WikiReading.EvictedPageIsNotRetracted` | skill/agent-room/wiki_context.py:126-127 | for every cache limit: a run in which a page evicted by newer ones and then removed upstream stays in the model while the reader says CURRENT |
| `WikiReviews.ValidateReview` | skill/agent-room/wiki_coordinator.py:84-135 | a review is accepted exactly when it is certified against its batch and wiki, and passed on with nothing added |
| `WikiReviews.CertifiedRoutesFit` | skill/agent-room/wiki_runtime.py:138-140 | a certified review never violates the route table's primary key on a fresh job |
| `WikiReviews.CertifiedMeans` | skill/agent-room/wiki_coordinator.py:84-135 | a certified review is of this batch and revision, within every size limit, names no page or target twice, gives seen sources for each nonblank page, and routes only to agents of the batch about pages of the wiki or of the review |
| `WikiJournals.WikiJournal.LatestOf` | skill/agent-room/wiki_runtime.py:107-116 | the room's job with the highest id |
| `WikiJournals.WikiJournal.Intent` | skill/agent-room/wiki_runtime.py:118-130 | refused at 16 unfinished jobs, over budget, on a repeated lease or an unfinished job of the room; else one new row |
| `WikiJournals.WikiJournal.Result` | skill/agent-room/wiki_runtime.py:132-140 | status, review and all routes, or nothing |
| `WikiJournals.WikiJournal.Accepted` | skill/agent-room/wiki_runtime.py:150-162 | receipt recorded, private data dropped, old accepted jobs without routes pruned beyond 128 |
| `WikiPublication.PrunedMeans` | skill/agent-room/wiki_runtime.py:160-162 | pruning keeps order, every unfinished job and the newest id, so ids are never reused |
| `WikiPublication.PrunedKeeps` | skill/agent-room/wiki_runtime.py:160-162 | an accepted job stays exactly while fewer than 128 newer ones are accepted or it has routes to deliver |
| `WikiPublication.ReceiptIsJudged` | skill/agent-room/wiki_coordinator.py:138-141 | a receipt is taken exactly when it is the revision the worker saw or the next; the job is then accepted with it and forgets snapshot and review |
| `WikiPublication.BacklogIsBounded` | skill/agent-room/wiki_runtime.py:118-130 | over every run at most sixteen jobs are unfinished |
| `WikiPublication.StepKeepsGood` | skill/agent-room/wiki_runtime.py:118-231 | every runner step, with a crash anywhere, keeps the journal's invariants |
| `WikiPublication.WorkerRunsAtMostOnce` | skill/agent-room/wiki_runtime.py:190-231 | the worker runs at most once for a journalled job, over all crashes and restarts |
| `WikiPublication.FinishCallsAreIdentical` | skill/agent-room/wiki_runtime.py:179-188 | every finish call for a job carries the identical lease and review |
| `WikiPublication.OnlyNewestIsUnfinished` | skill/agent-room/wiki_runtime.py:76-83 | only a room's newest job can be unfinished, and there is at most one |
| `WikiPublication.BlockedIsForever` | skill/agent-room/wiki_runtime.py:196-201 | once a room's job is blocked it stays the room's latest job and blocked, over every continuation with restarts, and its worker does not run again |
| `WikiPublication.RoutesAreNeverLost` | skill/agent-room/wiki_runtime.py:132-178 | over every run with crashes, each route of a stored result was offered or is still journalled with its job, pending once the publication is accepted |
| `WikiPublication.RevisionAdvancesOncePerLease` | skill/agent-room/wiki_coordinator.py:138-141 | against a server idempotent per lease the revision advances at most once, and an accepted job holds the server's receipt |
| `WikiRunners.WikiRunner.RunOnce` | skill/agent-room/wiki_runtime.py:190-231 | whatever the answers, one call is a sequence of the steps of WikiPublication, and journal and result are told by the room's latest job and the answers: uncertainty is kept, a pending publication is settled exactly when a right receipt is heard, a new batch runs the worker exactly once if its intent is journalled and then stores and publishes what it returned |
| `WikiRunners.WikiRunner.RoutePending` | skill/agent-room/wiki_runtime.py:174-178 | succeeds exactly when every pending route of the room can be offered; each one offered is forgotten, or the first failed offer stops it with the rest still pending |
| `WikiRunners.WikiRunner.Publish` | skill/agent-room/wiki_runtime.py:179-188 | one finish call with the journalled lease; if its receipt is heard and right, the job is accepted and its routes offered, and else the journal stays as it is |
| `WikiRunners.StoredIsLatest` | skill/agent-room/wiki_runtime.py:231-231 | the result just stored is the room's latest job, so that is what is published |
| `AgentEvents.FilterIsAFixpoint` | skill/agent-room/wiki_state.py:10-36 | an event passes unchanged exactly when nothing retired is in it at any depth, and filtering twice is filtering once |
| `AgentEvents.FilterMeans` | skill/agent-room/wiki_state.py:10-36 | a retired frame goes, any other event keeps kind and text and loses its retired keys, its messages are filtered, and a turn goes exactly if it had messages and none stays |
| `AgentEvents.MessagesOneByOne` | skill/agent-room/wiki_state.py:21-28 | a list is filtered message by message, in order, and what is no object stays |
| `WebSocketFrames.UnmaskingInverts` | skill/agent-room/listen.py:525-527 | unmasking inverts masking (section 5.3 of RFC 6455) |
| `WebSocketFrames.MaskedBits` | skill/agent-room/listen.py:525-527 | each masked byte differs from the payload in exactly the bits of the key's byte at its index modulo four |
| `WebSocketFrames.ControlFrameDecodes` | skill/agent-room/listen.py:481-488 | a sent control frame is read back with its opcode and payload |
| `WebSocketFrames.Socket.SendControlFrame` | skill/agent-room/listen.py:481-488 | one masked frame, or a refusal over 125 bytes that sends nothing |
| `WebSocketFrames.ReadFrame` | skill/agent-room/listen.py:502-524 | the first whole frame of the stream, however it is chunked, and exactly the rest |
| `WebSocketFrames.Frames` | skill/agent-room/listen.py:491-536 | for every chunking: the data payloads in order and one pong per ping with its payload, up to the first close, as a function of the byte stream alone |
| `WebSocketFrames.StreamIsDecoded` | skill/agent-room/listen.py:491-536 | a stream of unfragmented frames in any of the three length forms (section 5.2 of RFC 6455) decodes to exactly what the frames ask for |
| `DurableLog.LogFile.OpenDurable` | skill/agent-room/listen.py:600-641 | reading backwards in 4096-byte blocks truncates to the longest prefix that is empty or newline-terminated |
| `DurableLog.CommittedIsLongest` | skill/agent-room/listen.py:600-606 | no terminated prefix is longer |
| `DurableLog.TornAppendIsUndone` | skill/agent-room/listen.py:600-606 | a torn append without a newline is undone exactly |
| `Backfill.Listener.AdvanceCursor` | skill/agent-room/listen.py:1081-1090 | persisted and in-memory cursor move forward only |
| `Backfill.Listener.Emit` | skill/agent-room/listen.py:1097-1145 | the batch is durable before the cursor moves to its highest id |
| `Backfill.Listener.DeliverBatches` | skill/agent-room/listen.py:892-895 | a page's wanted messages in order in batches within the limit; after a crash anywhere the cursor is below everything not delivered |
| `Backfill.Listener.DeliverPage` | skill/agent-room/listen.py:1218-1232 | the page's watermark only after all of its wanted messages |
| `Backfill.Listener.Recover` | skill/agent-room/listen.py:825-876 | paging ends; what is delivered is the wanted messages above the cursor, in order, all of them if it completes and a prefix if it crashes |
| `Backfill.WhoHearsWhat` | skill/agent-room/listen.py:963-975 | nobody hears itself, a lead hears all others, and an agent that asks only for what addresses it hears exactly broadcasts and what names it |
| `Backfill.CursorNeverPassesUndelivered` | skill/agent-room/listen.py:1218-1232 | after any number of crashed recoveries, the attempt that moved the cursor past a message delivered it, unless that attempt's own policy did not want it |

## Left out

- One identity's slice of the shared database is modelled; other identities' rows never meet it.
- Coverage, bundles and turn membership are sets of attention ids: display order, relay targets, reasons and error texts carry no state that the proofs need.
- CodexAdapter.PersistentCodexAdapter.Steer: a dispatch starts from a cached thread, as it always does once recovery is over (AdapterTheorems.ResumeBranchIsUnreachable); creating or resuming a thread (Decide's NeedsThread) and the periodic orphan check are steps of AdapterRuns only.
- CodexAdapter.PersistentCodexAdapter.Initialize: asks that the claiming owner is new, as the process id and random suffix make it; histories and idle answers of recovery are given, one per thread and turn.
- Retries.RetriesAreBounded: the bound on the total delay is for deferrals with the adapter's 1,000 ms base.
- Ingestion.IncrementalEqualsBatch: a row's stored time is compared only where the record carries its own; otherwise it is the clock of the call.
- Two adapters at once: runs of AdapterRuns have one adapter; what a displaced one can still do is in Leases (no ledger write, at most one more accepted input).
- Inbox rotation and truncation are handled by InboxQueue.Queue.NextRecord but left out of the run theorems; logs are append-only there.
- WikiPageContexts.WikiPageContext.AcknowledgeInjection: the model context is what acknowledged packets make of it; a packet the model read but whose acknowledgement came too late is outside the agreement.
- The reader's receipts, status texts, seven-context limit and audit retries, and `WikiContext` checkpoints: bookkeeping beside the cache.
- Backfill.Listener.Recover: a listener whose cursor is still 0 skips backfill, as in the code; live pushes between recoveries are not modelled.
- Fragmented WebSocket messages: the decoder ignores the FIN bit and continuation frames, and the theorems are about unfragmented ones; text decoding with replacement is left out.
- Polling, waiting, file locks, permissions, fsync, HTTP, subprocesses, native model workers, prompts, credentials, web assets and the Rust server.
