# Verified models of the AgentsDock core

This project models eight pieces of AgentsDock whose guarantees span many functions, and proves those guarantees
for every input, every interleaving and every point at which a run may be cut.

Each piece is built the same way. A value-level description says what one operation does to a state, branch by
branch as the program does it. A class or a method with loops carries the operation out step by step, in the
program's own form, and its contract ties the new state to that description. Lemmas then speak of whole runs.

- **Release activation** (`Activation*.dfy`) is a journaled transaction over a small filesystem: the `current` and
  `previous` links, release directories known by inode, and the env and service files with their staging names.
  Every durable operation is one step. A `World` is a disk and the number of steps that are left before the power
  fails, so a lemma about every `World` is a lemma about every crash point. `Layout` names the states a transaction
  can be in, and `Paint` says what the tree looks like in each of them.
- **Mailbox** (`Mailbox*.dfy`) is the ledger of messages, read batches, chained pages, receipts, exclusions and the
  per-chat wake reservation.
- **Claude actor** (`ClaudeActor*.dfy`) is the single consumer of commands and frames with its connection
  generations, the exact acknowledgement fence, suppressed Results and the ledger of delegated tasks. What a run is
  owed is defined independently of the actor, from the frames of its connection.
- **Codex client** (`CodexTurn*.dfy`, `CodexDelivery*.dfy`, `CodexStarts.dfy`) is the identity of turn handles under
  reordered answers and notifications, the classification of a failed request at the write boundary, and both
  together: what the failure of a start may conclude about its thread.
- **Sender scan** (`SenderScan.dfy`) is the nested paging loop with its page, time, result and output stops.
- **Process guard** (`ProcessGuard*.dfy`) is the capped worklist over a process table that may contain cycles, and the
  accumulation of captured identities over snapshots.
- **History repair** (`HistoryRepair*.dfy`, with `Filters.dfy`) is the window proof that decides by counting which
  imported rows may be neutralised, with its three collectors of deliveries, wakes and replayed outputs, and the
  bounded merge that keeps proofs over refreshes.
- **Lineage** (`Lineage*.dfy`) is the event automaton that can be exported and resumed anywhere.

## What turned out not to hold

The code is modelled as it is. Where a promise fails, a lemma says exactly when it holds.

1. `replace_config` is accepted in phases whose validation does not look at the history. There it can leave a state
   that no later call accepts. The exact cuts, for a draft, a pending publication or nothing staged, are
   `ActivationReplace.ReplaceIsFatalExactlyWhen`; the calls that are safe at every cut are
   `ActivationReplace.ReplaceIsSafeExactlyWhen`; `ActivationRuns.WedgedForGood` says that nothing repairs it, and
   `ActivationRuns.NeverWedged` that nothing else breaks it. `ActivationLimits.LooseDraftCanWedge` and
   `ActivationLimits.PendingPublicationCanWedge` reach such a state from `begin`.
2. Re-invoking `replace_config` with another mode and losing power right after the journal write makes the rollback
   cleanup refuse the staging file. `ActivationLimits.CleanupAfterModeChange` says after which calls, from any staging
   state and at any cut; `ActivationRuns.CrashSafeRollback` says that a rollback completes exactly when it was decided
   with no such draft about, and `ActivationRuns.StuckForGood` that it never does otherwise.
   `ActivationLimits.ModeChangeStopsRollback` reaches the state from `begin`. A script with one service mode, as the
   installer's, never does (`ActivationModes.OneModeRollsBack`).
3. The first rename of `activate_files` cannot be recovered from when `current` spells the release path in another way
   than the candidate link will, or when `previous` resolves through the directory that moves
   (`ActivationLimits.FirstMoveIsRecoverableExactlyWhen`; `ActivationLimits.RespelledCurrentCanWedge` reaches it); nor
   the rename of the candidate when `previous` resolves through that one
   (`ActivationLimits.CandidateMoveIsRecoverableExactlyWhen`). The main theorems therefore start from a plan without
   these shapes (`ActivationLayout.WellFormed`).
4. A draft that is written while an earlier publication is pending is not what the next successful call publishes
   (`ActivationConfig.DraftPublishedIffNonePending`).
5. The Codex reader reports a process without stdout as if nothing had been sent; that report is honest exactly when
   no unanswered request was written or can still be (`CodexDeliveryRuns.StdoutReportIsHonestExactlyWhen`). The client
   always spawns its process with a stdout pipe (`codex_app_server.py:717-727`), so as the code stands the branch
   cannot be taken; the theorems over runs of the client are about runs that do not take it.
6. A retried mailbox page can conflict. It does exactly when the messages of the page still in scope have become too
   large together (`MailboxReads.RetryConflictsExactlyWhenTooLarge`), and only an edit of one of them can bring that
   about (`MailboxRetries.UneditedRetrySucceeds`, with `MailboxRetries.EditCanMakeARetryConflict`).
7. The closing row of a marked import batch keeps its own form exactly when it names another provider session
   (`HistoryRepairProof.MarkedBatchIsNeutral`).
8. The cap on marks can leave a batch with its end marked and its beginning not, against the comment at
   `claude_history_repair.py:1400-1402`. It does so exactly when the cap falls between the two marks
   (`HistoryRepairPairs.RefreshPartsExactlyWhen`), and `HistoryRepairParted.ARefreshCanPartAPair` is a run that does.
9. A sender scan can fail although every message left fits an answer alone: a taken match is measured with its own
   sequence number as the cursor, and the finished answer with the last one examined. The call fails exactly when that
   number is longer and the room was used up (`SenderScan.ListBySender`, with `SenderScan.RollOverFails`).

## Model

A method that is only a step of a listed one has no row.

| member | source | states |
|---|---|---|
| ActivationSafety.BeginEstablishesInv | activation_transaction.py:1092-1224 | the disk `begin` publishes satisfies the transaction invariant |
| ActivationSafety.RecordKeepsInv | activation_transaction.py:1530-1659 | recording any phase, accepted, refused or cut, keeps the invariant, so the demanded predicate of the persisted phase still holds |
| ActivationSafety.ActivateKeepsInv | activation_transaction.py:1792-1833 | `activate_files` cut after any number of durable steps keeps the invariant |
| ActivationSafety.ActivationRecovers | activation_transaction.py:1792-1833 | re-entered from any cut state it completes, always in the same tree, and changes nothing but the tree |
| ActivationSafety.FinalTreeLinks | activation_transaction.py:1289-1343 | that tree satisfies what `linked` demands |
| ActivationSafety.RestoreRolls | activation_transaction.py:1879-1975 | a restore from any rollback state stays in one at every cut and leaves the manifest alone; with enough power the tree is restored, and it completes exactly when no stale service draft is in its way |
| ActivationSafety.RestoreKeepsInv | activation_transaction.py:1879-1975 | a restore cut anywhere keeps the invariant, and neither makes nor removes a stale draft |
| ActivationLayout.ForwardCanRollBack | activation_transaction.py:1325-1443 | every state an activation can be in is one a rollback accepts |
| ActivationLayout.DirectoriesConserved | activation_transaction.py:1792-1833 | in every layout exactly the directories of the begin tree exist, each once |
| ActivationLayout.DirectoryTraced | activation_transaction.py:1792-1833 | a directory found anywhere stood at one begin path and is where the layout moves that path |
| ActivationLayout.PreviousKeepsResolving | activation_transaction.py:350-363 | the release recorded for `previous` never moves, so the link keeps resolving |
| ActivationConfig.HistoryToleratesChange | activation_transaction.py:1398-1443 | in a history phase a file whose digest is journaled never makes the validation fail |
| ActivationConfig.StagingIsCleanable | activation_transaction.py:1011-1089 | of the staging states that cut publications with any modes leave, the cleanup accepts exactly those whose draft is not stale; that of the env file never is |
| ActivationConfig.PublishKeeps | activation_transaction.py:970-1008 | publication needs at most two steps, is describable after each, and ends with exactly the journaled file |
| ActivationConfig.PublishDraftKeeps | activation_transaction.py:1661-1767 | journaling and publishing a draft keeps the digest ahead of the destination at every cut |
| ActivationConfig.ReplaceKeeps | activation_transaction.py:1661-1767 | in a history phase a call with any mode, cut anywhere, leaves a valid state and touches one file only; it is refused exactly when something is journaled with another mode, or the mode is none, and otherwise completes with the journaled inode, digest and mode |
| ActivationConfig.AttemptKeepsFlight | activation_transaction.py:1661-1767 | a cut attempt with any mode leaves the drafted file in flight, to be taken up by the next one |
| ActivationConfig.InterruptedPublicationConverges | activation_transaction.py:1661-1767 | after any number of cut attempts with any modes the drafted file is still on its way, and one call with power enough publishes exactly its inode and bytes exactly when it uses the journaled mode or the draft is still loose |
| ActivationConfig.OneModeConverges | activation_transaction.py:1661-1767 | attempts that all use one mode always converge to the drafted file with that mode, and no staging name stays |
| ActivationConfig.DraftPublishedIffNonePending | activation_transaction.py:1661-1767 | a successful call publishes the draft exactly when no publication was pending |
| ActivationConfig.CleanStagingRemoves | activation_transaction.py:1011-1089 | the cleanup never refuses a cleanable state and removes both names without touching the destination |
| ActivationConfig.StaleExactlyWhen | activation_transaction.py:1661-1767 | from any staging state, with any mode and at any cut, the call leaves a stale draft exactly when it lost power right after journaling one that had another mode, or journaled nothing and found one |
| ActivationReplace.ReplaceLands | activation_transaction.py:1661-1767 | an accepted call publishes exactly from a definite number of durable steps on, and then exactly the pending file, or else the draft |
| ActivationReplace.ReplaceIsFatalExactlyWhen | activation_transaction.py:1661-1767 | in every phase, whatever is staged or journaled, with any mode and at every cut, the call leaves a state that nothing validates exactly when it publishes other than the snapshot before the history phases, or journals a draft without publishing it while the candidate starts |
| ActivationReplace.ReplaceIsSafeExactlyWhen | activation_transaction.py:1661-1767 | a call is safe at every cut exactly when it is refused or publishes nothing, in the history phases, or before them when what it publishes is the very content of the snapshot |
| ActivationRuns.RefusedCallChangesNothing | activation_transaction.py:1227-1443 | when the persisted phase does not validate, a call changes neither tree, manifest nor published files |
| ActivationRuns.WedgedForGood | activation_transaction.py:1227-1443 | and so does every continuation |
| ActivationRuns.ScriptKeepsOrWedges | activation_transaction.py:1227-1443 | any script of record, replace, draft, activate and restore calls, each with its own mode and cut anywhere, keeps the invariant when none of its calls is fatal where it is made, and otherwise ends wedged, in a layout of the way forward |
| ActivationRuns.NeverWedged | activation_transaction.py:47-65 | after any script the persisted phase validates exactly when no `replace_config` in it was fatal where it was made, and then until `committing` the rollback can be recorded in one step |
| ActivationRuns.ReleasesConserved | activation_transaction.py:1792-1833 | no script whatever loses or duplicates a release directory |
| ActivationRuns.RestoreCompletes | activation_transaction.py:1836-1975 | one restore with enough power, from any state of a rollback, brings back every path outside the candidate's own places; it completes exactly without a stale service draft, and then both files and their modes are back and `rolled-back` records |
| ActivationRuns.RolledBackMeansRestored | activation_transaction.py:1339-1341 | over any script, `rolled-back` and `rollback-healthy` are only ever persisted over the begin snapshot |
| ActivationRuns.CrashSafeRollback | activation_transaction.py:1879-1975 | any script, then the rollback decision, then any interrupted restores, then one with enough power: the decision is possible exactly when no call of the script was fatal, the tree is restored, and the restore completes, in the begin snapshot, exactly when the service draft was not stale at the decision |
| ActivationRuns.StuckForGood | activation_transaction.py:1011-1089 | a rollback that finds a stale service draft never completes, however often and with whatever power it is tried |
| ActivationModes.OneModeRollsBack | activation_transaction.py:1661-1767 | after a script with one service mode the rollback completes, in the begin snapshot, exactly when it can be decided |
| ActivationRuns.ForwardRecovery | activation_transaction.py:1792-1833 | re-entering `activate_files` after any script completes exactly when no call of it was fatal, in the tree of an uninterrupted run, and `linked` records |
| ActivationRuns.FinalTreeShows | activation_transaction.py:1792-1833 | in that tree both links are moved, the candidate is at its release path and the rollback release where `previous` points |
| ActivationRuns.OnlyRecordMovesThePhase | activation_transaction.py:1530-1659 | no other call, however cut, changes the phase |
| ActivationRuns.FateIsSettled | activation_transaction.py:47-65 | once committing or rolling back, one call stays on that side |
| ActivationRuns.CommitExcludesRollback | activation_transaction.py:47-65 | no run reaches both `committed` and `rollback-healthy` |
| ActivationLimits.CleanupAfterModeChange | activation_transaction.py:1011-1089 | from any staging state, with any mode and at any cut, the cleanup succeeds exactly when the call did not lose power right after journaling a draft of another mode, and did not just find one so |
| ActivationLimits.FirstMoveIsRecoverableExactlyWhen | activation_transaction.py:1289-1343 | a power loss after the first rename leaves a valid transaction exactly for the two shapes the validation foresees, with `previous` elsewhere |
| ActivationLimits.CandidateMoveIsRecoverableExactlyWhen | activation_transaction.py:1289-1343 | a power loss after the rename of the candidate leaves a valid transaction exactly when `previous` did not resolve through it |
| ActivationLimits.LooseDraftCanWedge | activation_transaction.py:1661-1767 | publishing a draft straight after `begin` leaves a state that nothing validates |
| ActivationLimits.PendingPublicationCanWedge | activation_transaction.py:1661-1767 | so does a second attempt after one that was cut before its rename, from a state that still validated |
| ActivationLimits.ModeChangeStopsRollback | activation_transaction.py:1011-1089 | two cut attempts with different modes, none of them fatal, let the rollback be recorded, and no restore ever completes |
| ActivationLimits.RespelledCurrentCanWedge | activation_transaction.py:1792-1833 | from a valid transaction whose `current` is spelled otherwise, an activation cut after its first rename leaves a state that nothing validates |
| ActivationInstaller.Installer.RecordPhase | activation_transaction.py:1530-1659 | in place: the phase moves exactly where the described recording lets it, and every refusal and cut leaves the described disk |
| ActivationInstaller.Installer.Activate | activation_transaction.py:1792-1833 | in place, rename by rename: every cut leaves exactly the disk of the described moves |
| ActivationInstaller.Installer.Restore | activation_transaction.py:1879-1975 | in place, path by path and file by file: every cut leaves exactly the disk of the described restore |
| ActivationInstaller.Installer.ReplaceConfiguration | activation_transaction.py:1661-1767 | in place: validation, phase refusal, resumed and fresh publication leave exactly the described disk at every cut |
| MailboxReads.PageSpec | chat_mailbox.py:220-236 | a page is the longest prefix of its rows within the limit and the byte budget, and fails only when the first row alone is too large |
| MailboxReads.ReadExactlyOnce | chat_mailbox.py:252-317 | a read message lies in exactly one page of exactly the batch its receipt names |
| MailboxReads.PagesFormAChain | chat_mailbox.py:252-317 | the pages of a batch cover disjoint intervals inside its snapshot, and a page announcing more moves the cursor |
| MailboxReads.CancelledWasNeverRead | chat_mailbox.py:330-346 | a cancelled message has no receipt and is in no page |
| MailboxReads.ClaimKeepsInv | chat_mailbox.py:252-317 | claiming a fresh page keeps the ledger's invariant |
| MailboxReads.ReadKeepsInv | chat_mailbox.py:252-317 | so does every read, fresh, replayed or in conflict |
| MailboxReads.FreshAnswerIsThePage | chat_mailbox.py:252-317 | the re-read after claiming returns exactly the claimed page, without overflow |
| MailboxReads.UneditedAlwaysFits | chat_mailbox.py:143-188 | an admitted and unedited message always fits a page on its own |
| MailboxReads.UneditedReadSucceeds | chat_mailbox.py:220-236 | with unedited mail a fresh page never fails |
| MailboxReads.RetryConflictsExactlyWhenTooLarge | chat_mailbox.py:252-317 | a retry claims nothing, answers with the members still in scope, and conflicts exactly when they are too large together |
| MailboxRetries.ClaimedPageFits | chat_mailbox.py:252-317 | a page that a read has just claimed fits as it stands |
| MailboxRetries.UneditedRetrySucceeds | chat_mailbox.py:252-317 | from a page that fits, after any run that edits none of its messages, asking for it again is answered and claims nothing |
| MailboxRetries.EditCanMakeARetryConflict | chat_mailbox.py:252-317 | one message posted, stored, read and then edited beyond the page size: the retry conflicts |
| MailboxRuns.CommandEvolves | chat_mailbox.py:320-361 | no command unreads, renumbers, un-excludes or re-validates a message, or changes a stored page |
| MailboxRuns.ExecuteKeepsInv | chat_mailbox.py:143-361 | any run of commands keeps the invariant and only evolves the ledger |
| MailboxRuns.ReadsAreExactlyOnce | chat_mailbox.py:252-317 | over whole runs each read message keeps its one page and its receipt for good |
| MailboxRuns.ChainAccounts | chat_mailbox.py:252-317 | the pages behind a page leave no authorised, valid message before it unread |
| MailboxRuns.SnapshotIsComplete | chat_mailbox.py:252-317 | once a batch has a last page nothing valid and authorised in its snapshot is unread, and it touched nothing beyond the snapshot |
| MailboxRuns.OpeningTakesTheWholeBacklog | chat_mailbox.py:252-317 | every message of the sender present at the first page is in the snapshot |
| MailboxWakes.ClaimReservesTheNewest | chat_mailbox.py:382-407 | a claim happens exactly when none is outstanding and an unread authorised message lies above the cutoff, and reserves up to the newest one |
| MailboxWakes.AdmissionIsJustified | chat_mailbox.py:410-435 | an admission consumes the reservation and is justified by a then unread authorised message inside it |
| MailboxWakes.WakeDiscipline | chat_mailbox.py:382-470 | no claim is admitted twice, admitted intervals lie strictly behind each other, and a chat is woken no more often than it got messages |
| MailboxWakes.AdmissionsAreCovered | chat_mailbox.py:382-470 | the admissions up to a bound are at most the messages stored up to it |
| MailboxWakes.SuppressSilences | chat_mailbox.py:447-463 | Stop silences every message stored so far and drops the reservation |
| MailboxWakes.StopSilencesStoredMail | chat_mailbox.py:447-463 | after Stop and any continuation no wake is claimed or admitted on account of a message stored before it |
| Mailbox.Tables.StoreMessage | chat_mailbox.py:143-188 | a new envelope appends one message, a replay changes nothing, and a conflict rolls everything back, as described |
| Mailbox.Tables.Page | chat_mailbox.py:220-236 | the accumulation loop computes the described page |
| Mailbox.Tables.Read | chat_mailbox.py:252-317 | batch choice, page and receipts leave exactly the described ledger, and a conflict rolls everything back |
| Mailbox.Tables.ExcludeWhere | chat_mailbox.py:349-361 | excluding by message, pair or session touches exactly the messages not yet excluded that match |
| Mailbox.Tables.CancelMessage | chat_mailbox.py:330-346 | only a pending, unread message is cancelled, and only its status changes |
| Mailbox.Tables.Claim | chat_mailbox.py:382-407 | the reservation row is written exactly when the described claim succeeds |
| Mailbox.Tables.Admit | chat_mailbox.py:410-435 | the reservation is consumed exactly when the described admission succeeds |
| Mailbox.Tables.Suppress | chat_mailbox.py:447-463 | the cutoff rises to the newest stored message and the reservation goes |
| ClaudeActorRuns.ReceivedFollows | claude_sdk_client.py:2570-2634 | one frame either extends what the run is owed by the reference, or ends the run with this frame as its last |
| ClaudeActorRuns.FirstAck | claude_sdk_client.py:540-560 | what a run owns is exactly what follows the first frame replaying its own correlation |
| ClaudeActorRuns.NothingOwnedBeforeAck | claude_sdk_client.py:540-560 | before that frame it owns nothing |
| ClaudeActorRuns.RunKeepsInv | claude_sdk_client.py:2693-2750 | every interleaving of submitted commands, read frames, lost connections and aborts keeps the actor's invariant |
| ClaudeActorRuns.FencedDelivery | claude_sdk_client.py:1157-1203 | the items of a finished run are the frames of one stretch of one connection, behind the acknowledgement and in order, then one terminal marker |
| ClaudeActorRuns.RunEndsWhenNothingIsOpen | claude_sdk_client.py:2593-2634 | a run that was given its end ended on the first Result that was forced or found every task settled; every earlier Result had a task open |
| ClaudeActorRuns.ActiveRunIsUpToDate | claude_sdk_client.py:1933-2117 | an active run is on the current connection and has been shown everything taken from it; with no active run the task ledger is empty |
| ClaudeActorRuns.ConnectionIsPinned | claude_sdk_client.py:1744-1803 | no event changes the connection of an active run or touches a finished one |
| ClaudeActor.Supervisor.StartRun | claude_sdk_client.py:1933-2117 | busy, connect failure, query failure and success each leave exactly the described actor and queues |
| ClaudeActor.Supervisor.InterruptRun | claude_sdk_client.py:2119-2158 | the interrupt, forced or not, leaves exactly the described actor |
| ClaudeActor.Supervisor.Receive | claude_sdk_client.py:2570-2634 | generation fence, acknowledgement, task ledger and Result handling leave exactly the described actor and queues |
| ClaudeActor.Supervisor.StopReceiver | claude_sdk_client.py:2660-2674 | a stale receiver changes nothing, a current one fails the active run |
| ClaudeActor.Supervisor.CloseActor | claude_sdk_client.py:2676-2691 | the active run fails and the connection goes |
| ClaudeActor.Supervisor.Consume | claude_sdk_client.py:2693-2750 | each command has exactly the described effect, and no other handle changes |
| CodexTurnRuns.RoutingKeepsIdentity | codex_app_server.py:1380-1486 | routing a notification never revives a finished id on a handle |
| CodexTurnRuns.RunKeepsInv | codex_app_server.py:1380-1486 | every ordering of answers, notifications, continuations and releases keeps the registry's invariant, and no handle is forgotten or changes its thread |
| CodexTurnRuns.TurnIdentity | codex_app_server.py:2551-2613 | a handle that is not completed carries none of its own finished ids, and a thread has at most one handle, its own |
| CodexTurnRuns.ContinuationIsAccountedFor | codex_app_server.py:397-489 | an acknowledged continuation leaves the handle at the accepted turn, or past it when that turn has finished |
| CodexTurnRuns.StaleReleaseKeepsSuccessor | codex_app_server.py:2642-2645 | releasing a superseded handle never removes its successor |
| CodexStarts.FreedStartsAreNeverAccepted | codex_app_server.py:2614-2640 | over every interleaving of callers, wire and provider, a start whose failure gave up its thread is one the provider has not accepted and never will |
| CodexStarts.FailedStart | codex_app_server.py:2614-2640 | a failed start gives up its thread and ends its subscription exactly when the error is safe, and then nothing was written or the server rejected it; otherwise handle and subscription stay as they were |
| CodexStarts.AcceptedStartKeepsItsThread | codex_app_server.py:2551-2645 | a handle whose start the provider accepted loses its thread only to a notification, a release, or the loss of the process |
| CodexTurns.TurnHandle.TakeStartAnswer | codex_app_server.py:2551-2613 | the answered id is adopted unless it has finished meanwhile |
| CodexTurns.TurnHandle.TakeContinuationAnswer | codex_app_server.py:397-489 | a continuation is adopted, or known to be over, exactly as described |
| CodexTurns.Registry.Provide | codex_app_server.py:2551-2613 | a handle is registered exactly for a free thread |
| CodexTurns.Registry.ReleaseTurn | codex_app_server.py:2642-2645 | release removes the handle only while it is the registered one |
| CodexTurns.Registry.StartFailed | codex_app_server.py:2614-2640 | a safe failure removes the registered handle and ends its subscription; any other leaves both |
| CodexTurns.Registry.RouteNotification | codex_app_server.py:1380-1486 | the handle of the thread, and no other, sees the notice |
| CodexDeliveryRuns.RunKeepsInv | codex_app_server.py:1130-1246 | every interleaving that keeps stdout keeps every request's flag honest |
| CodexDeliveryRuns.SafeMeansHarmless | codex_app_server.py:1055-1100 | a request whose error is marked safe to retry was never written, or the server rejected that very id |
| CodexDeliveryRuns.UnwrittenIsAlwaysSafe | codex_app_server.py:1130-1246 | and no needless caution: over every interleaving a request that failed without a byte of it written is reported as safe |
| CodexDeliveryRuns.ExposedBecomesDishonest | codex_app_server.py:1248-1275 | without stdout an exposed request has a continuation that raises a dishonest flag |
| CodexDeliveryRuns.StdoutReportIsHonestExactlyWhen | codex_app_server.py:1248-1275 | the report of a missing stdout is honest in every continuation exactly when no request is exposed |
| CodexDelivery.Pipe.WriteUnderLock | codex_app_server.py:1130-1246 | each outcome of guard, write and drain is classified as described, and bytes go out only under the lock |
| CodexDelivery.Pipe.MissDrain | codex_app_server.py:1102-1128 | a drain timeout is ambiguous, with or without discarding the process |
| CodexDelivery.Pipe.RetireProcess | codex_app_server.py:876-988 | every unanswered request gets the closed error, and the process goes |
| CodexDelivery.Pipe.ReadAnswer | codex_app_server.py:1276-1305 | an answer resolves or rejects the one request of its id, and is dropped when there is none |
| CodexDelivery.Pipe.ReadEnd | codex_app_server.py:1248-1275 | the end of the stream, and a stream that never was, fail the unanswered requests as described |
| SenderScan.Examine | agentsdock_team.py:256-359 | one page's loop yields exactly the matches among the entries it examined, stops at the limit or the budget, and moves the cursor to the last one examined |
| SenderScan.FollowPage | agentsdock_team.py:282-345 | one answer checked and examined: against an honest server it reaches the next point of the mailbox with exactly the matches up to it; it is not refused when each message left fits alone, and stops for size only before a match that does not fit |
| SenderScan.PageFollowed | agentsdock_team.py:290-345 | one request moves the scan by exactly the entries it examined, and something is left exactly when it says so |
| SenderScan.Scan | agentsdock_team.py:290-353 | against a served mailbox the requests end for the reason they give, no later than the messages allow, and with matches that fitted when the last was taken |
| SenderScan.ListBySender | agentsdock_team.py:256-359 | a successful call returns exactly the matching messages behind the start and up to its cursor, says whether anything is unexamined, advances when something is, and its stop reason is true; with time for one request and each message left fitting alone it fails exactly by a roll-over of the cursor, never while the sequence numbers left are equally long; when all of them fit together it is not cut short by size |
| SenderScan.RollOverFails | agentsdock_team.py:354-359 | a mailbox of two messages, the one match fitting alone, whose scan must fail |
| SenderScan.ExtendMatches | agentsdock_team.py:256-359 | moving the cursor over one message adds exactly that message when it matches |
| SenderScan.ExaminedSoFar | agentsdock_team.py:256-359 | what a prefix of an honest page means for the whole mailbox |
| SenderScan.JoinBetween | agentsdock_team.py:256-359 | the answers of two consecutive stretches join to the answer of both |
| SenderScan.ChainIsLossless | agentsdock_team.py:256-359 | chained calls neither lose nor repeat a match, are never more than the mailbox plus one, and a complete last call leaves nothing out |
| ProcessGuard.Expand | cursor_process_guard.py:97-118 | visiting one parent's children keeps the worklist explored and skips none below the cap |
| ProcessGuard.RecursiveDescendants | cursor_process_guard.py:97-118 | below the cap the result is exactly what the roots reach, without the roots or repetition, and it terminates on cyclic tables |
| ProcessGuardModel.ClosedHoldsReachable | cursor_process_guard.py:97-118 | a set closed under children that holds the roots holds everything reachable |
| ProcessGuardModel.Survivors | cursor_process_guard.py:121-132 | the survivors are exactly the identities that still run under the same start marker |
| ProcessGuardModel.NeverRebound | cursor_process_guard.py:151-198 | over all snapshots a captured pid keeps its start marker |
| ProcessGuardModel.CapturedTracesBack | cursor_process_guard.py:151-198 | every captured identity traces back to the child or its group |
| ProcessGuard.Guard.Discover | cursor_process_guard.py:151-198 | everything a snapshot discovers is attributable to the child, its group or what was captured |
| ProcessGuard.Guard.Track | cursor_process_guard.py:151-198 | tracking keeps every captured marker and adds only what is attributable |
| ProcessGuard.Guard.SignalIdentities | cursor_process_guard.py:135-148 | exactly the survivors, but for the guard and its parent, are signalled |
| ProcessGuard.Guard.Terminate | cursor_process_guard.py:201-277 | every individual signal is justified by a captured identity whose marker matched just then |
| ProcessGuard.Guard.SignalTracesBack | cursor_process_guard.py:201-277 | the identity behind a signal traces back to the child or its group |
| HistoryRepair.Note | claude_history_repair.py:1049-1090 | one row goes into exactly the tables it belongs to |
| HistoryRepair.Gather | claude_history_repair.py:1041-1093 | the loop's tables say exactly what the window says, and a window whose numbers do not rise is refused |
| HistoryRepairScan.Attribute | claude_history_repair.py:1132-1167 | a record is attributed to a scheduled run exactly when that run alone fits its prompt and moment |
| HistoryRepairScan.ReadRecord | claude_history_repair.py:1142-1171 | one transcript record goes into exactly the counts it belongs to |
| HistoryRepairScan.Scan | claude_history_repair.py:1141-1171 | the four counts of the transcript are exact |
| HistoryRepairScan.ClaimedOnce | claude_history_repair.py:1173-1178 | the count of an origin is one exactly when one candidate of the batch carries it |
| HistoryRepairScan.DecidedExactlyWhenProven | claude_history_repair.py:1172-1186 | the counts decide exactly whether one record is the only source of the input and lies inside the batch's stretch |
| HistoryRepairScan.DecideInput | claude_history_repair.py:1172-1186 | the decision for one candidate, as a statement about records instead of counts |
| HistoryRepairScan.OneOccurrenceOneInput | claude_history_repair.py:1172-1186 | inputs proven by the same scheduled run come from one record, and are one input unless two batches read that record |
| HistoryRepairDeliveries.ReadRecords | claude_history_repair.py:337-433 | the records by identity and by key are exact, and only wakes that exist are looked for |
| HistoryRepairDeliveries.CreditRuns | claude_history_repair.py:360-464 | every native run that was delivered or woken is credited each record that answers it, once, and no other |
| HistoryRepairDeliveries.TalliesDecide | claude_history_repair.py:390-399 | one match and one credit are counted exactly when one entry alone reads as the input and alone is given to its run |
| HistoryRepairDeliveries.DecidedExactlyWhenDelivered | claude_history_repair.py:390-399 | the three counts decide exactly whether one record answers one native run for the input while no other record or run does |
| HistoryRepairDeliveries.ProveCollected | claude_history_repair.py:356-473 | either collector proves exactly the inputs delivered so, or gives up over a transcript too large for it |
| HistoryRepairReplays.CollectVoices | claude_history_repair.py:229-259 | the native outputs by second and text and by message id are exactly those inside one completed run of their own provider session |
| HistoryRepairReplays.ReadOutputs | claude_history_repair.py:197-226 | the transcript by identity, message id, text and second is exact |
| HistoryRepairReplays.DecidedExactlyWhenReplayed | claude_history_repair.py:260-311 | the counts decide exactly whether one record and one native output, its owner by id or else alone in its second, stand behind the imported output |
| HistoryRepairReplays.ProveReplays | claude_history_repair.py:228-311 | exactly the imported outputs replayed so are proven |
| HistoryRepairBatches.ProvenNumbersCount | claude_history_repair.py:1190-1194 | counting proven inputs and outputs counts rows, each once |
| HistoryRepairBatches.CountedExactlyWhenWhole | claude_history_repair.py:1195-1197 | a batch has two rows more than are proven of it exactly when nothing but its two ends is unproven |
| HistoryRepairProof.EligibleBatches | claude_history_repair.py:1096-1111 | the eligible batches are exactly those with one checkpoint before one finish |
| HistoryRepairProof.ProveInputs | claude_history_repair.py:1172-1186 | the loop proves exactly the scheduled and metadata inputs |
| HistoryRepairProof.MarkBatches | claude_history_repair.py:1190-1199 | companions are exactly the two ends of the batches that are wholly proven |
| HistoryRepairProof.ProveRecent | claude_history_repair.py:1017-1201 | the proof holds exactly the provable inputs and outputs and marks exactly the whole batches |
| HistoryRepairProof.MarkedBatchIsNeutral | claude_history_repair.py:1223-1247 | once an end is marked, every row of the batch in the window is neutralised, save exactly a closing row of another provider session |
| HistoryRepairCache.Sorted | claude_history_repair.py:1391-1394 | the list holds every entry once, highest numbers first |
| HistoryRepairCache.PrefixIsTop | claude_history_repair.py:1395-1398 | a prefix of that list is the highest-numbered part |
| HistoryRepairCache.Merge | claude_history_repair.py:1388-1406 | the merge keeps the highest-numbered repairs within the budget, and the highest-numbered marks of batches that lost nothing |
| HistoryRepairCache.NoPartialBatch | claude_history_repair.py:1395-1403 | at most the budget is kept, and a mark is kept only beside every repair of its batch |
| HistoryRepairRuns.Session.Prepare | claude_history_repair.py:1326-1417 | one request reuses, replaces, merges or drops the proof exactly as described, and a change is reported exactly when what is hidden or marked changed |
| HistoryRepairRuns.EveryRunIsAccounted | claude_history_repair.py:1376-1406 | over any run of requests every cached repair and mark was proven over the same, only grown, files, and no mark outlives a repair of its batch |
| HistoryRepairRuns.RefreshedBatchStaysNeutral | claude_history_repair.py:1388-1403 | a batch marked by an earlier proof stays neutral row by row in the cached proof |
| HistoryRepairPairs.KeptExactlyWhen | claude_history_repair.py:1397-1398 | a mark is kept exactly when fewer marks than the cap lie above it |
| HistoryRepairPairs.MarksComeInPairs | claude_history_repair.py:1195-1199 | a proof over a stretch of the log marks both ends of a batch, the beginning before the end |
| HistoryRepairPairs.LatestPairIsComplete | claude_history_repair.py:1397-1398 | both marks of a batch that was just proven and loses no repair are up for the cap |
| HistoryRepairPairs.RefreshPartsExactlyWhen | claude_history_repair.py:1388-1406 | after any run of requests over one log, a refresh parts the two marks of a batch exactly when the cap falls between them, and then loses the beginning |
| HistoryRepairPairs.FewMarksStayTogether | claude_history_repair.py:1397-1398 | while the marks of the batches that lost nothing are within the cap, all of them are kept |
| HistoryRepairParted.ARefreshCanPartAPair | claude_history_repair.py:1388-1406 | two requests, each proven over a window of one log, after which every repair is kept and one batch has only its end marked |
| LineageModel.Normalize | claude_history_provenance.py:34-44 | a stored context is read back as empty or fully valid |
| Lineage.Tracker.Consume | claude_history_provenance.py:54-120 | one event moves the context and reports an origin exactly as described, branch by branch |
| Lineage.ConsumedIsWellFormed | claude_history_provenance.py:54-120 | the context stays empty or fully valid |
| Lineage.ConsumedInParts | claude_history_provenance.py:54-120 | consuming a transcript in two parts gives the same origins and context |
| Lineage.StoredContextComesBack | claude_history_provenance.py:34-52 | an exported context is read back unchanged exactly when it is empty or its provider session agrees |
| Lineage.ResumingChangesNothing | claude_history_provenance.py:47-120 | for every split, a tracker resumed from the exported context continues as one tracker would |
| Lineage.LineageIsAChain | claude_history_provenance.py:54-120 | a context reached from nothing names the last real prompt of an unbroken chain of parent links, with no linked record outside the chain behind it |
| Lineage.ChainIsTheLineage | claude_history_provenance.py:54-120 | and conversely every such chain, with no linked record between its members, is what the context names |
| Lineage.InterruptionBelongsToAPrompt | claude_history_provenance.py:54-120 | an interruption that is not flagged as metadata is reported only at the end of such a chain and for its prompt |
| Lineage.InterruptionReportedExactlyWhen | claude_history_provenance.py:54-120 | such an interruption is reported exactly when a live chain ends at its parent |

## Left out

- Real file access: permissions, owners, link counts checked against concurrent tampering, hashing and JSON. Inodes
  and digests are abstract, and a replacement through a temporary name is one durable step.
- `begin` creating its directory and copying the snapshot, `finish`, and the removal of parked directories: the
  transaction starts with its manifest published and is followed up to `committed` or `rollback-healthy`.
- The hub and guard metadata in `record`, and the schema of the manifest: long, flat checks.
- Mailbox SQL, JSON projections beyond a message size, user delegation fields, deletion of envelopes, `list_senders`,
  `list_messages` and the publication of read events. Messages change size only through an explicit edit command.
- Validated slash commands, the side question, MCP controls, context usage and server information of the Claude
  client, the timing of acknowledgement timeouts, and receipts of background tasks.
- Pin counting of the Claude supervisor manager: runs and usage queries unpin without an owner check.
- Codex notification queues, watermarks, configuration and policy reads, and text redaction.
- The HTTP and JSON handling of the sender scan: the server is a function of request number and cursor, the clock one
  of the request number, and an entry carries its JSON size. Names enter only through equality.
- Reading and parsing the process table, and the waiting between its snapshots.
- Text normalisation, time parsing and wrapper expressions of history repair: keys, identities, times, flags and what a
  wrapper or a receipt carries are given. An identity is given as present or not, so the 256-character limit that only
  the collectors put on its parts is not seen, and full texts are taken to be available.
- HistoryRepairReplays.ReadOutputs: looks at the size of its tables after every record, where the program waits for
  the next one with a text; a transcript that passes the limit only with side-chain records is refused earlier.
- The byte window and line limits of history repair, and the proof over a whole event file; a proof of the latter kind
  enters the cache lemmas as any proof.
- The number of sessions the repair cache holds.
- HistoryRepairPairs.RefreshPartsExactlyWhen: speaks of proofs read from one append-only log with rising numbers, and
  of batches that lose no repair; a batch that loses one loses both marks.
- SenderScan.ListBySender: is stated against a mailbox that does not change between the pages, and what it says of
  success and failure against pages that carry the same metadata.
