# MaterialsAgent: a verified model of its protocols

This project models the parts of MaterialsAgent that must hold under every split of the input, every
interleaving and every crash, and proves that they do, or exactly when they do.

| file | models |
|---|---|
| `Redaction.dfy`, `RedactionScan.dfy`, `PublicText.dfy`, `PublicTextLimits.dfy` | `protect_text`, the streaming guard that emits model output while withholding what may become a private value, and where exactly the two part |
| `AgentStore.dfy`, `AgentDispatch.dfy`, `AgentScheduler.dfy` | the persisted run document, the dispatch fence before every tool call, the model-call and token ledger, and the in-process scheduler |
| `ReceiptStore.dfy`, `RuntimeLock.dfy` | the crash-safe TC4 receipts, and the execution lock with the shutdown of the inference runtime |
| `UploadCleanup.dfy` | uploads, conversation deletion and the durable clean-up of stored objects |
| `ResultCommit.dfy` | the transaction that commits a tool result, retried after lost acknowledgements |
| `ProcessChannel.dfy`, `ProcessStreams.dfy` | the revisioned process channel, its event stream and the browser's merge |
| `Selection.dfy`, `ResourceContext.dfy`, `Paging.dfy` | fair selection, the trimmed resource context, keyset paging with base64url cursors |

Protocols with several participants are state machines: a value for the whole system, an `Event` for each
region between two awaits, transactions, storage calls or lock operations, a `Step` function and an invariant
that every step keeps; the theorems speak of `After(start, events)` for all event sequences, crashes
included. Objects that the source updates in place are classes whose methods are proved against
specification functions.

`dafny verify dfyconfig.toml` checks everything.

## What does not hold as promised

- **Chunk-insensitivity.** With long values only, every stream of every message ends in `protect_text` of the
  whole input if and only if no value lies inside another without reaching its end, and none runs on into another
  that is at least as long (`LongValuesExactly`). Under that condition, and with any short values, all chunkings
  of one input end alike (`ChunkingsAgree`): the final state is that of the whole input given at once
  (`StreamSettles`). With short values it meets `protect_text` if and only if the input is `Harmless`
  (`ChunkInsensitiveExactly`); any short value after a space is not. What the guard is for holds for every set
  of values that shares no character with the marker: no long value is ever emitted, and the final text is never a
  short value dressed in whitespace.
- **The token cap.** The check before a model call protects the cap exactly when no earlier call is
  unfinished. A run cancelled between reserving and calling is interrupted with its reservation unsettled;
  resumed, it may reserve everything again, and stopping charges both (`CapCanBeExceeded`).
- **Retrying after a result.** The result stores its output lists in requested order, the run stores them as
  they came. A retry requires both to read the same, so it is possible exactly when the output listed its names in
  requested order. The one list that reaches the service in another order is the failed list of a tool whose two
  outputs both failed; such a result commits, and its task cannot be retried (`ReversedFailureBlocksRetry`).
- **Tracked uploads.** A storage request may outlive its call and land after its conversation was deleted.
  Everything stays tracked if and only if it lands before the clean-up of its object is decided: not once the
  clean-up is completed, nor while a drainer that found nothing is about to complete it (`InTimeExactly`).
  `LatePutHappens` lists the steps to an object that is orphaned for ever.
- **The process stream.** If a channel without listeners is evicted and loaded again under a running
  connection, the server goes on sending changes while the browser starts over: it then shows the server's
  segments if and only if all of them changed, and none at all if nothing did (`NewEpoch`, `ReloadedUnchanged`).
  Within one epoch the browser always shows what the server shows (`Relay`).
- **Shutdown.** A receipt clean-up does not look at `closed` and may run after the engines were closed.

## Model

| member | source | states |
|---|---|---|
| Redaction.ProtectRemoves | backend/src/materialsagent/application/context_framework.py:52-65 | after one pass, in any order of the values, no private value of twelve or more characters occurs, although replacing one value may bring the remains of others together |
| Redaction.ProtectAddsNothing | backend/src/materialsagent/application/context_framework.py:57-64 | a pass never creates an occurrence of a value that was absent |
| Redaction.ProtectClean | backend/src/materialsagent/application/context_framework.py:57-64 | on text without long values a pass hides the whole text or nothing |
| RedactionScan.ScanIsProtect | backend/src/materialsagent/application/context_framework.py:57-64 | for values that do not collide, the end of one being another value or the start of one at most as long allowed, replacing them one after the other, longest first, is one left-to-right scan for all of them |
| RedactionScan.ScanOrder | backend/src/materialsagent/application/context_framework.py:58 | the result does not depend on how values of equal length are sorted |
| RedactionScan.ScanPrefixStable | backend/src/materialsagent/application/agent_process.py:23-25 | text may be scanned early and again together with what follows |
| PublicTexts.SortedByLength | backend/src/materialsagent/application/context_framework.py:58 | lists every value once, longest first |
| PublicTexts.Protect | backend/src/materialsagent/application/context_framework.py:57-65 | the loop computes the specified pass over an enumeration of the values |
| PublicTexts.HeldSize | backend/src/materialsagent/application/agent_process.py:28-33 | the two loops find a suffix that starts a long value, and none that is longer does |
| PublicTexts.PublicText.constructor | backend/src/materialsagent/application/agent_process.py:16-21 | long and short values partition the private ones, nothing is held or emitted |
| PublicTexts.PublicText.Push | backend/src/materialsagent/application/agent_process.py:23-37 | the state after a push, and that the delta is what the text grew by |
| PublicTexts.PublicText.Finish | backend/src/materialsagent/application/agent_process.py:39-47 | the returned text, and that nothing stays held |
| PublicTexts.Redact | backend/src/materialsagent/application/agent_process.py:14-47 | over a whole message, however chunked: no long value in the text, never a short value in whitespace, `protect_text` of the joined input where that is promised, and otherwise, for long values that do not interfere, a text that the joined input alone decides |
| PublicTexts.StreamGuarded | backend/src/materialsagent/application/agent_process.py:23-37 | after every push, for any values and chunks, text and held part contain no long value, and none that has started can start before the held part |
| PublicTexts.CompletedInsidePending | backend/src/materialsagent/application/agent_process.py:28-37 | every occurrence that later input completes starts inside the held part |
| PublicTexts.FinishedHidesLong | backend/src/materialsagent/application/agent_process.py:39-47 | the finished text contains no private value of twelve or more characters |
| PublicTexts.CutOffHidesStarts | backend/src/materialsagent/application/agent_process.py:41-42 | a cut-off text does not even end in the start of a long value, unless everything is held back as the possible start of a short one |
| PublicTexts.ChunkInsensitive | backend/src/materialsagent/application/agent_process.py:23-47 | for long values that do not interfere, every chunking ends in `protect_text` of the whole input |
| PublicTexts.StreamSettles | backend/src/materialsagent/application/agent_process.py:23-37 | for long values that do not interfere and any short ones, text and held part are at any time those of a guard that got the whole input, scanned once, in one piece |
| PublicTexts.FinishedIsCompleted | backend/src/materialsagent/application/agent_process.py:39-47 | so the finished text, cut off or not, is a function of the whole input |
| PublicTexts.ChunkingsAgree | backend/src/materialsagent/application/agent_process.py:23-47 | any two chunkings of one input finish alike, however equally long values are sorted in either |
| PublicTextLimits.ChunkInsensitiveExactly | backend/src/materialsagent/application/agent_process.py:26-27 | with short values as well, a stream meets `protect_text` if and only if its input satisfies the stated condition |
| PublicTextLimits.LongValuesExactly | backend/src/materialsagent/application/agent_process.py:23-37 | with long values only, all streams meet `protect_text` if and only if no two of the values interfere |
| PublicTexts.FinishedHidesShort | backend/src/materialsagent/application/agent_process.py:43-44 | the finished text without outer whitespace is never a short private value |
| PublicTextLimits.ShortValueBreaksChunking | backend/src/materialsagent/application/agent_process.py:43-44 | any short value after a space is hidden by the stream and left by `protect_text` |
| AgentStores.ChargeSettles | backend/src/materialsagent/infrastructure/db/agent.py:496-504 | charging unfinished calls moves exactly the outstanding reservations to the settled usage and leaves none outstanding |
| AgentStores.ReceiptKeepsFence | backend/src/materialsagent/infrastructure/db/agent.py:642-667 | a receipt turns the dispatched record into an execution without losing or adding a fenced call |
| AgentStores.TransactionsKeep | backend/src/materialsagent/infrastructure/db/agent.py:458-686 | no transaction of the store crosses, loses or miscounts a fence; each that changes anything takes the next version; the cap survives |
| AgentStores.RecoveryExactly | backend/src/materialsagent/infrastructure/db/agent.py:481-513 | exactly the runs that were PENDING or RUNNING are interrupted and unclaimed; each unfinished call is charged all it reserved and nothing stays outstanding; a dispatched call becomes OUTCOME_UNKNOWN |
| AgentStores.StopExactly | backend/src/materialsagent/infrastructure/db/agent.py:570-597 | exactly the runs of this submission that are not waiting or finished end as stopped, with the same charge, keeping a dispatched call for its receipt |
| AgentStores.ResumeExactly | backend/src/materialsagent/infrastructure/db/agent.py:120-144 | which interrupted runs become PENDING: a dispatched call must be a TC4 batch, otherwise budget must be left |
| AgentStores.ResumedOnce | backend/src/materialsagent/infrastructure/db/agent.py:130-132 | repeating a request to resume changes nothing |
| AgentStores.MarkExactly | backend/src/materialsagent/infrastructure/db/agent.py:617-639 | which runs an unknown outcome interrupts, which it only notes, and that it leaves all others alone |
| AgentStores.ReceiptNeedsOwner | backend/src/materialsagent/infrastructure/db/agent.py:650-661 | a receipt is taken if and only if its call is dispatched, unobserved, the same in id, invocation and arguments, and under way or stopped |
| AgentStores.ReceiptExactly | backend/src/materialsagent/infrastructure/db/agent.py:662-677 | the record moves to the executions with its observation; a run interrupted for this outcome can then be resumed |
| AgentStores.AnswerExactly | backend/src/materialsagent/infrastructure/db/agent.py:299-307 | an answer is taken only for the question that is waiting, and starts a new submission |
| AgentStores.DecisionExactly | backend/src/materialsagent/infrastructure/db/agent.py:146-170 | a decision is taken once, for the call the run is waiting with, and kept for the next worker |
| AgentStores.SavedExactly | backend/src/materialsagent/domain/models/agent.py:285-298 | a save is admitted only over its version and claim, revives no finished run, lowers nothing that was used and moves no limit; for a running run of the claimant that suffices |
| AgentStores.SQLAlchemyAgentStore.Save | backend/src/materialsagent/infrastructure/db/agent.py:379-455 | compare-and-set in at most three attempts under one operation identity, with any transactions and saves of others in between: the document is written at most once, over a row that admits it; a success means that it was and stands; a conflict, that the row has moved on, perhaps after it was written |
| AgentStores.SQLAlchemyAgentStore.RecoverInterrupted | backend/src/materialsagent/infrastructure/db/agent.py:458-518 | recovery is the transaction that `RecoveryExactly` describes |
| AgentStores.SQLAlchemyAgentStore.StopRun | backend/src/materialsagent/infrastructure/db/agent.py:570-597 | stopping is the transaction that `StopExactly` describes, and says whether the run is stopped |
| AgentStores.SQLAlchemyAgentStore.ReceiveReceipt | backend/src/materialsagent/infrastructure/db/agent.py:599-686 | with others in between: the receipt moves the record at most once, and once it has, a reply is a success even if the acknowledgement was lost; a success means that the invocation is observed |
| AgentStores.ChargeCalls | backend/src/materialsagent/infrastructure/db/agent.py:496-504 | the charging loop computes the charged calls and adds their reservations to the tokens |
| AgentDispatch.DispatchAtMostOnce | backend/src/materialsagent/application/agent_runtime.py:530-612 | over every interleaving of workers, saves, crashes, recovery, resume and receipts, no tool call but a TC4 batch is executed twice, only persisted fences are executed, and the execution counter is their number and within budget |
| AgentDispatch.FenceBeforeExecute | backend/src/materialsagent/application/agent_runtime.py:555-559 | what a step hands to the gateway was fenced in the store before that step |
| AgentDispatch.ApprovedBeforeExecute | backend/src/materialsagent/application/agent_runtime.py:717-743 | over every interleaving, no call that needs the user's approval is dispatched or handed to the gateway without it: the store held the approval before |
| AgentDispatch.OnlyUsersApprove | backend/src/materialsagent/infrastructure/db/agent.py:146-170 | approvals come only from the user, for the guarded call, asked about and not yet decided, with which the stored run is waiting |
| AgentDispatch.ApprovalLeadsOn | backend/src/materialsagent/application/agent_runtime.py:717-743 | undisturbed, a guarded call is put to the user and his approval reaches the next worker |
| AgentDispatch.QuestionIsAnswered | backend/src/materialsagent/application/agent_runtime.py:650-680 | undisturbed, a question is stored and its answer makes the run PENDING |
| AgentDispatch.StartNeeds | backend/src/materialsagent/application/agent_runtime.py:261-308 | a worker takes up only a waiting run, and with a recorded decision only if it is about the pending call and question |
| AgentDispatch.RunMovesOn | backend/src/materialsagent/domain/models/agent.py:285-298 | over every run and step the version grows with each change, nothing used is given back, limits stay, and the status follows the life of a run |
| AgentDispatch.TerminalIsFinal | backend/src/materialsagent/infrastructure/db/agent.py:600-686 | a finished run stays as it is; only a stopped one takes the receipt or the mark of a dispatched call |
| AgentDispatch.OnlyClaimantSaves | backend/src/materialsagent/infrastructure/db/agent.py:424-438 | a running run is written only by the worker that holds its claim, at its version |
| AgentDispatch.FailureEndsRun | backend/src/materialsagent/application/agent_runtime.py:808-856 | a failing worker leaves the run interrupted if it may recover, terminated otherwise |
| AgentDispatch.LedgerHolds | backend/src/materialsagent/application/agent_runtime.py:369-402 | the charged tokens are the settled usage, calls stay within their number, and a reservation fits into the tokens that are left and into the request's own window, and leaves room for an answer |
| AgentDispatch.SettledOnce | backend/src/materialsagent/application/agent_runtime.py:429-498 | a settled call is never changed or dropped by any step, so it is charged once |
| AgentDispatch.CapHolds | backend/src/materialsagent/application/agent_runtime.py:388-412 | while reservations are made one at a time and usage stays within them, the token cap is never exceeded |
| AgentDispatch.CheckSufficesExactly | backend/src/materialsagent/application/agent_runtime.py:369-400 | whatever the estimate, the budget check protects the cap against every request if and only if nothing is outstanding |
| AgentDispatch.CapCanBeExceeded | backend/src/materialsagent/application/agent_runtime.py:388-415 | for any estimate that leaves room for an answer, a run of events after which twice the token cap has been charged |
| AgentScheduler.AtMostOneWorker | backend/src/materialsagent/application/agent_runtime.py:80-87 | a run never has two unfinished workers |
| AgentScheduler.NoLostWakeup | backend/src/materialsagent/application/agent_runtime.py:88-116 | when every worker of a run has ended and none raised, a run whose current PENDING state was passed to `schedule` is not PENDING any more |
| AgentScheduler.IdleWorkerEnds | backend/src/materialsagent/application/agent_runtime.py:92-104 | an undisturbed worker of a run that is not PENDING ends within seven steps |
| AgentScheduler.NoFlagLeftBehind | backend/src/materialsagent/application/agent_runtime.py:80-116 | a flag to go round again never outlives the worker it is for |
| AgentScheduler.Scheduler.Schedule | backend/src/materialsagent/application/agent_runtime.py:80-117 | one call flags the busy worker or registers a new one, as the machine's step does |
| AgentScheduler.Scheduler.ResumeAfterFirstRead | backend/src/materialsagent/application/agent_runtime.py:97-100 | a worker ends, reads again or goes round, as the machine's step does |
| ReceiptStores.StatusOnlyAdvances | zta35g-runtime/src/materialsagent_zta35g_runtime/tc4.py:136-180 | between any two moments of any history the recorded request is the same, a finished receipt stays or is deleted, a deleted one stays |
| ReceiptStores.ImagesNeverChange | zta35g-runtime/src/materialsagent_zta35g_runtime/tc4.py:143-180 | once a receipt is finished, an image is the same for as long as it exists |
| ReceiptStores.UnlockedReadAgrees | zta35g-runtime/src/materialsagent_zta35g_runtime/tc4.py:219-246 | an image read without the lock, whatever ran since its SUCCEEDED receipt was read, has the recorded digest and size |
| ReceiptStores.DeletedForGood | zta35g-runtime/src/materialsagent_zta35g_runtime/tc4.py:143-156 | a deleted and emptied identity never gets a file or another receipt |
| ReceiptStores.ReceiptStore.Replace | zta35g-runtime/src/materialsagent_zta35g_runtime/tc4.py:127-134 | one atomic replace extends the history by one legal step or changes nothing |
| ReceiptStores.ReceiptStore.StoreImages | zta35g-runtime/src/materialsagent_zta35g_runtime/tc4.py:170-174 | both images reach the disk while the receipt still says OUTCOME_UNKNOWN, or the fault is known |
| ReceiptStores.ReceiptStore.Execute | zta35g-runtime/src/materialsagent_zta35g_runtime/tc4.py:158-180 | a known identity is answered or refused from its receipt; a new one runs the engine at most once, and what is left on disk is described for every fault and crash |
| ReceiptStores.ReceiptStore.Cleanup | zta35g-runtime/src/materialsagent_zta35g_runtime/tc4.py:143-156 | refused exactly for another request or an unknown outcome; a reply means the tombstone is written and no image is left; no image goes before the tombstone |
| ReceiptStores.ReceiptStore.Serve | zta35g-runtime/src/materialsagent_zta35g_runtime/tc4.py:116-180 | over any requests and faults the engine runs at most once for each identity, no status is taken back, and deleted identities stay deleted |
| RuntimeLocks.WorkIsExclusive | zta35g-runtime/src/materialsagent_zta35g_runtime/app.py:439-526 | for any number of threads, inference of three tools, receipt clean-ups and engine closes never overlap |
| RuntimeLocks.ClosesOnceAndForGood | zta35g-runtime/src/materialsagent_zta35g_runtime/app.py:591-669 | no engine is closed twice, load failure included, and after a closer's first close no inference starts |
| RuntimeLocks.CloseMarksExactly | zta35g-runtime/src/materialsagent_zta35g_runtime/app.py:656-666 | which engines one close reaches, for every combination of loaded and raising ones, each once and in order |
| RuntimeLocks.CleanupIgnoresShutdown | zta35g-runtime/src/materialsagent_zta35g_runtime/tc4.py:249-269 | with the lock free, a receipt clean-up always gets to work, an inference exactly while the runtime is open |
| RuntimeLocks.RuntimeServer.constructor | zta35g-runtime/src/materialsagent_zta35g_runtime/app.py:571-604 | the server starts where the machine does, a main engine that does not load being closed at once and recorded as closed |
| RuntimeLocks.RuntimeServer.Execute | zta35g-runtime/src/materialsagent_zta35g_runtime/app.py:385-526 | a handler's code, with other threads running before each of its steps, follows the machine, so its log has all that is proved of every run; the work it starts it ends, once; each refusal has its reason, a busy one another thread that held the lock during the call |
| RuntimeLocks.RuntimeServer.Sweep | zta35g-runtime/src/materialsagent_zta35g_runtime/tc4.py:249-269 | the same for a receipt clean-up, which is never refused because the runtime is closed |
| RuntimeLocks.RuntimeServer.Shutdown | zta35g-runtime/src/materialsagent_zta35g_runtime/app.py:636-669 | the closer's code, with other threads and closers in between, follows the machine: either it waits for a lock that is held, or the runtime was closed before, or its own closes stand together in the log, for every combination of loaded engines and raising closes, and the socket is closed |
| UploadCleanups.UploadGuard.Enter | backend/src/materialsagent/application/ebsd_assets.py:28-32 | one more upload of the conversation is running |
| UploadCleanups.UploadGuard.Exit | backend/src/materialsagent/application/ebsd_assets.py:34-40 | one less, and the entry is gone with the last |
| UploadCleanups.UploadGuard.InProgress | backend/src/materialsagent/application/ebsd_assets.py:23-25 | true exactly while an upload of the conversation is running |
| UploadCleanups.EveryObjectIsTracked | backend/src/materialsagent/application/conversation_cleanup.py:114-194 | in every reachable state every stored object is named, with its digest, by an asset row or an uncompleted clean-up, and every available asset has its object, puts that land after the deletion included as long as the clean-up is undecided |
| UploadCleanups.InTimeExactly | backend/src/materialsagent/application/conversation_cleanup.py:246-331 | a put on its way may land if and only if whatever then happens in time leaves everything tracked |
| UploadCleanups.CompletedMeansGone | backend/src/materialsagent/application/conversation_cleanup.py:246-331 | a completed clean-up stays completed and its object stays absent in every later state |
| UploadCleanups.UploadTakesEffect | backend/src/materialsagent/application/ebsd_assets.py:48-135 | an undisturbed upload ends with an available row, its object stored and its activity over |
| UploadCleanups.DeletionCleansUp | backend/src/materialsagent/application/conversation_cleanup.py:114-331 | deleting an idle conversation turns every row into a clean-up, and draining one removes its object and completes it |
| UploadCleanups.MatchingIsSure | backend/src/materialsagent/application/conversation_cleanup.py:273-294 | an uploaded object that can be read always matches its clean-up, so it is never blocked for safety |
| UploadCleanups.BlockedForCause | backend/src/materialsagent/application/conversation_cleanup.py:257-294 | over every run, a clean-up is blocked for safety only if its object was found unreadable or another's |
| UploadCleanups.BlockedIsUnreadable | backend/src/materialsagent/application/conversation_cleanup.py:257-294 | with puts in time, only if it was found unreadable |
| UploadCleanups.ForeignObjectStays | backend/src/materialsagent/application/conversation_cleanup.py:273-294 | an object that is unreadable or another's is not removed, and its clean-up is blocked |
| UploadCleanups.OutageIsRetried | backend/src/materialsagent/application/conversation_cleanup.py:262-331 | an outage, a refused removal and a lost answer leave the clean-up pending, and the next drain completes it |
| UploadCleanups.DeleteWaitsForUploads | backend/src/materialsagent/application/conversation_cleanup.py:114-160 | a delete begins only with the fence as it was left and no upload of the conversation running |
| UploadCleanups.ClosedTakesNothing | backend/src/materialsagent/application/ebsd_assets.py:48-135 | while a conversation is fenced or gone no row is added to it or made available |
| UploadCleanups.ReconcileAdopts | backend/src/materialsagent/application/ebsd_assets.py:146-175 | an upload whose end was lost is made available exactly if its object is there and matches |
| UploadCleanups.LatePutEscapes | backend/src/materialsagent/application/ebsd_assets.py:109-115 | a put that arrives after its clean-up completed leaves an object that no later step ever tracks or removes |
| UploadCleanups.LatePutHappens | backend/src/materialsagent/application/ebsd_assets.py:109-115 | the steps, for any asset, that lead there |
| ResultCommits.CommitKeeps | backend/src/materialsagent/application/result_service.py:208-275 | a commit keeps at most one result for each run, every result whole with its links and its run, and every selection an existing result |
| ResultCommits.CommitIsOutcome | backend/src/materialsagent/application/result_service.py:661-811 | after a commit the task selects the result; it has exactly the images of the receipt in their order, its status and error say what the outputs say, and the run carries the output lists as received |
| ResultCommits.CommitHasItsImages | backend/src/materialsagent/application/result_service.py:717-731 | a promised picture is linked, once, and none that was not promised |
| ResultCommits.OnlyNewerAttemptReplaces | backend/src/materialsagent/application/result_service.py:454-528 | a shown result is replaced only by a retry that is the newest attempt and the only one under way, and is kept |
| ResultCommits.OutcomeStays | backend/src/materialsagent/application/result_service.py:531-569 | no other commit can touch a committed outcome |
| ResultCommits.RecoveredIsOutcome | backend/src/materialsagent/application/result_service.py:296-349 | what recovery compares suffices to know that the whole commit took effect |
| ResultCommits.RetryCanReadExactly | backend/src/materialsagent/application/result_service.py:499-528 | a later retry can read the selection if and only if the output listed its completed and its failed names in requested order |
| ResultCommits.OnlyReversedFailuresBlock | backend/src/materialsagent/infrastructure/tool_clients/local_zta35g.py:412-431 | of the outputs that the tool clients let through, exactly those block a retry whose two outputs both failed and came in reversed order |
| ResultCommits.ReversedFailureBlocksRetry | backend/src/materialsagent/domain/models/tool_result.py:164-176 | such an output commits its FAILED result, and its task can then not be retried |
| ResultCommits.ResultService.Write | backend/src/materialsagent/application/result_service.py:252-264 | one commit is one step of the history, all or nothing |
| ResultCommits.ResultService.Recover | backend/src/materialsagent/application/result_service.py:296-349 | a returned result is the outcome of this commit, prepared on an earlier state; a conflict means that something else stands there; a failure, that nothing could be read or nothing is there |
| ResultCommits.ResultService.Finish | backend/src/materialsagent/application/result_service.py:252-294 | writing and reading back: a reply means the outcome stands, and the state for each ending of the commit |
| ResultCommits.ResultService.CommitOnce | backend/src/materialsagent/application/result_service.py:208-294 | one attempt, with other commits in between: a reply means the outcome stands; alone, it wrote everything or nothing |
| ResultCommits.ResultService.CommitResult | backend/src/materialsagent/application/result_service.py:188-206 | at most three attempts under one id and time; a reply means the outcome stands; alone, everything or nothing was written; a commit that takes effect after undone ones is reported |
| ProcessChannels.PutKeeps | backend/src/materialsagent/application/agent_process.py:96-99 | a change keeps sequences 0..n-1, distinct ids and revisions, and only moves segments forward |
| ProcessChannels.FinishedAll | backend/src/materialsagent/application/agent_process.py:115-126 | finishing keeps the shape, leaves nothing streaming or pending, and changes nothing when repeated |
| ProcessChannels.FinishedSettles | backend/src/materialsagent/application/agent_process.py:115-126 | what finishing does to each segment: streaming ends, undecided ones belong to the answer exactly if there is one, the rest stays |
| ProcessChannels.Channel.Upsert | backend/src/materialsagent/application/agent_process.py:85-102 | an older state, the same value and one that would reopen a settled text change nothing; otherwise the segment shows exactly the value under the next revision, in its old place or at the end, and all others stay |
| ProcessChannels.Channel.Save | backend/src/materialsagent/application/agent_process.py:104-110 | the row only takes a higher revision; a completed save means the row equals memory |
| ProcessChannels.Channel.Finish | backend/src/materialsagent/application/agent_process.py:112-128 | the loop computes the specified closing, and a successful save stores it |
| ProcessChannels.Channel.EvictAndReload | backend/src/materialsagent/application/agent_process.py:157-165 | dropping and loading a saved, settled channel restores revision and segments under a new epoch |
| ProcessChannels.Channel.Load | backend/src/materialsagent/application/agent_process.py:72-78 | a new process continues from the stored document |
| ProcessStreams.NeverReopens | backend/src/materialsagent/application/agent_process.py:93-95 | over all a channel shows, a settled text or reasoning segment never streams again |
| ProcessStreams.PastIsCoherent | backend/src/materialsagent/application/agent_process.py:96-98 | over all a channel shows, id and revision fix position and content, and a higher revision is a later one |
| ProcessStreams.MergedIsBest | frontend/src/composables/useProcessStreams.ts:22-25 | for every id the merge keeps a segment it has seen with the highest revision it has seen |
| ProcessStreams.OrderDoesNotMatter | frontend/src/composables/useProcessStreams.ts:21-25 | where id and revision fix the content, neither order nor repetition of segments matters |
| ProcessStreams.AnyOrderWithinEpoch | frontend/src/composables/useProcessStreams.ts:15-30 | whatever one epoch of a channel has shown may arrive in any order and repeatedly |
| ProcessStreams.CatchesUp | frontend/src/composables/useProcessStreams.ts:15-30 | a client that has received every current segment, and otherwise anything of this epoch, knows exactly the server's segments |
| ProcessStreams.SortedIsServerOrder | frontend/src/composables/useProcessStreams.ts:26 | sorted by sequence, they are in the server's order |
| ProcessStreams.ChangesSuffice | backend/src/materialsagent/api/routes/agent_runs.py:246-252 | sending only what changed brings the client to the new snapshot, and no change means the same snapshot |
| ProcessStreams.Listener.Next | backend/src/materialsagent/api/routes/agent_runs.py:244-253 | when a message is sent, whether whole or changes only, and that the listener then knows what was sent |
| ProcessStreams.Browser.Receive | frontend/src/composables/useProcessStreams.ts:15-30 | the view starts over for a snapshot or another epoch and is merged otherwise, and the list shows it in order |
| ProcessStreams.SortedBySequence | frontend/src/composables/useProcessStreams.ts:26 | the list holds exactly the view, ascending by sequence |
| ProcessStreams.ChannelFeedsStream | backend/src/materialsagent/api/routes/agent_runs.py:241-246 | any snapshots of a channel's past, taken in order, may be relayed |
| ProcessStreams.Relay | backend/src/materialsagent/api/routes/agent_runs.py:227-262 | over a whole connection to one epoch the browser shows after every round exactly what the server showed |
| ProcessStreams.NewEpoch | frontend/src/composables/useProcessStreams.ts:20-25 | after another epoch began under a connection the browser lists just the changed segments, hence the server's if and only if all changed |
| ProcessStreams.ReloadedUnchanged | backend/src/materialsagent/application/agent_process.py:157-165 | a channel reloaded as it was leaves the browser empty |
| Selections.Fair | backend/src/materialsagent/application/ml_resource_context.py:89-104 | exactly min(max(limit, 0), n) values, a prefix of each kind; at every moment counts are at most one apart unless the smaller kind is exhausted, and earlier kinds come first |
| Selections.FairIsUnique | backend/src/materialsagent/application/ml_resource_context.py:89-104 | that leaves one choice only |
| ResourceContexts.Append | backend/src/materialsagent/application/ml_resource_context.py:115-124 | an item is listed and resolvable, or taken back with its handle if the list grew too long |
| ResourceContexts.Build | backend/src/materialsagent/application/ml_resource_context.py:106-152 | references r1..rn resolve to exactly what is shown: first every image of the message that still fits, then the message's own references and a fair choice of others up to the first that does not fit; shown and omitted make up the total |
| ResourceContexts.ThoseExactly | backend/src/materialsagent/application/ml_resource_context.py:109-112 | the message's own references and the others, each in their order |
| ResourceContexts.Frame.DropResources | backend/src/materialsagent/application/agent_runtime.py:37-44 | a prefix is left, with one more it would be too long, what was dropped is counted as omitted, and only visible handles remain |
| ResourceContexts.Frame.DropHistory | backend/src/materialsagent/application/agent_runtime.py:45-49 | a suffix of the history is left, at least one entry; with one more it would be too long |
| ResourceContexts.Frame.Trim | backend/src/materialsagent/application/agent_runtime.py:27-51 | a size above the maximum means no resource and at most one history entry are left; nothing is cut from what fits; history goes only after all resources |
| ResourceContexts.Project | backend/src/materialsagent/application/agent_runtime.py:381-395 | built and then trimmed, the counts still make up the total and the handles are exactly the visible references |
| Paging.DecodeOfEncode | backend/src/materialsagent/application/conversations.py:107-136 | unpadded base64url is undone by padding and decoding |
| Paging.EncodeIsUrlSafe | backend/src/materialsagent/application/conversations.py:107-118 | cursors consist of URL characters, and no two byte strings share one |
| Paging.KnownCodes | backend/src/materialsagent/application/conversations.py:107-118 | the alphabet of RFC 4648, section 5 |
| Paging.CursorRoundTrip | backend/src/materialsagent/application/conversations.py:107-176 | every cursor that is given out is read back as its key |
| Paging.CursorLimits | backend/src/materialsagent/application/conversations.py:107-136 | what is too long is neither given out nor taken |
| Paging.StartIsBetween | backend/src/materialsagent/application/conversations.py:384-393 | in descending order the start of a page is the one place between what is not below the cursor and what is |
| Paging.Candidates | backend/src/materialsagent/application/conversations.py:384-398 | the loop finds the stretch of the list below the cursor and one item more than the limit |
| Paging.List | backend/src/materialsagent/application/conversations.py:362-436 | one page: errors for limit and cursor, the items after the key, and a cursor exactly if more follow |
| Paging.ListAll | backend/src/materialsagent/application/conversations.py:362-436 | following the cursors ends and yields the whole list once in order, if and only if the key of every page's last item fits into a cursor |

## Left out

- Active time, deadlines, sleeps and back-off: the clock decides when an operation is attempted, not what it does; attempts and faults are inputs.
- The model, the inference engines, image decoding and SHA-256: results are arbitrary inputs, digests an uninterpreted function or number.
- SQL, HTTP, MinIO, MCP and LangGraph: replaced by a compare-and-set, a transaction with three endings, put/head/delete with their outcomes and an atomic file replace.
- AgentDispatch.ApprovedBeforeExecute: the expiry of a confirmation is left to the clock, and that LangGraph hands an interrupted tool the decision it was resumed with is assumed.
- Row locks of the agent store, audit rows, chat messages and checkpoint clean-up that ride on its transactions.
- Parsing and validation of requests, tool schemas and tool-specific provenance; `identity`, `summary` and `body` stand for the fields that are only compared or copied.
- ReceiptStore: the fsync of the directory and temporary files, which are never read; the receipt's data and error text.
- RuntimeLocks.RuntimeServer: the closer is watched for as long as the others' turns last and may still wait then; that every lock is released some day is a matter of the thread scheduler. The execution counter and the log and readiness handlers are not modelled.
- UploadCleanups.EveryObjectIsTracked: assumes that a late put lands before its clean-up is decided (`InTime`, necessary by `InTimeExactly`) and that conversation ids are not reused; assets produced by tools, namespaces of other deployments and keys with an unsafe shape are not modelled.
- ResultCommits.Prepare: TC4 batches have their own partition rule and are not modelled. Parameters and provenance are part of `identity`.
- ProcessChannels: a segment's kind follows from its id, as all callers build it; a waiter on a channel that is evicted at the same time, the limit of 128 channels and subscriptions are not modelled.
- AgentStores.SQLAlchemyAgentStore.Save: a rival's copy is taken to hold every observation of the row it was read from, as no writer removes one.
- ProcessStreams.Browser.Receive: malformed events, observer generations and the settled event.
- ResourceContexts.Build: the reference list is taken as already sorted, and what an item shows follows from its handle.
- Paging.ListAll: JSON text and key comparison are abstract; the database and the program are taken to order ids alike. The list is the same for all pages.
- ML resource coordination, EBSD and ZTA35G numerics, migrations, configuration and the user interface.
