# NeuroLab control plane and evidence governance, verified

This project models the parts of the repository whose correctness depends on whole histories, and proves
what they promise about every history.

* **Durable delivery protocol** (`protocol.dfy` and the files built on it). The worker and the dashboard share four
  PostgreSQL tables and three Redis lists. Every transaction, Redis command and Lua script is one atomic step; any
  number of workers, dispatchers, recovery passes and foreign producers interleave; a worker may stop between any two
  of its steps and the clock may jump forward. `Next` is that step relation, `Run` a finite run of it.
  * What holds of *every* run: `receipts.dfy`, `lifecycle.dfy`, `deliveries.dfy`, `outbox.dfy`, `drain.dfy`,
    `reaper.dfy`; in particular which step of the run wrote each column of each row (`provenance.dfy`) and how long an
    outbox claim keeps others off a row (`claims.dfy`).
  * What needs a hypothesis on the run, each stated as a predicate on steps: **Q**, recovery never finds the lease of a
    task stale while its holder still executes (`AtMostOnce.LeaseOutlivesWork`); **C**, no claim commits for a task that
    is running with an attempt in flight (`AtMostOnce.ClaimWaits`); **R**, recovery treats one entry in one piece and
    requeues or removes it only when a worker that died or gave up left an occurrence behind (`Durability.NextR`).
    `at_most_once.dfy` and `durability.dfy` prove the guarantees, `necessity.dfy` and `stranding.dfy` give runs from the
    initial state that break each hypothesis (R in either half) and, with it, the guarantee.
* **The same protocol as code** (`control_plane.dfy`, `worker_process.dfy`, `dashboard.dfy`). `ControlPlane` holds the
  tables and lists as fields; each method updates them statement by statement as the SQL and the scripts do, and its
  contract equates the new tables with the transaction function the protocol uses. `Worker` is the control flow of
  `handle_delivery`, `dispatch_pending_outbox`, `recover_stale_deliveries`, `reap_orphaned_queued_tasks` and
  `run_worker` under every combination of lost, unheard and heard replies. `Does(s, own, s', w)` says that some run leads
  from `s` to `s'` in which worker `w` itself takes exactly the steps `own` while all others do anything; every method of
  `Worker` ensures it, and between any two of its actions it calls `Meanwhile`, of which callers know only that the others
  took some steps. `Interleaving.DoesExtendsRun` turns this into a run, so the theorems about runs are about the code.
  `undisturbed.dfy` and `undisturbed_turn.dfy` say what the same steps come to when nothing fails and nobody interferes:
  the rows, receipts and lists after a delivery, a recovery entry, a pass of the reaper, a dispatch and a whole turn.
* **Provider client** (`gigachat.dfy`, `lease.dfy`): retry and refresh loops against an arbitrary provider, exact
  request and time bounds, and which lease settings therefore discharge Q for runs whose executions spend at most that
  time in their call.
* **Range reassembly** (`ranges.dfy`) against an arbitrary HTTP server; ranges follow sections 14.1.2, 14.4 and 15.3.7
  of RFC 9110.
* **Page windows** (`page_windows.dfy`).
* **Evidence governance**: evaluator promotion and its decision log (`evaluator.dfy`, `evaluator_store.dfy`), solution
  memory (`solution_memory.dfy`, `solution_store.dfy`, `solution_history.dfy`), the research corpus and its coverage gate
  (`coverage.dfy`, `corpus_store.dfy`, `corpus_history.dfy`). Stores are classes whose methods are proved against functions
  on table values; the theorems range over every sequence of successful operations from the empty store.

Where the code and its own documentation disagree, the model follows the code:

* `orchestrator/worker.py:465-467` and `orchestrator/worker.py:664-671` call duplicate deliveries and overlapping recovery
  safe because the claim is the only execution gate. `Necessity.WithoutC` is a run in which a duplicate delivery, together
  with one crash, leads to a second provider call; `Stranding.WithoutLeftBehind` and `Stranding.WithoutOnePiece` are
  runs in which overlapping recovery strands an accepted task for ever, one for each half of R.
* `reap_orphaned_queued_tasks` is meant for rows whose delivery is absent from Redis; it reads the two lists one after the
  other. `Reaper.ReapedExactly` says exactly what it fails; a delivery that recovery puts back in between is missed
  (`Reaper.ReaperMissesRequeuedDelivery`).
* `GigaChatClient.access_token` is meant to refuse a token that is about to expire; an expiry of NaN passes its check
  (`GigaChatClient.NanExpiryIsReturned`).
* The default settings (five attempts, a lease of 900 seconds) do not keep a lease longer than the work it covers:
  `LeaseSettings.DefaultLeaseIsTooShort`.
* `persist_evaluator_version` is described as idempotent; after a decision has moved the state, the identical call is
  refused (`EvaluatorStorage.RegisterAgainExactly`, `EvaluatorStorage.DecidedVersionConflicts`).
  `persist_evaluator_decision` accepts a decision whose two runs are exchanged
  (`EvaluatorStorage.ExchangedRunsAreStored`).
* `plan_page_windows` covers every extractable page by number; text beyond 12000 characters of a window is dropped
  (`PageWindows.WholeTextExactly`, `PageWindows.LongPageIsCut`).
* A claim assessment never changes its assessor column, and a model's submission takes over a human-reviewed claim row
  while the source stays content-verified (`CorpusHistory.ModelTakesOverReviewedClaim`).
* The coverage gate can open only for policies without a reproducibility threshold (`CorpusHistory.ReadyExactly`).

## Model

| member | source | states |
|---|---|---|
| ControlPlanes.ControlPlane.SelectInflight | orchestrator/worker.py:305-311 | the uncertain attempt a claim sees is an inflight one of that task, and none of them started later |
| ControlPlanes.ControlPlane.ClaimTask | orchestrator/worker.py:283-338 | hands out the lease exactly for a queued or new task without an inflight attempt; an inflight attempt is marked outcome_unknown, even under a running task, and fails the task only if it is queued |
| ControlPlanes.ControlPlane.RecordProviderAttempt | orchestrator/worker.py:353-369 | the attempt row is inserted once and never overwritten |
| ControlPlanes.ControlPlane.RecordCompletion | orchestrator/worker.py:372-403 | receipt, result and attempt outcome change in one transaction; the row succeeds only for the holder of its lease, and then holds the very result and the time of the commit; the attempt is concluded regardless |
| ControlPlanes.ControlPlane.RecordFailed | orchestrator/worker.py:406-422 | the row fails only for the holder of its lease while the attempt is concluded regardless |
| ControlPlanes.ControlPlane.RecordQueuedTask | dashboard/app.py:89-111 | task row and outbox row appear together, neither overwritten |
| ControlPlanes.ControlPlane.SelectBatch | orchestrator/worker.py:473-485 | the batch is made of distinct eligible rows, no eligible row outside it is older, and it is as large as the batch size allows |
| ControlPlanes.ControlPlane.ClaimPendingOutbox | orchestrator/worker.py:462-499 | exactly the batch is claimed under the new claim with one more attempt counted, and its stored payloads are returned in order; every row of it was undelivered, of a waiting task, and unclaimed for longer than the claim lasts |
| ControlPlanes.ControlPlane.MarkOutboxDelivered | orchestrator/worker.py:502-512 | acknowledges exactly an undelivered row still claimed by the caller; otherwise nothing changes |
| ControlPlanes.ControlPlane.CleanupTerminalOutbox | orchestrator/worker.py:556-569 | removes exactly the rows delivered longer ago than the retention whose task is terminal, and reports how many |
| ControlPlanes.ControlPlane.RecoverRow | orchestrator/worker.py:683-713 | creates a missing row, requeues a queued or stale running one, and says which redis action is due |
| ControlPlanes.ControlPlane.ReapRows | orchestrator/worker.py:637-657 | fails exactly the long-queued rows whose delivery was not observed |
| ControlPlanes.ControlPlane.LremProcessing | orchestrator/worker.py:602-604 | removes the first equal occurrence from the processing list, or nothing |
| ControlPlanes.ControlPlane.RequeueStaleDelivery | orchestrator/worker.py:572-584 | moves one occurrence to the head of the task list exactly when it is still in processing |
| ControlPlanes.ControlPlane.DeadLetterProcessingDelivery | orchestrator/worker.py:587-599 | moves one occurrence to the dead list exactly when it is still in processing |
| ControlPlanes.ControlPlane.BlMove | orchestrator/worker.py:818-826 | moves the head of the task list to the tail of the processing list, or times out |
| ControlPlanes.DeliveryTaskIds | orchestrator/worker.py:607-621 | collects exactly the valid task ids of a list |
| WorkerProcess.DeliveryIsGuarded | orchestrator/worker.py:731-788 | whatever fails, the provider is called at most once and only right after the committed attempt row; True is returned for a granted claim only after an outcome was committed |
| WorkerProcess.OutcomeIsTold | orchestrator/worker.py:731-788 | how the steps of a delivery end, for every kind of message and every combination of failures |
| WorkerProcess.EntryIsTold | orchestrator/worker.py:527-553 | an outbox entry is pushed exactly when it names its own row and the push arrives, and acknowledged exactly when that was heard of and the update arrives |
| WorkerProcess.SweepIsTold | orchestrator/worker.py:672-728 | a recovery entry is judged exactly when the transaction arrives, and carried out exactly when that was heard of and the redis command arrives |
| WorkerProcess.DispatchIsTold | orchestrator/worker.py:537-553 | entries are pushed only under a claim that was heard of |
| WorkerProcess.Worker.ClaimNow | orchestrator/worker.py:746-752 | a delivery is claimed under fresh identifiers, one protocol step |
| WorkerProcess.Worker.HandleDelivery | orchestrator/worker.py:731-788 | under every combination of failures and every interleaving the function is a run whose own steps end with the committed result exactly when claim, attempt and completion were heard of and the provider answered (or it is the local smoke test), and otherwise with the committed failure or the retained delivery; True means ready to acknowledge |
| WorkerProcess.Worker.HandleFailure | orchestrator/worker.py:769-785 | the failure is persisted, or the delivery is retained |
| WorkerProcess.Worker.RecordOutcome | orchestrator/worker.py:754-777 | a completion whose reply is lost still goes through the failure branch |
| WorkerProcess.Worker.PublishOutboxClaim | orchestrator/worker.py:527-534 | refuses a payload naming another task, pushes, then acknowledges; an error ends only this entry |
| WorkerProcess.Worker.DispatchPendingOutbox | orchestrator/worker.py:537-553 | every claimed entry is tried exactly once, in order, whatever happened to the others |
| WorkerProcess.Worker.RecoverEntry | orchestrator/worker.py:672-728 | database half first, then the redis half its verdict asks for; an error skips only this entry |
| WorkerProcess.Worker.RecoverStaleDeliveries | orchestrator/worker.py:664-728 | one pass over a snapshot of the processing list, entry by entry |
| WorkerProcess.Worker.ReapOrphanedQueuedTasks | orchestrator/worker.py:624-661 | both lists are read, task list first, before the one transaction |
| WorkerProcess.Worker.ServeOne | orchestrator/worker.py:818-828 | a delivery is acknowledged exactly when its handler returned True; none is taken only when the task list is empty |
| WorkerProcess.Worker.Turn | orchestrator/worker.py:791-828 | whatever fails, the steps of the worker in one turn are exactly: the dispatch round, the cleanup, the recovery pass and the reaper, each if due and in this order, then one delivery; none is taken only when the task list is empty |
| WorkerProcess.Worker.RunWorker | orchestrator/worker.py:791-828 | any number of turns with any failures is one run of the protocol in which the worker itself takes exactly the steps of its turns, one turn after the other, and ends ready for the next |
| Interleaving.DoesExtendsRun | orchestrator/worker.py:791-828 | what a process does from a reachable state, interleaved with the others, extends the run that reached it |
| Interleaving.OthersLeaveMeAlone | orchestrator/worker.py:791-828 | other processes never move a process's own program counter |
| Undisturbed.AloneIsAllowed | orchestrator/worker.py:791-828 | a run in which nobody interferes is one of those the contracts of the worker speak of |
| Undisturbed.DeliveryIsExecuted | orchestrator/worker.py:731-788 | undisturbed and fault-free, a delivery of a waiting or new task leaves a succeeded row with the produced result, a completed attempt and one receipt more if the provider answered or it is the smoke test, and a failed row and attempt without receipt otherwise; the provider is called exactly once or not at all |
| Undisturbed.DeliveryIsRefused | orchestrator/worker.py:305-327 | undisturbed, a delivery of a task with an attempt in flight writes the latest such attempt off as uncertain and fails the task if it still waited |
| Undisturbed.DuplicateChangesNothing | orchestrator/worker.py:328-351 | undisturbed, a delivery of a task that is running or over changes no row |
| Undisturbed.MalformedIsBuried | orchestrator/worker.py:735-744 | undisturbed, a message that is no object or has an unsupported lane goes to the dead list and changes nothing else |
| UndisturbedTurn.EntryIsRecovered | orchestrator/worker.py:664-728 | a fault-free recovery entry: what becomes of the row, the message and the lists for a missing, waiting, stale, running and finished task and for a malformed message |
| UndisturbedTurn.PassIsReaped | orchestrator/worker.py:624-661 | a fault-free reaper pass fails exactly the overdue waiting tasks that no message of either list names |
| UndisturbedTurn.OutboxIsCleaned | orchestrator/worker.py:556-569 | a cleanup removes exactly the rows of finished tasks that were delivered longer ago than the retention |
| UndisturbedTurn.BatchIsPosted | orchestrator/worker.py:537-553 | a fault-free dispatch pushes every payload of its batch once, in order, and acknowledges each row |
| UndisturbedTurn.HeadIsServed | orchestrator/worker.py:818-828 | a fault-free service takes the head of the task list, handles it and leaves it in neither list |
| UndisturbedTurn.TurnIsDone | orchestrator/worker.py:791-828 | a fault-free turn is, in this order and each if due, that dispatch, that cleanup, the recovery of every entry of the processing list and that reaper pass, and then one service or none |
| Dashboard.CreateTask | dashboard/app.py:217-242 | 202 exactly for a supported model below both limits with both stores answering; a refusal changes nothing; 503 may hide a committed submission |
| Dashboard.AcceptedIsSubmitted | dashboard/app.py:89-111 | an accepted request is one step of the protocol after which task row and payload exist |
| Receipts.InvStep | orchestrator/worker.py:283-422 | every step of every process keeps rows, attempts, receipts, calls and lease holders consistent |
| Receipts.ReceiptAccounting | orchestrator/worker.py:353-422 | in every reachable state: one receipt per execution; a receipt implies a completed or outcome_unknown attempt; completed implies a receipt, failed none; a succeeded task has the receipt of its own execution; every call has its attempt row |
| Receipts.CallFollowsAttempt | orchestrator/worker.py:754-763 | a call starts only with its attempt committed, without an outcome, never called before, under the caller's own lease |
| Lifecycle.RowsFollowLifecycle | orchestrator/worker.py:309-337 | rows move only queued-running, running-queued, running-succeeded/failed and queued-failed, and a queued row has no lease |
| Lifecycle.TerminalForever | orchestrator/worker.py:389-414 | a terminal row and its result never change again |
| Lifecycle.GrantIsExclusive | orchestrator/worker.py:283-338 | a row starts running only through one claim of a queued task without inflight attempt, with a lease never handed out before |
| Lifecycle.LeaseNeverReturns | orchestrator/worker.py:683-697 | a lease the row has lost is never reissued |
| Lifecycle.ReplacedWorkerNeverWrites | orchestrator/worker.py:389-414 | a worker whose lease was replaced never alters a task row |
| Provenance.RowsTellTheirStory | orchestrator/worker.py:283-422 | in every reachable state each column of a task row is what a step of the run wrote: creation time, the claim that granted its lease and when, the completion that gave its result and when, the step that failed it and when |
| Provenance.ResultIsTheExecutions | orchestrator/worker.py:388-394 | the result of a succeeded row is the one carried by the only completion committed under its own execution id |
| Provenance.AttemptsTellTheirStory | orchestrator/worker.py:353-422 | in every reachable state an attempt row names when it was recorded and which step told its outcome, and while it is in flight none did |
| Provenance.OutboxTellsItsStory | orchestrator/worker.py:462-512 | in every reachable state an outbox row holds the accepted request, since when, the claim that took it last and when, and when it was acknowledged |
| Provenance.OutboxRowLeavesExactly | orchestrator/worker.py:556-569 | a row leaves the outbox exactly in a cleanup that finds its task finished and its delivery older than the retention |
| AtMostOnce.OneExecutionPerTask | orchestrator/worker.py:305-337 | under Q: at most one live execution and one inflight attempt per task, and at most one receipt, that of the execution the task succeeded with |
| AtMostOnce.CallsBounded | orchestrator/worker.py:283-338 | under Q: provider calls for a task never exceed one plus its executions abandoned after the attempt row |
| AtMostOnce.AtMostOneCall | orchestrator/worker.py:283-369 | under Q and C: at most one provider call per task |
| AtMostOnce.CrashNeverReplays | orchestrator/worker.py:309-327 | under Q and C, whenever a worker drops an execution behind its attempt row, in any phase: the provider is never called for the task again, and the task ever succeeds if and only if the receipt of that execution had been committed |
| AtMostOnce.TimelyRunsSatisfyQ | orchestrator/worker.py:683-697 | runs whose executions finish within the lease satisfy Q |
| Necessity.WithoutQ | orchestrator/worker.py:683-697 | without Q: a worker slower than its lease and its successor both call the provider although nobody crashed |
| Necessity.WithoutC | orchestrator/worker.py:309-327 | without C: a duplicate delivery and one crash replay the call, attaining the bound |
| Stranding.StrandedForever | orchestrator/worker.py:664-728 | a running task nobody executes and no delivery names stays running for ever |
| Stranding.HalvesMakeR | orchestrator/worker.py:672-723 | judging an entry and acting on it at once, where a dead worker left it behind, is what R allows a recovery step |
| Stranding.WithoutLeftBehind | orchestrator/worker.py:699-723 | recovery in one piece but of a live worker's delivery, even with Q and C: an accepted and dispatched task is stranded |
| Stranding.WithoutOnePiece | orchestrator/worker.py:683-723 | recovery of left-behind deliveries only, but judged and requeued in two pieces, even with Q and C: an accepted and dispatched task is stranded |
| Stranding.WithoutR | orchestrator/worker.py:699-723 | so without R, even with Q and C: a dispatched task is stranded |
| Deliveries.ScriptsConserve | orchestrator/worker.py:572-599 | both Lua scripts keep every occurrence count over the three lists |
| Deliveries.BlmoveConserves | orchestrator/worker.py:818-826 | BLMOVE keeps every occurrence count over the three lists |
| Deliveries.NothingVanishes | orchestrator/worker.py:738-744 | in every reachable state: pushed occurrences are in a list or were acknowledged; a rejected message is never lost despite crashes around the dead-letter push; the dead list holds no message with valid lane and task id |
| Reaper.ReapedExactly | orchestrator/worker.py:607-661 | one pass fails a task if and only if the task is queued and overdue at the commit and no message named it in the task list at the first read nor in the processing list at the second |
| Reaper.ReaperSeesMovingDeliveries | orchestrator/worker.py:607-661 | so a task is not reaped in a pass before which a delivery of it was in either list, unless that was taken out of processing between the two reads |
| Reaper.ReaperMissesRequeuedDelivery | orchestrator/worker.py:624-657 | a delivery requeued between the two reads is missed: an accepted request is failed although its delivery never left Redis |
| Outbox.OutboxSafety | orchestrator/worker.py:462-534 | a row is pushed at most delivery_attempts times and at least once before it counts as delivered; at most one acknowledgement per row succeeds |
| Outbox.PayloadRetained | orchestrator/worker.py:556-569 | the submitted payload is retained until it is delivered and its task terminal |
| Outbox.SupersededClaimNeverAcks | orchestrator/worker.py:502-512 | an acknowledgement under a superseded claim is a no-op for ever |
| OutboxClaims.TakesExactly | orchestrator/worker.py:473-487 | a claim takes only undelivered rows of waiting tasks that are unclaimed or whose claim has expired, and leaves such a row behind only when its batch is full of rows at least as old |
| OutboxClaims.ClaimsAreApart | orchestrator/worker.py:478-482 | two claims of one row are more than the claim time apart, and the row was not acknowledged in between |
| OutboxClaims.AllClaimsExpire | orchestrator/worker.py:478-482 | in every reachable state no pending row is held back any longer once the claim time has passed |
| OutboxClaims.DroppedRowIsServed | orchestrator/worker.py:462-553 | what stopped dispatchers claimed and dropped is pushed once more and acknowledged by a later undisturbed one, once the claims have expired |
| Drain.RoundEffect | orchestrator/worker.py:462-512 | one undisturbed round acknowledges exactly its batch, one more attempt each |
| Drain.RoundIsRun | orchestrator/worker.py:537-553 | an undisturbed round is a run of the protocol that pushes the batch in order |
| Drain.OneRound | orchestrator/worker.py:474-499 | a round takes min(batch size, pending) rows out of the pending ones and leaves the rest eligible |
| Drain.OldestFirst | orchestrator/worker.py:484-487 | earlier-created rows go out in earlier or the same batches |
| Drain.OutboxDrains | orchestrator/worker.py:462-553 | n eligible rows are each acknowledged exactly once within ceil(n / batch size) rounds, no other row is touched |
| Drain.DispatcherDrains | orchestrator/worker.py:462-553 | as a run: each pending payload is pushed exactly once, in batch order, and acknowledged, within ceil(n / batch size) calls |
| Drain.OutboxAlwaysOwn | dashboard/app.py:89-111 | every reachable outbox row holds a payload that names its own task, so the identity check never retains one |
| DispatchRounds.CodeIsOneRound | orchestrator/worker.py:537-553 | the worker's dispatch loop, undisturbed, is exactly one draining round |
| Durability.DurableStep | orchestrator/worker.py:664-728 | every step under R keeps each submitted task supported |
| Durability.NoAcceptedTaskIsLost | orchestrator/worker.py:664-828 | under R every submitted task is terminal, undelivered in the outbox, or has a delivery that waits, is being claimed or executed, or was left behind for recovery; in the last three cases a message naming it is in the processing list |
| Durability.PayloadIsNotLost | dashboard/app.py:89-111 | under R, if nobody reuses minted ids, the submitted payload itself is in the outbox, the task list or the processing list until the task is terminal |
| Identifiers.CirculatesStep | orchestrator/worker.py:527-604 | a property of all incoming messages holds of every message in a list, with a worker or awaiting dispatch |
| Identifiers.MintedStep | orchestrator/worker.py:746-750 | no row and no message names an identifier uuid4 has not produced |
| GigaChatClient.RequestIsBounded | orchestrator/worker.py:117-142 | one request_json call sends at most R requests, sleeps at most 30(R-1) seconds and spends at most the timeout per request |
| GigaChatClient.RetriesExactly | orchestrator/worker.py:117-142 | another request is sent exactly after a network failure, a 429 or a 5xx with a usable wait, while attempts are left |
| GigaChatClient.WaitsExactly | orchestrator/worker.py:124-140 | the wait is the announced one brought into 1 to 30 seconds, or a second that doubles up to 30 |
| GigaChatClient.CallIsBounded | orchestrator/worker.py:156-194 | one authorized call sends at most 4R requests, sleeps at most 120(R-1) seconds and is over within 300R + 120(R-1) |
| GigaChatClient.BoundIsAttained | orchestrator/worker.py:117-194 | some provider that respects every timeout uses all of the bound |
| GigaChatClient.RecordedIsAnnounced | orchestrator/worker.py:63-74 | the recorded expiry is the announced one, whether it came in seconds or in milliseconds |
| GigaChatClient.StaleTokenIsFetchedAgain | orchestrator/worker.py:156-171 | from 60 seconds before the announced expiry on a cached token is not served any more |
| GigaChatClient.Client.RequestJson | orchestrator/worker.py:117-142 | the retry loop: 429, 5xx and network failures only, Retry-After clamped to 1..30, NaN and undecodable answers escape |
| GigaChatClient.Client.AccessToken | orchestrator/worker.py:156-181 | a token served from the cache came with an answer of the provider, and the expiry that answer announced is more than 60 seconds away; a fresh one has such an expiry if and only if its expiry is not NaN |
| GigaChatClient.NanExpiryIsReturned | orchestrator/worker.py:63-74 | a token whose expiry is NaN is returned and stored, and never served from the cache |
| GigaChatClient.Client.AuthorizedRequestJson | orchestrator/worker.py:183-194 | one refresh after a rejected token, within the request, sleep and time bounds |
| LeaseSettings.LeaseCondition | orchestrator/worker.py:28 | no punctual provider outlasts the lease if and only if slack + 300R + 120(R-1) fits into it |
| LeaseSettings.ClockedAlways | orchestrator/worker.py:328-337 | while a worker still owns the row of its execution, the age of the row is exactly the time the run spent while the worker executed it |
| LeaseSettings.LeaseDischargesQ | orchestrator/worker.py:683-697 | settings meeting that condition discharge Q for every run in which the time an execution spends waiting for its call is at most that of one call to a punctual provider plus a settling time, and its time in other phases at most the rest of the slack |
| LeaseSettings.DischargesQExactly | orchestrator/worker.py:683-697 | for whole seconds of slack, every such run satisfies Q if and only if the settings meet that condition: a shorter lease is found stale under a live worker in some run |
| LeaseSettings.DefaultLeaseIsTooShort | orchestrator/worker.py:21-28 | the default five attempts do not fit into the default lease; two attempts do |
| RangeReassembly.ReadRange | src/neurolab/publisher_fulltext_verification.py:195-218 | what one answer contributes, or the first check it fails |
| RangeReassembly.AcceptedExactly | src/neurolab/publisher_fulltext_verification.py:200-217 | an answer is accepted exactly if it is partial content from the address asked for, its range starts where the assembled part ends and lies in a document of admissible and unchanged size, and its body is as long as the range |
| RangeReassembly.ReadStaticPdfRanges | src/neurolab/publisher_fulltext_verification.py:184-221 | every requested range is nonempty, within the limit and starts where the assembled part ends; a normal return is at most 25 MiB; the loop ends |
| RangeReassembly.NormalReturnIsTheDocument | src/neurolab/publisher_fulltext_verification.py:184-221 | against any server answering from one document a normal return is that document |
| RangeReassembly.ReturnsExactly | src/neurolab/publisher_fulltext_verification.py:184-221 | against any server, a normal return is the document if and only if every answer the loop accepted announced its size and carried its bytes |
| RangeReassembly.TypeIsTheLast | src/neurolab/publisher_fulltext_verification.py:218-221 | the content type returned is that of the last answer |
| RangeReassembly.ChangedDocumentIsAccepted | src/neurolab/publisher_fulltext_verification.py:211-213 | the size check alone does not notice a document changed during retrieval: a mixture is returned |
| RangeReassembly.ExactServerRoundTrip | src/neurolab/publisher_fulltext_verification.py:184-221 | a server serving the clipped requested range returns the document if and only if 0 < size <= 25 MiB, in ceil(size / 256 KiB) <= 100 requests |
| PageWindows.NeverRejected | src/neurolab/document_cards.py:39-43 | the PageWindow constructor never rejects a planned window |
| PageWindows.PlanPageWindows | src/neurolab/document_cards.py:160-174 | the errors and the plan of the loop; every window holds the text of its own pages, in their order and one newline apart, from the first to the last visible character, cut to 12000 |
| PageWindows.JoinLaysOut | src/neurolab/document_cards.py:168 | page p of a group stands at the offset of the pages before it, one newline between two pages, and nothing else |
| PageWindows.StripIsVisiblePart | src/neurolab/document_cards.py:168 | stripping keeps exactly what lies between the first and the last visible character |
| PageWindows.PlanCoversOnce | src/neurolab/document_cards.py:160-171 | windows are increasing and disjoint page groups and every non-blank page lies in exactly one |
| PageWindows.PlanSucceedsExactly | src/neurolab/document_cards.py:161-173 | the number of windows is that of page groups with a non-blank page, at least one exactly when some page has text |
| PageWindows.TwoPagesAlwaysFit | src/neurolab/document_cards.py:172-173 | with two or more pages per window the 50-window budget is never exceeded for up to 100 pages |
| PageWindows.WholeTextExactly | src/neurolab/document_cards.py:168-171 | a window holds the whole text of its pages if and only if that has at most 12000 characters |
| PageWindows.LongPageIsCut | src/neurolab/document_cards.py:168-171 | a page of 12001 visible characters loses its last one |
| EvaluatorEvolution.ChainIsMonotone | src/neurolab/evaluator_evolution.py:125-147 | along a chain of promotions cohort and kind are constant, safety and calibration never drop, primary quality rises by at least 0.02 each time |
| EvaluatorEvolution.ChainIsBounded | src/neurolab/evaluator_evolution.py:83-147 | a chain has at most 50 promotions, each judged on 20 or more cases by an independent assessor who is not the proposer |
| EvaluatorEvolution.FiftyPromotionsArePossible | src/neurolab/evaluator_evolution.py:125-147 | fifty promotions do occur |
| EvaluatorEvolution.FrozenCasesSurviveExactly | src/neurolab/evaluator_evolution.py:133-134 | frozen cases survive the next promotion if and only if the candidate freezes them again |
| EvaluatorEvolution.DecidesExactly | src/neurolab/evaluator_evolution.py:125-147 | when a linked candidate is promoted, when it is reverted, when it stays in shadow, and why |
| EvaluatorEvolution.ReasonsExactly | src/neurolab/evaluator_evolution.py:125-147 | the reason of a decision names the first gate that was not passed |
| EvaluatorStorage.EvaluatorStore.PersistVersion | src/neurolab/evaluator_storage.py:48-101 | inserts a new definition, or returns the row of its label exactly when every stored field, state included, is identical |
| EvaluatorStorage.EvaluatorStore.PersistRun | src/neurolab/evaluator_storage.py:104-122 | a run is stored once, for an existing evaluator |
| EvaluatorStorage.EvaluatorStore.PersistDecision | src/neurolab/evaluator_storage.py:220-262 | all or nothing: records the decision and moves only its undecided candidate, exactly when the runs' owners are its two evaluators |
| EvaluatorStorage.DecisionLog | src/neurolab/evaluator_storage.py:220-262 | in every reachable store a candidate's decisions are shadow* and at most one final one, its state is that of the last decision or the registered one, and the runs belong to the two evaluators |
| EvaluatorStorage.FinalForever | src/neurolab/evaluator_storage.py:234-243 | promoted and reverted are final; nothing but the state of a version ever changes |
| EvaluatorStorage.RunCheckExactly | src/neurolab/evaluator_storage.py:226-233 | the run check passes if and only if the runs belong to the evaluators straight or exchanged |
| EvaluatorStorage.ExchangedRunsAreStored | src/neurolab/evaluator_storage.py:226-233 | some history of the store ends with a decision that names its runs the wrong way round |
| EvaluatorStorage.RegisterAgainExactly | src/neurolab/evaluator_storage.py:48-101 | registering a stored definition again is idempotent if and only if its decisions left its state as registered |
| EvaluatorStorage.DecidedVersionConflicts | src/neurolab/evaluator_storage.py:48-101 | some history promotes a version whose identical registration would then be refused |
| SolutionMemory.OrderIndependent | src/neurolab/solution_memory.py:62-74 | the derived state does not depend on the order of outcomes |
| SolutionMemory.StateExactly | src/neurolab/solution_memory.py:62-74 | when an asset is retired, promoted, watched or a candidate, with the thresholds on counts, safety and mean quality |
| SolutionMemory.ReplayPromotion | src/neurolab/response_replay_memory.py:38-45 | for replay outcomes: promoted if and only if at least 3 successes and at most 1 regression, retired if and only if 2 regressions |
| SolutionMemory.MetricsDecide | src/neurolab/response_replay_memory.py:38-45 | the state of an asset with replay outcomes follows from how many of its runs were unsafe and how many good in all three metrics |
| SolutionStorage.SolutionStore.PersistAsset | src/neurolab/evaluator_storage.py:265-294 | registers a receipt without resetting a known one, or refuses a different label |
| SolutionStorage.SolutionStore.InsertAll | src/neurolab/evaluator_storage.py:303-312 | duplicates are ignored, a missing asset or run aborts |
| SolutionStorage.SolutionStore.PersistOutcomes | src/neurolab/evaluator_storage.py:297-336 | stores the batch and recomputes the state from the complete history, or undoes everything |
| SolutionHistory.StateIsDerived | src/neurolab/evaluator_storage.py:313-330 | when outcomes belong to their asset, the stored state is next_asset_state of the deduplicated history in every reachable store |
| SolutionHistory.StateIgnoresOrder | src/neurolab/evaluator_storage.py:313-325 | any other order of that history gives the stored state |
| SolutionHistory.NothingTwice | src/neurolab/evaluator_storage.py:265-312 | in every reachable store a receipt is identified by kind and content, an outcome by asset, synthetic run and evaluator run |
| SolutionHistory.ResubmissionChangesNothing | src/neurolab/evaluator_storage.py:303-312 | a recorded batch can be submitted again at any time without effect |
| SolutionHistory.SubmissionOrderIrrelevant | src/neurolab/evaluator_storage.py:303-330 | order and repetition of a submission do not matter when equal keys mean equal outcomes |
| SolutionHistory.RetiredForever | src/neurolab/solution_memory.py:67-68 | an asset retired by its history stays retired |
| SolutionHistory.RetiredExactly | src/neurolab/solution_memory.py:67-68 | recording leaves an asset retired if and only if its complete history has two regressions, whatever state was stored before |
| SolutionHistory.RegisteredRetiredComesBack | src/neurolab/evaluator_storage.py:326-330 | an asset merely registered as retired becomes a candidate with its first success, in a history from the empty store |
| SolutionHistory.StaysCurrentExactly | src/neurolab/evaluator_storage.py:297-336 | recording keeps every stored state derived if and only if each other asset the batch names still derives the state it has stored |
| SolutionHistory.ForeignOutcomesGoStale | src/neurolab/evaluator_storage.py:303-330 | in a history from the empty store, outcomes of another asset are stored without recomputing that asset, which its own history would retire |
| ResearchCorpus.ClassifyItem | src/neurolab/research_corpus.py:83-113 | classification never records reproducibility or verification and always names a layer |
| ResearchCorpus.ClassificationFollowsTitle | src/neurolab/research_corpus.py:83-94 | a title is filed under exactly the layers it signals, under component with confidence 0.2 exactly when it signals none |
| ResearchCorpus.ScoresExactly | src/neurolab/research_corpus.py:83-113 | the scores of an item by its evidence, its provider and the number of layers its title signals |
| ResearchCorpus.KeptIsMaximal | src/neurolab/research_corpus.py:120-128 | after any stream the kept assessment of a key is from the stream and of maximal verification rank |
| ResearchCorpus.KeptIsFirst | src/neurolab/research_corpus.py:120-128 | of equally verified assessments of a key the first of the stream is kept |
| ResearchCorpus.CountsIgnoreOrderAndRepetition | src/neurolab/research_corpus.py:120-141 | permuting or repeating the stream changes none of the source, provider and content-verified counts |
| ResearchCorpus.CountsExactly | src/neurolab/research_corpus.py:129-150 | the layer and buildable counts are the numbers of kept sources filed under them |
| ResearchCorpus.MeanOfEquals | src/neurolab/research_corpus.py:129-150 | the mean reproducibility is one of component and feature sources only |
| ResearchCorpus.Fold | src/neurolab/research_corpus.py:120-128 | the loop keeps exactly the specified assessments and providers |
| ResearchCorpus.EvaluateCoverage | src/neurolab/research_corpus.py:116-165 | ready if and only if every policy threshold holds, if and only if nothing is unmet |
| CorpusStorage.CorpusStore.PersistRun | src/neurolab/research_storage.py:54-80 | upserts every item; a known source keeps its status |
| CorpusStorage.CorpusStore.UpsertAssessment | src/neurolab/research_storage.py:83-154 | source, observation and scores of one item, an observation once per run and provider id |
| CorpusStorage.CorpusStore.PersistFulltextReceipt | src/neurolab/research_storage.py:253-290 | one receipt per source and file, for known sources only, whose page count never changes |
| CorpusStorage.CorpusStore.PersistReviewedClaim | src/neurolab/research_storage.py:361-432 | accepts a claim if and only if its pages lie inside a receipt of its own source; a human claim verifies the source |
| CorpusStorage.CorpusStore.LoadCorpusAssessments | src/neurolab/research_storage.py:157-210 | the joined rows, one per observation |
| CorpusHistory.AlwaysSound | src/neurolab/research_storage.py:54-154 | in every reachable store each content-verified source has human evidence inside its receipt and no score records reproducibility |
| CorpusHistory.ReadyNeedsHumanEvidence | src/neurolab/research_storage.py:361-432 | for any policy an open gate implies the demanded number of distinct sources with a committed human claim inside their receipts |
| CorpusHistory.ReadyExactly | src/neurolab/research_corpus.py:129-165 | a reachable corpus is ready if and only if the counts suffice and no reproducibility is demanded |
| CorpusHistory.DefaultPolicyIsNeverMet | src/neurolab/research_corpus.py:56-64 | under the default policy the gate never opens |
| CorpusHistory.ReadinessIsReachable | src/neurolab/research_corpus.py:116-165 | for a policy without that threshold the gate does open |
| CorpusHistory.StatusNeverRegresses | src/neurolab/research_storage.py:83-106 | the verification status of a source never regresses |
| CorpusHistory.CorpusIsTheLastClassification | src/neurolab/research_storage.py:157-210 | the gate is given one row for every observation, with its provider and the status of its source, and otherwise the classification of the item observed last under its key |
| CorpusHistory.StoredOnce | src/neurolab/research_storage.py:83-154 | in every reachable store observations, claims and receipts are unique by their keys |
| CorpusHistory.ObservedIsNoted | src/neurolab/research_storage.py:83-154 | every item ever observed is noted for its run, for good |
| CorpusHistory.ModelTakesOverReviewedClaim | src/neurolab/research_storage.py:376-425 | a model's submission can un-review a human claim while its source stays content-verified |
| CorpusHistory.RowFollowsReviews | src/neurolab/research_storage.py:376-425 | a claim row is reviewed if and only if its last submission was a human's, has the pages of that one, and names the assessor and source of its first |

## Left out

- SQL isolation below the transaction: every transaction is one atomic step, as if serializable; two statements of one transaction never see another transaction's commit in between.
- Columns without effect on the protocol: `model`, `provider`, `credential_lane`, `request_ref`, `error_message`, `last_error`, `concluded_at`, and the amounts of a cost receipt; hence the 24-hour lane count of `create_task` is a parameter.
- Spellings of one UUID (upper case, braces, `urn:`): a task id is one value, so the textual comparisons of `publish_outbox_claim` and `persist_evaluator_version` are comparisons of values.
- JSON, `validate_payload`'s parsing and the content of a request: a raw message is a text with what parsing makes of it.
- Heartbeats, logging, `record_succeeded` and `record_cost`: no effect on protocol state, or never called by the worker.
- Liveness: beyond the draining theorem nothing says that a step is eventually taken. The outbox row of a task the reaper failed before dispatch is neither dispatched nor removed.
- Sub-second time, float rounding and overflow in the protocol, in delays and in metrics: seconds are integers or reals, metrics are reals. An infinite timestamp or header counts as a very large or small number.
- `complete` and `embed` of the provider client: building the request and picking fields of the answer; what can raise there is the answer `Rejected` or `NotSent` of the worker model.
- HTTP, TLS, redirects, wall-clock signals, PDF, HTML and XML parsing, licence checks.
- SHA-256 as a function: digests are compared as the values they were computed from.
- Character-level validators of identifiers, labels and summaries, and the database CHECK constraints that repeat them.
- `tasks`, documents and claims are never deleted in the code modelled; cascading deletes of the schema are not modelled.
- NUMERIC(4,3) rounding of stored scores and the unique index on DOIs of the corpus.
- Dashboard metrics, monitoring, prompts, Markdown, document and diagram cards beyond page windows, licence, HTML and artifact receipts, replay diagnostics, and the finite rule tables of the agent roles: pure formatting, field validation and table look-ups without state, none of which is modelled.
- WorkerProcess.Worker.Meanwhile: its body lets time pass only; its contract, which is all its callers know, allows any steps of the other processes.
- EvaluatorStorage.RunCheckExactly: does not ask that the runs be straight, because the code compares sets.
- SolutionHistory.StateIsDerived: does not cover outcomes handed in for another asset, whose state the code leaves stale; SolutionHistory.StaysCurrentExactly says when.
