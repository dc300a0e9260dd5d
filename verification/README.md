# Agent platform protocols, verified

A Dafny model of three stateful protocols of the agent platform, with proofs of what
they keep over whole runs.

**Standing-chat turn store** (`internal/chat`). `MemoryStore` is a class with four maps;
each method is proved against a function or relation on the store's value
(`StoreSpec`). `StoreRuns` strings operations together from the empty store;
`StoreTheorems` and `TurnTheorems` prove what every run keeps. `PostgresTurns` models the
same turns as interleaved transactions that take advisory and row locks one at a time,
check, read, number their messages, write and commit; `PostgresTheorems` proves
exclusion, fencing and deadlock freedom for any interleaving, `PostgresThreads` what the
row locks keep.

**Adverse signals and situations** (`adverse_signal_controller.go`,
`adverse_situation_controller.go`). `SituationStatus` is the status object whose fields
the recording functions update; `SituationBuffer` is their specification.
`SignalDelivery` lets a signal worker take one read or patch at a time and crash
anywhere. `DeliverySafety` holds what needs no condition; `DeliveryTheorems` builds on it
what steady runs keep besides. `Deduplication` relates the buffer to the plain splitting
of report times. `SituationReconcile` and `ResolutionRuns` add responders and resolution.

**Agent chains** (`agent_chain_controller.go`). `ChainReconciler` is the controller,
working step by step on status and children; `ChainSpec` says what one reconcile
computes; `ChainRuns` mixes it with edits, cancellation, deletion, child progress,
foreign runs and crashes between reading, creating and patching. `ChainTheorems`,
`ChainHistory`, `ChainCancellation`, `ChainRelease` and `CadenceTheorems` hold the
results, `ChainChildren` what children carry. The modules named Examples give the runs in
which an expected property fails.

The modules named Outcomes tell, from the state before and after it, what each operation
answers and stores and on exactly which condition, without the function that computes it.

Runs are finite traces of any length. Every theorem about runs quantifies over all of
them; each invariant is proved to hold initially and to survive every action.

## Assumptions

- Digests and child names are injective: digests are modelled as the digested value,
  child and instance names as constructors. Advisory lock hashes are arbitrary; only
  `DeadlockFree` asks that the names locked at that moment do not collide, and
  `CollisionDeadlock` shows why.
- Generated turn identifiers are new where a theorem says so (`FreshTurnIds`, replays
  excepted). Threads are keyed by namespace and identifier and turns by identifier alone,
  so `RequestsIdempotent` also asks that two threads with one identifier do not share a
  message identifier (`FreshMessageIds`). A new turn enters without retries
  (`FirstAttempts`), because preparing a turn does not reset them.
- For `ConcurrentExclusion` callers pass an activation the resources stored with its turn
  and retry only busy turns (`Disciplined`).
- One worker reconciles a kind, and nobody else writes its status fields, edits
  finalizers or creates chained runs. A terminal run phase is final, and the spec of a
  chained run does not change.
- Clocks do not go back; times are whole seconds.

Runs are otherwise unrestricted. A theorem that needs more names it in its `requires`
(`SteadyRun`, `HarmlessRun`, `UndisturbedRun`, `KeptRun`, `DeletionsWait`, `NoneLost`,
`NoneDeleted`, `Regular`), and the next section says what happens without it.

## Where the code and the expected property differ

- The retry guard accepts a waiting turn without a resource check. Mutual exclusion holds
  exactly for runs whose retries are safe (`ExclusiveRuns`), and a run breaks it
  (`WaitingRetryBreaksExclusion`).
- The database activation reads the status without a row lock and revives a turn that was
  finished in between (`ActivationRevives`); nothing else changes one (`FinishedTurns`). As
  far as the locks go, a thread can so get two unfinished turns (`OneTurnPerThread`,
  `HarmfulRevival`, `RevivalDoublesThread`); only the unique index on unfinished turns,
  which is not modelled, stands against that.
- The signal controller's direct path clears a receipt in the copy it recorded and
  patches the whole event list, by name. Reports in between are lost from the buffer
  (`SourceReportLost`, `StaleAcknowledgeBalance`, `StaleAcknowledgeSum`). If the situation
  was re-created in between, receipts of other signals land in the new one, which then
  accepts them uncounted (`RecreatedAcceptsUncounted`); receipts are true exactly if no
  patch does so (`SteadyExactly`). No report is counted twice in any case (`AtMostOnce`).
- The situation controller patches a decision to resolve without looking at reports that
  came after its read. Resolved situations have been quiet exactly if each such patch
  found the current deadline passed (`QuietExactly`, `LateReportRun`).
- A situation whose responder is switched off while it works resolves over it
  (`ResolvesUnderResponder`, `ResolvedOverResponder`).
- A responder that is deleted before it was recorded is created again
  (`CreatedExactly`, `DeletedResponderRecreated`).
- A chain deleted between the read and the creation still gets the child
  (`LateDeletionCreates`, `CreatedAfterDeletion`); it is drained all the same.
- A released instance can come back in two ways only (`ReturnsOnlyBy`): its start token
  is used again (`ReusedTokenRun`), or a crash dropped the record of its last child, which
  is recovered, cancelled before or not (`CancelledInstanceReturns`). `TightExactly` says
  which crashes those are; without them and unasked it stays released (`ReleasedForGood`).
- The frozen generation and workflow of an instance live in its children. Once a child is
  deleted, a start token used again creates the same step under another generation
  (`DeletedChildThaws`); otherwise the history of an instance is frozen too
  (`InstanceFrozen`).
- A recovered child is the only step on record, so the next step misses the results of
  the steps before it (`RecoveryForgetsResults`).
- An invalid chain spec clears the stored next start, after which due times can go back
  (`ForgottenStart`, `ForgottenScheduleRewinds`).

## Model

| member | source | states |
|---|---|---|
| `ChatTypes.FindSharedTurnResource` | internal/chat/turns.go:470-482 | the nested search finds exactly whether two turns have the same profile or a lock key in common |
| `ChatTypes.ConflictsSymmetric` | internal/chat/turns.go:470-482 | sharing a resource does not depend on the order of the two turns |
| `ChatTypes.PrepareTurnRetry` | internal/chat/retry.go:15-29 | a granted retry finds the snapshot's own unfinished attempt below the retry limit and leaves a queued turn under a new run name with no run bound |
| `ChatTypes.PrepareTurn` | internal/chat/turns.go:89-112 | an accepted turn keeps thread, request, profile and lock keys, is waiting exactly if deferred, and points at a user message with the given content |
| `ChatTypes.MessageAccepted` | internal/chat/store.go:544-587 | a message is stored exactly if its role is known, its content is neither blank nor too long, its thread, identifier, sequence and metadata are well formed |
| `ChatTypes.NormalizeMessageTwice` | internal/chat/store.go:544-587 | normalising a stored message again, at any later time, changes nothing |
| `ChatTypes.ThreadAccepted` | internal/chat/store.go:484-542 | a thread is stored exactly if it has a namespace, a creator, a known mode with its profile, decodable metadata and a blank or well-formed identifier |
| `ChatTypes.NormalizeThreadTwice` | internal/chat/store.go:484-542 | normalising a stored thread again, at any later time, changes nothing |
| `ChatTypes.RepairedAssistant` | internal/chat/reply_repair.go:13-26 | a repair is granted only to an assistant reply without a reply format, and changes its content and adds that one metadata field |
| `StoreSpec.BatchEntry` | internal/chat/memory.go:127-145 | message i of an appended batch is stored at position i with its content, role and consecutive number |
| `StoreSpec.BatchStops` | internal/chat/memory.go:127-145 | the error of the first refused message is the outcome of the whole batch |
| `MemoryStore.MemoryStore.CreateThread` | internal/chat/memory.go:36-50 | creates the normalised thread with an empty transcript, or changes nothing |
| `MemoryStore.MemoryStore.AppendMessages` | internal/chat/memory.go:109-150 | appends the whole batch under the next sequence numbers and touches the thread, or changes nothing |
| `MemoryStore.MemoryStore.NormalizeEach` | internal/chat/memory.go:127-145 | the append loop with its running counter computes the batch specification, error included |
| `MemoryStore.MemoryStore.RepairAssistantReply` | internal/chat/reply_repair.go:46-71 | replaces exactly the first message with the identifier if it is still the assistant message the caller saw |
| `MemoryStore.MemoryStore.QueueTurn` | internal/chat/turns.go:282-323 | replays a known request, refuses a blocked or outdated one, or stores turn and numbered user message, whatever order the maps are scanned in |
| `MemoryStore.MemoryStore.FindReplay` | internal/chat/turns.go:294-305 | finds a stored turn of the same thread and request whose user message is in the transcript, if there is one |
| `MemoryStore.MemoryStore.IsBlocked` | internal/chat/turns.go:306-310 | true exactly if an unfinished turn holds the thread or a busy one holds a shared resource of a turn not deferred |
| `MemoryStore.MemoryStore.CompleteTurn` | internal/chat/turns.go:354-384 | closes the caller's own unfinished attempt with one numbered message, and leaves finished turns and other attempts alone |
| `MemoryStore.MemoryStore.RecordRun` | internal/chat/turns.go:394-410 | binds a run to the caller's own unfinished attempt unless another run is bound |
| `MemoryStore.MemoryStore.ActivateTurn` | internal/chat/turns.go:440-458 | queues a waiting turn exactly if none of its resources is busy |
| `MemoryStore.MemoryStore.RetryTurn` | internal/chat/retry.go:65-78 | stores the retried turn, or changes nothing |
| `MemoryStore.MemoryStore.EnsureStandingThread` | internal/chat/standing.go:81-119 | returns the recorded thread, else records the best eligible one, else creates and records a new one |
| `MemoryStore.MemoryStore.ChooseStanding` | internal/chat/standing.go:98-107 | the scan over the thread map ends with the eligible thread that is newest, then smallest by identifier, or with none if none is eligible |
| `StoreTheorems.ExclusiveRuns` | internal/chat/turns.go:282-323 | every state of a run has at most one unfinished turn per thread and no two busy turns of a namespace on one profile or lock key, if and only if each granted retry found its turn busy already or its resources free |
| `StoreTheorems.UnsafeRetryBreaks` | internal/chat/retry.go:15-29 | a granted retry of a waiting turn whose resources are busy always breaks mutual exclusion |
| `StoreExamples.WaitingRetryBreaksExclusion` | internal/chat/retry.go:15-29 | a run from the empty store: two threads, a queued turn, a deferred one of the same agent, and its retry leave two busy turns on one profile |
| `StoreTheorems.TranscriptRuns` | internal/chat/turns.go:282-384 | in every state of every run message i has sequence i + 1, and a thread holds its directly appended messages plus one per accepted and one per finished turn |
| `StoreRuns.RunWellFormed` | internal/chat/memory.go:20-50 | every run leaves each entry filed under its own identity and every turn, transcript and standing pointer with its thread |
| `TurnTheorems.RunFollows` | internal/chat/turns.go:354-458 | over any stretch of a run a stored turn stays, keeps its identity, never changes once finished, keeps its bound run within an attempt and gains one receipt per superseded attempt |
| `TurnTheorems.StaleSnapshotFenced` | internal/chat/retry.go:11-13 | a snapshot with fewer retries than the stored turn can neither complete it, bind a run nor retry it |
| `TurnTheorems.AttemptsFenced` | internal/chat/retry.go:65-78 | once a retry took effect, no holder of the superseded attempt changes anything in any continuation of the run |
| `TurnTheorems.RetriesBoundedRuns` | internal/chat/retry.go:15-29 | in every run a turn is retried at most twice and carries one receipt per retry |
| `TurnTheorems.UniqueRequestRuns` | internal/chat/turns.go:294-305 | in every run, if each new turn gets an unused identifier, no two turns of one thread, as keyed by namespace and identifier, have the same request, and its user message stays findable |
| `TurnTheorems.RequestsIdempotent` | internal/chat/turns.go:294-305 | queuing an accepted request again at the end of any continuation returns that turn and its original user message, conflicts on other content, and changes nothing; it asks for new message identifiers only between threads of one identifier in different namespaces |
| `TurnTheorems.BestCandidateUnique` | internal/chat/standing.go:98-107 | the preferred eligible thread is the same for every scan order |
| `TurnTheorems.StandingRuns` | internal/chat/standing.go:81-119 | after the first answer every later request for the agent, in any continuation, gets the same existing thread of its namespace and profile and creates nothing |
| `TurnTheorems.SnapshotCurrent` | internal/chat/retry.go:11-13 | a snapshot taken at any earlier point of a run counts as the current attempt exactly if the turn was not retried since |
| `StoreOutcomes.PrepareExactly` | internal/chat/turns.go:89-112 | a turn is prepared exactly if request, thread and message are acceptable |
| `StoreOutcomes.QueueAnswers` | internal/chat/turns.go:282-323 | not found, turn active, conversation changed and accepted are each answered exactly on their condition on threads, turns and transcript, and only an accepted turn changes the store |
| `StoreOutcomes.QueueStores` | internal/chat/turns.go:282-323 | an accepted turn adds the caller's message at the end of its thread under the next number, which is the expected one plus one if one was expected, and stores the turn; all else stays |
| `StoreOutcomes.ExpectedSequenceRuns` | internal/chat/turns.go:311-313 | in every run a turn that expects n messages is accepted only onto exactly n, as message n + 1 |
| `StoreOutcomes.CompleteAnswers` | internal/chat/turns.go:354-384 | a completion is answered Ok exactly if the turn was finished before, or its current attempt is closed with an acceptable message, and changes the store exactly in the second case |
| `StoreOutcomes.CompleteStores` | internal/chat/turns.go:354-384 | a completion adds exactly the caller's message, with its content, role and metadata, at the end of the turn's thread, and the caller's outcome to the turn |
| `StoreOutcomes.RepliesKept` | internal/chat/turns.go:354-384 | in every continuation of a run the reply of a completed turn is found at its place as the caller gave it, unless a repair named it |
| `StoreOutcomes.MessagesKept` | internal/chat/reply_repair.go:46-71 | over any stretch of any run a message stays in its place, changes only if a repair names it, and once at most |
| `StoreOutcomes.RepairAnswers` | internal/chat/reply_repair.go:13-71 | a repair is granted exactly if the reply is repairable and still stored as the caller saw it |
| `StoreOutcomes.RepairStores` | internal/chat/reply_repair.go:46-71 | a granted repair rewrites and marks one message and nothing else |
| `StoreOutcomes.ActivateAnswers` | internal/chat/turns.go:440-458 | activation answers true exactly if the turn is queued or running afterwards, and queues it exactly if it was waiting and no turn with a common resource is busy |
| `StoreOutcomes.RecordAnswers` | internal/chat/turns.go:394-410 | a run is bound exactly to the caller's own unfinished attempt that has none or this one |
| `StoreOutcomes.RetryAnswers` | internal/chat/retry.go:15-29 | a retry is granted exactly to the caller's own unfinished attempt with retries left and a complete, different run, and leaves that run queued with a receipt for the one it replaces |
| `StoreOutcomes.StandingAnswers` | internal/chat/standing.go:81-119 | an agent without a recorded conversation gets the most recent direct thread of its own, the first by identifier among equals, or a new empty one if it has none; it is recorded |
| `StoreOutcomes.CreateAnswers` | internal/chat/memory.go:36-50 | a thread is created exactly if it is acceptable and its key is free, empty and under its trimmed identity |
| `StoreOutcomes.AppendAnswers` | internal/chat/memory.go:109-150 | a batch is appended exactly if it has 1 to 16 acceptable messages and its thread exists, then as a whole, in order, under the next numbers |
| `PostgresTurns.RunLocksExclusive` | internal/chat/turns.go:460-469 | in every interleaving no transaction holds a lock that clashes with another's |
| `PostgresTheorems.ConcurrentExclusion` | internal/chat/turns.go:114-182 | for any number of interleaved transactions and any hash function, no two committed busy turns of a namespace share a profile or lock key |
| `PostgresTheorems.ConcurrentFencing` | internal/chat/turns.go:239-280 | in every interleaving, whatever callers pass, when a completion or a retry commits, the row is still unfinished and still the attempt the caller saw |
| `PostgresTheorems.FinishedTurns` | internal/chat/turns.go:412-439 | in every interleaving, whatever callers pass, a step changes a finished turn if and only if it is the commit of an activation of that very turn |
| `PostgresExamples.ActivationRevives` | internal/chat/turns.go:418-438 | such a run exists for every hash: deferred turn queued, activation checked, completion committed, activation committed, and the finished turn is queued again |
| `PostgresTheorems.DeadlockFree` | internal/chat/turns.go:460-469 | in every reachable state, if no two names that the transactions in progress lock have the same hash, one of them need not wait |
| `PostgresTheorems.CollisionDeadlock` | internal/chat/turns.go:460-469 | with colliding hashes two queue transactions deadlock: a concrete run |
| `PostgresThreads.CheckExactly` | internal/chat/turns.go:133-155 | a queuing transaction goes on exactly if the request is new, its thread has no unfinished turn and, unless deferred, no resource is busy; an activating one exactly if its turn waits and no resource is busy |
| `PostgresThreads.OneTurnPerThread` | internal/chat/turns.go:126-155 | in every interleaving whose revivals find their thread neither occupied nor claimed by another, no two committed turns of a thread are unfinished |
| `PostgresThreads.HarmfulRevival` | internal/chat/turns.go:418-438 | any other revival breaks that at once or leaves a claim whose commit breaks it |
| `PostgresExamples.RevivalDoublesThread` | internal/chat/turns.go:418-438 | a run for every hash that tells two agents apart: a revived turn and a later one are both unfinished on one thread |
| `PostgresThreads.OneTurnPerRequest` | internal/chat/turns.go:133-150 | in every interleaving a request of a thread is stored as one turn |
| `PostgresThreads.ConsecutiveNumbers` | internal/chat/turns.go:184-204 | in every interleaving the messages of a thread are numbered 1, 2, 3 and so on |
| `PostgresThreads.ExpectedLength` | internal/chat/turns.go:156-169 | a turn that expects n messages commits only onto exactly n, and its message is number n + 1 |
| `PostgresThreads.BatchNumbers` | internal/chat/store.go:345-414 | a committed batch has 1 to 16 messages under the next numbers |
| `PostgresThreads.NoLostUpdate` | internal/chat/turns.go:239-280 | what a commit writes is the current row with exactly its own change, although completion and retry write back what they read |
| `PostgresThreads.RowsFollow` | internal/chat/turns.go:239-280 | over any stretch of any interleaving that does not revive it a turn keeps its identity, its bound run within an attempt and one receipt per superseded attempt, and never changes once finished |
| `PostgresThreads.ActivationSawWaiting` | internal/chat/turns.go:418-438 | an activation commits only if its turn was waiting with free resources while it was in progress |
| `PostgresThreads.BoundToAttempt` | internal/chat/turns.go:386-393 | a run is bound only to a queued or running turn in the attempt the caller names that has none or this one |
| `SituationStatus.SituationStatus.PrepareSequence` | internal/controller/adverse_situation_controller.go:670-694 | a new or resolved situation moves to its next sequence with everything reset, unless a receipt is outstanding |
| `SituationStatus.SituationStatus.AppendEvent` | internal/controller/adverse_situation_controller.go:696-717 | appends an event and evicts the oldest ones beyond the limit, unless one of those carries a receipt |
| `SituationStatus.SituationStatus.RecordEvent` | internal/controller/adverse_situation_controller.go:559-603 | a source report repeats the first event inside its window or appends a new one; refused reports change nothing |
| `SituationStatus.SituationStatus.RecordSignalEvent` | internal/controller/adverse_situation_controller.go:608-668 | a signal report is acknowledged again, counted with its receipt, or refused without any change |
| `SituationStatus.SituationStatus.ClearReceipt` | internal/controller/adverse_signal_controller.go:255-270 | removes one receipt from every event and nothing else, and reports whether there was one |
| `SituationBuffer.FindRepeated` | internal/controller/adverse_situation_controller.go:566-573 | the first event of the key whose last report lies inside the window |
| `SituationBuffer.MaxEvents` | internal/controller/adverse_situation_controller.go:838-843 | the buffer holds the configured number of events up to 200, and 80 if none is configured |
| `BufferTheorems.SourceReport` | internal/controller/adverse_situation_controller.go:559-603 | a source report counts one and neither adds nor loses a receipt, across eviction and sequence reset |
| `BufferTheorems.SignalReport` | internal/controller/adverse_situation_controller.go:608-668 | a counted signal report adds exactly its own receipt, an undelivered one leaves the status unchanged, and a delivered one has its receipt |
| `BufferTheorems.DeliversWithoutReceipts` | internal/controller/adverse_situation_controller.go:608-668 | with no receipt outstanding a signal report is always delivered |
| `BufferTheorems.SignalBounded` | internal/controller/adverse_situation_controller.go:608-717 | signal reports keep at most 200 events, at most 64 receipts on each, and no receipt twice |
| `BufferLedger.CountersConserved` | internal/controller/adverse_situation_controller.go:559-717 | after any history of reports, acknowledgements and phase changes the event counter equals the counts of retained and evicted events, and the non-duplicates equal their number |
| `BufferLedger.StaleAcknowledgeBalance` | internal/controller/adverse_signal_controller.go:255-277 | after any history since the copy, writing the copy back keeps both counters on the books if and only if the buffer by now holds as many events and counts as the copy |
| `BufferLedger.StaleAcknowledgeSum` | internal/controller/adverse_signal_controller.go:255-277 | while nothing is evicted, that is so if and only if the event counter has not moved since the copy |
| `BufferLedger.StaleAcknowledgeLoses` | internal/controller/adverse_signal_controller.go:255-277 | with room left, one report between the copy and the acknowledgement is always lost from the buffer |
| `BufferLedger.StaleAcknowledgeHides` | internal/controller/adverse_signal_controller.go:255-277 | in a full buffer a report that pushes out an event counted once is lost with the books balanced |
| `Deduplication.DedupeRefines` | internal/controller/adverse_situation_controller.go:559-717 | while nothing is evicted or resolved, the events of a key are exactly the stretches of its report times split at gaps over the window, with first, last and count |
| `Deduplication.SplitJoins` | internal/controller/adverse_situation_controller.go:565-573 | the stretches of a list of times joined in order are that list |
| `Deduplication.SplitGaps` | internal/controller/adverse_situation_controller.go:565-573 | within a stretch no gap exceeds the window, and between stretches every gap does |
| `DeliverySafety.AtMostOnce` | internal/controller/adverse_signal_controller.go:36-172 | in every run with crashes anywhere and no further condition, no signal is counted twice in one situation, a rejected one never, and every counter is the number of reports counted and the buffer keeps its bounds |
| `DeliveryTheorems.ExactlyOnce` | internal/controller/adverse_signal_controller.go:36-172 | in every steady run an accepted signal was counted in the situation and sequence its status names, and at no other place in the log for that situation |
| `DeliveryTheorems.SteadyExactly` | internal/controller/adverse_signal_controller.go:252-277 | every receipt stands for a report counted in the situation that holds it if and only if each direct clearing patch landed on the object it recorded in or carried no other receipt |
| `DeliveryExamples.RecreatedAcceptsUncounted` | internal/controller/adverse_signal_controller.go:252-277 | a run for any names: the situation is re-created before the patch, and another signal is accepted by the new one without being counted |
| `DeliveryExamples.SourceReportLost` | internal/controller/adverse_signal_controller.go:255-277 | a steady run for any names: a source reports between the recording and the acknowledgement, the clearing patch takes that event out of the buffer, and both reports stay counted |
| `DeliveryTheorems.ReceiptsBelong` | internal/controller/adverse_signal_controller.go:234-298 | in every steady run each receipt belongs to an existing signal of that situation that holds its finalizer |
| `DeliverySafety.ReceiptsDurable` | internal/controller/adverse_signal_controller.go:234-279 | in any step of any run a receipt leaves a situation that stays only by the clearing of its own accepted or deleting signal |
| `DeliveryOutcomes.Defaults` | internal/controller/adverse_situation_controller.go:817-836 | the quiet, deduplication and hold periods are the configured ones, or 300, 120 and 900 seconds |
| `DeliveryOutcomes.DeliveredExactly` | internal/controller/adverse_situation_controller.go:608-668 | a signal report is counted exactly if it has no receipt and need not wait: for receipts that keep an old sequence, for 64 receipts on its event, or for one on the event it would push out |
| `DeliveryOutcomes.RefusedExactly` | internal/controller/adverse_situation_controller.go:559-603 | a source report is refused exactly if it would reopen the situation under a receipt or push one out |
| `DeliveryOutcomes.SourceStored` | internal/controller/adverse_situation_controller.go:559-603 | an accepted report has its own event with its body and time, and all others keep their places but for those pushed out at the front |
| `DeliveryOutcomes.SignalStored` | internal/controller/adverse_situation_controller.go:608-668 | the same of a counted signal report, with its receipt |
| `DeliveryOutcomes.DecidedExactly` | internal/controller/adverse_signal_controller.go:79-146 | in every run a signal taken up is rejected exactly if it is invalid, waits exactly if its situation is missing, being deleted or without room, and is else counted or found counted |
| `DeliveryOutcomes.DecisionPossible` | internal/controller/adverse_signal_controller.go:79-146 | one of these steps is always possible |
| `DeliveryOutcomes.CountedWhere` | internal/controller/adverse_signal_controller.go:84-146 | in every run a signal is counted only while it exists, undecided, valid and under its finalizer, in a situation that exists and is not being deleted, which then has its event and receipt |
| `DeliveryOutcomes.DecisionFinal` | internal/controller/adverse_signal_controller.go:50-66 | over any stretch of any run an accepted or rejected signal keeps its decision and where it was counted |
| `DeliveryOutcomes.CleanupPossible` | internal/controller/adverse_signal_controller.go:41-66 | from every idle state of every run the worker can take the finalizer off a decided or deleted signal, and with it the receipt from the situation that counted it |
| `SituationReconcile.Reconciler.EnsureAgentRun` | internal/controller/adverse_situation_controller.go:135-189 | finds the recorded responder and checks its identity, or creates the responder of the sequence, or refuses without creating |
| `SituationReconcile.Reconciler.Reconcile` | internal/controller/adverse_situation_controller.go:57-133 | responder, pull-request hold and phase decision in order, computing the specification of one reconcile |
| `ResolutionTheorems.QuietExactly` | internal/controller/adverse_situation_controller.go:92-129 | in every run, resolved situations have been quiet for the period in force at their last report if and only if each resolving patch found the current deadline passed |
| `ResolutionTheorems.ResolvedQuietly` | internal/controller/adverse_situation_controller.go:92-129 | that holds, with any hold over, in every run whose reports keep out of the time between a read and a resolving patch |
| `ResolutionTheorems.ResolvedAfterHold` | internal/controller/adverse_situation_controller.go:83-90 | in every run, whenever reports arrive, a resolved situation's pull-request hold is over |
| `ResolutionTheorems.ResolvedAfterResponder` | internal/controller/adverse_situation_controller.go:747-758 | in every run a situation becomes resolved only by the controller's patch, and with responders enabled at the read its recorded responder has finished |
| `ResolutionTheorems.ResolvesUnderResponder` | internal/controller/adverse_situation_controller.go:747-758 | with the windows over and a responder unfinished, a reconcile resolves if and only if responders are switched off |
| `ResolutionExamples.ResolvedOverResponder` | internal/controller/adverse_situation_controller.go:747-758 | a run that switches responders off and resolves over the unfinished one |
| `ResolutionTheorems.LateReportBreaks` | internal/controller/adverse_situation_controller.go:256-267 | a resolving patch inside the quiet period of the last report, however many steps after it, always resolves too early |
| `ResolutionExamples.LateReportRun` | internal/controller/adverse_situation_controller.go:256-267 | a run that resolves a situation in the second it was reported, 300 seconds early |
| `ResolutionTheorems.ResponderFixed` | internal/controller/adverse_situation_controller.go:160-187 | over any run, whenever reports arrive, sequences only grow, and within one the recorded responder's name, uid and digest and a hold once begun never change |
| `ResolutionTheorems.OneResponderPerSequence` | internal/controller/adverse_situation_controller.go:135-158 | at most one responder is created per sequence in every run that does not delete a created responder before it is recorded |
| `ResolutionTheorems.CreatedExactly` | internal/controller/adverse_situation_controller.go:135-158 | in every run a reconcile creates a responder if and only if the live situation it read has responders enabled, none recorded, and no run under the name of its sequence |
| `ResolutionExamples.DeletedResponderRecreated` | internal/controller/adverse_situation_controller.go:135-158 | a run that deletes an unrecorded responder and creates a second one for the sequence |
| `ResolutionOutcomes.RefusesExactly` | internal/controller/adverse_situation_controller.go:135-189 | a reconcile stops with an error exactly if the recorded responder is gone or the run under its name is not the recorded one or not of this situation |
| `ResolutionOutcomes.RespondsWith` | internal/controller/adverse_situation_controller.go:135-189 | otherwise the fitting run is recorded, or one is created from the snapshot |
| `ResolutionOutcomes.DecidesExactly` | internal/controller/adverse_situation_controller.go:57-133 | a situation becomes pending exactly without reports, and resolved exactly when the quiet deadline and the hold are over and its responder is done; a hold begins with the first pull request and is not extended |
| `ChainTypes.Validate` | internal/controller/agent_chain_controller.go:1033-1101 | accepts exactly linear specs: unique names, each step gated on the one before it, terminal phases, no negative number, Forbid |
| `ChainTypes.ResolveApplication` | internal/controller/agent_chain_controller.go:1133-1160 | the one application that all non-blank references name, or none |
| `ChainTypes.StepIndex` | internal/controller/agent_chain_controller.go:1162-1170 | the first step with the trimmed name, or -1 |
| `ChainTypes.MatchWhen` | internal/controller/agent_chain_controller.go:1172-1210 | the gate matches exactly if step, phase and, when given, the decision do |
| `ChainTypes.MatchCompletion` | internal/controller/agent_chain_controller.go:1212-1226 | an instance completes exactly if the run succeeded and, when given, the decision is an allowed one |
| `ChainTypes.UpsertStepRun` | internal/controller/agent_chain_controller.go:1319-1338 | computes the step records with the new one in place of its step |
| `ChainTypes.UpsertMembers` | internal/controller/agent_chain_controller.go:1319-1338 | exactly the new record and those of other steps of the same instance remain |
| `ChainCadence.NextCadenceFirst` | internal/controller/agent_chain_controller.go:1277-1284 | recovery schedules the first base + k * interval with k >= 1 after now |
| `ChainCadence.BoundaryMonotone` | internal/controller/agent_chain_controller.go:1340-1363 | the computed start never goes back as time passes and is not after now once the first start has come |
| `ChainCadence.BackedOff` | internal/controller/agent_chain_controller.go:1288-1317 | a backoff never shortens a deadline and never sets one in the past |
| `ChainCadence.BackoffUntil` | internal/controller/agent_chain_controller.go:1365-1411 | an automatic start is only held back to a later time |
| `ChainReconciler.ListUnfinished` | internal/controller/agent_chain_controller.go:886-911 | the scan lists exactly the owned runs that are not terminal, each once |
| `ChainReconciler.CountInstances` | internal/controller/agent_chain_controller.go:847-884 | the number of distinct instances whose first step was created on the day |
| `ChainReconciler.FindCollision` | internal/controller/agent_chain_controller.go:395-413 | true exactly if a run of the instance belongs to another generation or workflow |
| `ChainReconciler.GetRun` | internal/controller/agent_chain_controller.go:709-758 | the referenced run if its identity, generation, workflow and labels match the frozen instance, else none |
| `ChainReconciler.CollectPriors` | internal/controller/agent_chain_controller.go:645-661 | the exact runs of the recorded steps, or none as soon as one does not match |
| `ChainReconciler.Reconciler.Create` | internal/controller/agent_chain_controller.go:760-845 | creates the planned child, takes over an identical existing one, or refuses without change |
| `ChainReconciler.Reconciler.DriveActive` | internal/controller/agent_chain_controller.go:477-696 | computes the step of the active instance: wait, stop, or advance |
| `ChainReconciler.Reconciler.StartInstance` | internal/controller/agent_chain_controller.go:311-474 | computes the start of a manual or due instance with budget, backoff and collision guards |
| `ChainReconciler.Reconciler.ReconcileChain` | internal/controller/agent_chain_controller.go:53-475 | the whole reconcile, branch by branch, computes its specification: status written, child created, finalizer patched or error |
| `ChainEffects.ReconcileEffect` | internal/controller/agent_chain_controller.go:53-475 | a reconcile leaves active instance and children alone, recovers the only unfinished child, releases a terminal one, advances one gated step, or starts with nothing unfinished and no collision |
| `ChainOutcomes.SuspendedKeeps` | internal/controller/agent_chain_controller.go:107-163 | a suspended chain, or one of a paused application, keeps children, schedule and all of its status but the phase |
| `ChainOutcomes.FinalizesExactly` | internal/controller/agent_chain_controller.go:58-81 | the finalizer comes off exactly under deletion with no unfinished child, and is installed exactly where it is missing |
| `ChainOutcomes.CancelRecorded` | internal/controller/agent_chain_controller.go:249-268 | a new request for the active instance is recorded and nothing else happens |
| `ChainOutcomes.CancelledReleases` | internal/controller/agent_chain_controller.go:269-292 | a cancelled instance waits for its child and is then released without backoff or successor |
| `ChainOutcomes.StrangeBlocks` | internal/controller/agent_chain_controller.go:486-546 | an instance of another workflow, or without its step or exact child, is blocked as it is |
| `ChainOutcomes.UnfinishedWaits` | internal/controller/agent_chain_controller.go:548-569 | while its child is unfinished an instance runs on, with the child's phase recorded |
| `ChainOutcomes.StoppedReleases` | internal/controller/agent_chain_controller.go:571-643 | a finished child with no open gate behind it releases its instance, waiting for a human exactly if one is needed, and postpones the next start to the end of the backoff unless the workflow is complete |
| `ChainOutcomes.GateAdvances` | internal/controller/agent_chain_controller.go:645-696 | behind an open gate the next step of the instance is created or taken over with its template, time and results, blocked if a recorded run changed, and failed if the name is taken |
| `ChainOutcomes.HandoffExactly` | internal/controller/agent_chain_controller.go:1413-1467 | a step receives from each source the result of that step's recorded run in this instance, and nothing from another chain, instance or step |
| `ChainOutcomes.DefaultHandoff` | internal/controller/agent_chain_controller.go:1421-1424 | a step that asks for results and lists none receives that of the step before it |
| `ChainOutcomes.RecoveryForgetsResults` | internal/controller/agent_chain_controller.go:216-224 | after a recovery the next step misses every result it lists from a step before the recovered one |
| `ChainOutcomes.ScheduleExactly` | internal/controller/agent_chain_controller.go:1340-1363 | a stored start is kept; without one the schedule is at the last deadline come since creation and initial delay |
| `ChainOutcomes.BudgetExactly` | internal/controller/agent_chain_controller.go:847-884 | the budget is used up exactly if that many instances have a first child created on this day |
| `ChainOutcomes.UnwantedRests` | internal/controller/agent_chain_controller.go:311-386 | an instance neither requested nor due with budget left and no backoff is not started, and its due time is kept or moved to the end of the backoff |
| `ChainOutcomes.WantedStarts` | internal/controller/agent_chain_controller.go:388-474 | a wanted instance starts with the first step under the current generation and workflow, is blocked by a run of another one, and sets the next start and the used token |
| `ChainOutcomes.OrphanRecovers` | internal/controller/agent_chain_controller.go:173-232 | with nothing active the only unfinished child becomes active under its own generation and workflow, with the schedule at its next deadline |
| `ChainOutcomes.OrphansBlock` | internal/controller/agent_chain_controller.go:232-245 | two unfinished children with nothing active block the chain |
| `ChainOutcomes.GateExactly` | internal/controller/agent_chain_controller.go:1172-1210 | a gate is open exactly to the run of the step before it with a listed phase, or success, and a listed decision |
| `ChainOutcomes.CompletionExactly` | internal/controller/agent_chain_controller.go:1212-1226 | a workflow is complete exactly if its last run succeeded with a listed decision |
| `ChainOutcomes.ApplicationExactly` | internal/controller/agent_chain_controller.go:1133-1160 | the application is the one that all references that are not blank name |
| `ChainTheorems.ForbidSafety` | internal/controller/agent_chain_controller.go:173-245 | in every run of reconciles, edits, cancels, child progress, deletions and crashes a chain owns at most one unfinished child |
| `ChainTheorems.WorkflowFrozen` | internal/controller/agent_chain_controller.go:391-432 | in every run the children of one instance that exist share generation and workflow, and no two are of the same step |
| `ChainHistory.InstanceFrozen` | internal/controller/agent_chain_controller.go:391-432 | all children ever created for an instance, kept or deleted since, have one generation and workflow in every run that deletes no child of that instance while the chain owns it |
| `ChainExamples.DeletedChildThaws` | internal/controller/agent_chain_controller.go:391-432 | a run that deletes the finished child of an instance, edits the chain and uses the start token again: the same step of the same instance is created under another generation |
| `ChainTheorems.DrainedWhenGone` | internal/controller/agent_chain_controller.go:58-71 | in every run, once the chain object is gone no child of it is unfinished |
| `ChainTheorems.CreatedUnderFinalizer` | internal/controller/agent_chain_controller.go:58-163 | in every run a child is created only while the finalizer is in place, by a reconcile that read a chain neither being deleted nor suspended, with its application not paused |
| `ChainTheorems.NoneAfterDeletion` | internal/controller/agent_chain_controller.go:58-81 | no child is created after deletion was requested, in every run whose deletions do not come between a read and what the reconcile does with it |
| `ChainTheorems.LateDeletionCreates` | internal/controller/agent_chain_controller.go:58-81 | a deletion that does come in between never stops the creation |
| `ChainExamples.CreatedAfterDeletion` | internal/controller/agent_chain_controller.go:58-81 | a run in which a child is created under a chain being deleted |
| `ChainChildren.CreatesOnlyIf` | internal/controller/agent_chain_controller.go:53-475 | a reconcile creates a child only to advance behind an open gate or to start a wanted instance, of a chain neither suspended nor paused |
| `ChainChildren.SuspensionFreezes` | internal/controller/agent_chain_controller.go:107-163 | over any stretch of any run in which every reconcile reads a suspended chain no child is created and the status changes in its phase only |
| `ChainChildren.ChildrenProper` | internal/controller/agent_chain_controller.go:760-845 | in every run every child carries the template of its step, the application of its workflow and the time that its instance and step call for |
| `ChainChildren.ResultsFromSiblings` | internal/controller/agent_chain_controller.go:645-661 | in every run each result a new step receives is the output of the chain's own child of the named step and the same instance |
| `ChainChildren.BudgetKept` | internal/controller/agent_chain_controller.go:354-367 | in every run an automatic instance is started only on a day with fewer started instances than the budget allows |
| `ChainHistory.StepsFormPrefix` | internal/controller/agent_chain_controller.go:590-696 | whenever a step was created, every earlier step of the workflow had been created before for the same instance, generation and workflow |
| `ChainHistory.StepsGated` | internal/controller/agent_chain_controller.go:590-618 | every later step was created on a terminal run of the step before it, of the same instance and workflow, that matched its gate |
| `ChainHistory.ChildrenRecorded` | internal/controller/agent_chain_controller.go:760-845 | no owned child exists that was not created in this way |
| `ChainCancellation.CancelledGetsNoSuccessor` | internal/controller/agent_chain_controller.go:249-292 | while a cancelled instance stays active no child is created and the active child does not change |
| `ChainRelease.TightExactly` | internal/controller/agent_chain_controller.go:173-232 | in every run each unfinished child of an instance is, or is about to be recorded as, the active one if and only if no crash drops a status write that records an unfinished child of it the chain does not have as active |
| `ChainRelease.ReturnsOnlyBy` | internal/controller/agent_chain_controller.go:173-330 | in every run an instance that is not active becomes so only by a reconcile that read a request for it or recovers its unfinished child |
| `ChainRelease.ReleasedForGood` | internal/controller/agent_chain_controller.go:249-330 | in every run whose crashes drop no such write, an instance that is not active, and that no reconcile reads a request for, never becomes active again and gets no further child |
| `RecoveryExamples.CancelledInstanceReturns` | internal/controller/agent_chain_controller.go:173-292 | a run of a two-step chain: the second child is created, the crash drops its record, the instance is cancelled and released, and a reconcile makes it active again unasked |
| `ChainExamples.ReusedTokenRun` | internal/controller/agent_chain_controller.go:311-330 | a run in which a start token is used again after another one, and one reconcile makes its released instance active again on its old child |
| `CadenceTheorems.CadenceIncreases` | internal/controller/agent_chain_controller.go:311-330 | in every run with a valid spec and fixed cadence fields the due times of distinct automatic instances strictly increase, across crash recovery |
| `CadenceTheorems.StartedWhenDue` | internal/controller/agent_chain_controller.go:327-330 | an automatic instance is created only by a reconcile that read the clock at or after its due time |
| `CadenceTheorems.InvalidSpecForgets` | internal/controller/agent_chain_controller.go:88-105 | reconciling an invalid spec clears the stored schedule and nothing else but the phase |
| `CadenceTheorems.ForgottenStart` | internal/controller/agent_chain_controller.go:1340-1363 | after that the next automatic start is due later than an earlier one if and only if a deadline counted from creation has passed in between |
| `ChainExamples.ForgottenScheduleRewinds` | internal/controller/agent_chain_controller.go:88-105 | a run: started by hand at 7 and as due at 17, then a spec invalid for one reconcile, then the instance due at 10 |

## Left out

- Thread titles, list and lookup reads, and the order in which pending turns are listed: they copy stored values and change nothing, and no operation modelled here depends on their order.
- Metadata size limits and nested JSON: metadata is a map from field names to text, or malformed.
- Byte lengths of non-ASCII text, Unicode white space and case folding: strings are sequences of characters, trimming knows blanks, tabs and line ends, and folding is ASCII.
- 32-bit and 64-bit wrap-around of counters and sequences: numbers are unbounded.
- The unique indexes of the database and its thread rows: of its transactions the locks, the turn rows and the message numbers are modelled, and a standing-thread transaction only takes its locks.
- Truncation of event fields, condition messages, summaries, requeue intervals and prompt text other than which ancestor results a step receives; a source is looked up by its step name, not by the label form of it.
- Detaching runs from owner references, application pause lookup (a parameter), the trigger watchers' matching rules and default objects.
- Label and annotation edits on child runs: a child's labels are taken to agree with its spec.
- Two controllers at once after a lost leader lease, and several workers on one kind.
- Sub-second parts of times.
- The agent-run controller itself, archive and retention, authentication sessions, command-line tools: other protocols or plain plumbing.
