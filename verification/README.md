# A verified model of the peer bridge's durable protocols

The bridge keeps three kinds of durable state: an *inbox* of received peer messages and memory
pointers, a *notification journal* that turns inbox rows into bounded provider calls, and a
*shared memory log* that many readers follow. One thread, the *database worker*, owns each store.
This project models those protocols in Dafny and proves what they promise over every run: every
interleaving of requests, every crash between transactions, every cancellation, every snapshot
that went stale while it was held.

A SQLite table is a map, a `transaction()` is an update that commits or leaves everything as it
was, the clock is an integer, and the provider is an arbitrary answer. Each store appears twice:

* as data, where every transaction is a function from the stored state to what it commits. The
  whole-run theorems are about these functions; and
* as a class whose methods change the tables step by step, in loops, as the program does. Each
  method is proved to end exactly where its function says, raising included.

What a transaction means is stated apart from how it is written: the `*Effects` modules say, for
every state and every argument, when it is refused and with what, what it leaves in every row it
touches, and that it touches nothing else.

| files | what they hold |
|---|---|
| `Common` | options, the 63-bit sequence ceiling, the least element of a set |
| `JournalModel`, `JournalEffects`, `JournalProofs`, `JournalRuns`, `JournalHistory`, `JournalStore` | the journal's transactions; when each commits and what it does to every row; its selection and frontier; validation and accounting; whole runs with a ghost history; the class |
| `Inbox`, `InboxEffects`, `InboxHistory`, `InboxStore` | the inbox's requests; what each does to the tables; every sequence of them; the class |
| `InboxSource`, `SourceEffects`, `SourceProofs` | point-in-time reads of the inbox, as functions and as methods; what they accept; what an honest inbox shows |
| `Notifier`, `NotifierData`, `NotifierSteps`, `NotifierLoop`, `NotifierSeeding`, `NotifierWorld`, `NotifierGuarantees` | inbox, journal, worker queue and delivery loop as one state machine with crashes and cancellation; its invariant; its guarantees |
| `NotificationModel`, `NotificationEffects`, `NotificationStore` | the worker's jobs as functions; what each brings about; `NotificationState` as methods over the journal object |
| `DeliveryLoop`, `DeliveryEffects`, `NotifierPass`, `NotifierProgress` | one pass of `DeliveryLoop.step` as a method; what a pass brings about; that it is a run of the whole system; that it goes on |
| `Migration`, `MigrationEffects`, `MigrationProofs`, `MigrationGuarantees`, `MigrationStore` | bootstrap, activation and rebuild, one write at a time; what each step decides and writes; crash consistency; the constructor as a method |
| `Legacy`, `LegacyEffects` | the compatibility notifier and its checkpoint; what each of its steps does |
| `Worker`, `WorkerEffects`, `WorkerStore` | the two-queue executor as lock-protected steps; what each does; the class |
| `MemoryModel`, `MemoryEffects`, `MemoryRuns`, `MemoryStore`, `MemoryService` | the memory log's transactions; what each does to the tables; every run of the service; the class; that its requests are such runs |
| `MemoryLog`, `MemoryIndex`, `MemoryBudget`, `MemoryReserve`, `MemoryRetry`, `MemoryExpiry`, `MemorySync`, `MemoryReaders`, `MemoryFreeze` | liveness and time travel, the search index, the byte budget, the reserve, idempotent retries, batched expiry, the sync invariant, what readers can rely on, choosing a snapshot |

`dafny verify dfyconfig.toml` checks all of it.

## Where the code needs care

* A restart on a capable bridge goes through exactly when the inbox's evidence is absent, is the
  marker's own nonce, or is the nonce the marker says it replaces
  (`MigrationGuarantees.RestartSucceeds` states the condition, both ways). Bootstrap, activation,
  lost replies and rebuilds keep that condition as long as a rebuild begins only after the requests
  of earlier rebuilds have arrived or died (`MigrationGuarantees.EveryCrashPointRestarts`). A
  request that arrives later than that can break it, and the next restart is refused. It may be the
  request of an abandoned rebuild, arriving after the next rebuild has begun
  (`MigrationGuarantees.LateRequestBlocksRestart`), or the plain request of a journal lost before it
  was activated, arriving after a rebuild has begun with no evidence to name
  (`MigrationGuarantees.LatePlainBlocksRestart`). Both have a run that gets there from nothing
  (`MigrationGuarantees.LateRequestHappens`, `MigrationGuarantees.LatePlainHappens`).
* A note is admitted by the size of a probe encoded with placeholder sequence, time and links, so an
  admitted row can still exceed a page. Deltas make progress exactly when the first row fits;
  `MemoryReaders.DeltasAreConsecutive` states the refusal and its condition.
* Counters saturate. The ledger is therefore proved with unbounded ghost totals, and the stored
  counters are proved to be those totals since the last health acknowledgement, capped.
* A snapshot page asked for with a negative token starts at the first item, because SQLite treats a
  negative offset as zero, but still reports `token + count` as the next token and that there is more;
  `MemorySync.PageHands` states what is handed over for every token.

## Model

| member | source | states |
|---|---|---|
| JournalProofs.AdmitEffect | notification_journal.py:313-329 | admitted records become fresh pending rows with their source; known rows are untouched; work stays within its limit |
| JournalProofs.AdmitRefusal | notification_journal.py:313-329 | records that agree with each other and with the admitted rows are refused only for capacity |
| JournalProofs.AdmitRoom | notification_journal.py:313-329 | records that fit into what room is left are never refused for capacity |
| JournalProofs.AdvanceEffect | notification_journal.py:331-347 | the frontier never passes the enumerated range or a waiting row; exactly the settled rows it passed are retired |
| JournalProofs.FrontierMaximal | notification_journal.py:331-347 | a position is within the new frontier if and only if it is enumerated and before every waiting row |
| JournalProofs.AdvanceCounts | notification_journal.py:331-347 | each retired row is counted once, under what it ended as |
| JournalProofs.ReserveSurvives | notification_journal.py:393-417 | a reservation passes validation; its members are exactly the requested rows, each eligible at that time, on an idle journal |
| JournalProofs.TakePeersPrefix | notification_journal.py:377-391 | peers are taken in ascending order without gaps |
| JournalProofs.DueIsReservable | notification_journal.py:377-417 | on an activated, seeded, idle journal the due group is one `reserve` accepts, and a prefix of the eligible pending rows, so backoff never reorders notices; none is due if and only if no row is eligible or the first still backs off |
| JournalRuns.ValidationNeverFails | notification_journal.py:205-306 | validation is inductive: from a valid state no transaction with well-formed input fails the closing check, and every commit is valid |
| JournalRuns.ApplyKeepsIdentity | notification_journal.py:79-88 | no transaction changes the journal's identity; only confirmation activates it |
| JournalRuns.DraftGood | notification_journal.py:313-347 | per transaction: which rows may appear, change or leave, that positions never retreat, and that rows gained, kept, counted and dropped add up |
| JournalHistory.RunKeepsStory | notification_journal.py:246-507 | over every run, what the tables say of each sequence agrees with everything that ever happened to it |
| JournalHistory.LedgerBalances | notification_journal.py:308-364 | rows ever admitted equal rows in work plus counted delivered, acknowledged, obsolete and dropped; attempts equal reservation sizes; each ignored frame is counted once; stored counters are the totals since acknowledged, capped |
| JournalHistory.FrontierStep | notification_journal.py:331-375 | `imported <= scan <= enumerated`, none retreats; the frontier stops short only at a waiting row and no waiting row is crossed; no settled row stays at or below it |
| JournalHistory.FrontierMonotone | notification_journal.py:331-364 | scan and enumerated positions are monotone over every run |
| JournalHistory.DeliveredForever | notification_journal.py:419-443 | a recorded delivery stays recorded over every run |
| JournalHistory.NeverSentAgain | notification_journal.py:393-443 | after a committed delivered outcome no later transaction of any run reserves that sequence |
| JournalHistory.AttemptBudget | notification_journal.py:393-461 | at most three reservations of a sequence between operator retries |
| JournalHistory.FailedIsHonest | notification_journal.py:419-461 | a row is failed only after at least three definite failures and nothing else in its whole lifetime, across retries |
| JournalHistory.NothingLost | notification_journal.py:463-507 | with acknowledgements available no row is ever given up as unaccounted for |
| JournalHistory.UnknownIsAmbiguous | notification_journal.py:419-507 | with acknowledgements available a row is unknown only if some attempt was ambiguous |
| JournalStore.Journal.Finish | notification_journal.py:205-216 | the transaction commits the validated tables or restores all of them |
| JournalStore.Journal.Count | notification_journal.py:308-311 | the counter saturates at the 63-bit ceiling and stays bounded |
| JournalStore.Journal.Add | notification_journal.py:313-329 | the loop over records admits exactly what the admission function does, or reports its error |
| JournalStore.Journal.Retire | notification_journal.py:341-347 | the loop removes exactly the settled rows behind the frontier and counts each |
| JournalStore.Journal.Move | notification_journal.py:331-347 | scan, enumerated, rows and counters end where the frontier function says |
| JournalStore.Journal.Ingest | notification_journal.py:349-364 | a scan is admitted, its skipped frames counted once and the frontier moved, or nothing changes |
| JournalStore.Journal.SeedPointers | notification_journal.py:366-375 | pointers are admitted once, or nothing changes; reports whether this call did it |
| JournalStore.Journal.Reserve | notification_journal.py:393-417 | all requested rows are reserved and the attempt recorded, or nothing changes |
| JournalStore.Journal.Resolve | notification_journal.py:419-443 | every member gets the outcome's disposition, exhaustion is counted, the attempt closes and the frontier moves, or nothing changes |
| JournalStore.Journal.RecoverAttempt | notification_journal.py:445-449 | an open attempt is settled as ambiguous; reports whether there was one |
| JournalStore.Journal.Retry | notification_journal.py:451-461 | exhausted rows get a fresh budget while uncertainty is kept, or nothing changes |
| JournalStore.Journal.Reconcile | notification_journal.py:463-507 | the loop over rows closes, keeps or drops each as judged, or raises the first contradiction and changes nothing |
| JournalStore.Journal.JudgeRows | notification_journal.py:470-502 | the first contradicting row in sequence order decides the error; otherwise every row is judged and the lost ones returned |
| JournalStore.Journal.ConfirmActivation | notification_journal.py:510-515 | activation is recorded only on evidence of this target and nonce |
| JournalStore.Journal.AcknowledgeHealth | notification_journal.py:517-524 | the counters are returned and cleared, and a history loss marked acknowledged |
| JournalStore.Journal.DueNow | notification_journal.py:377-391 | the selection loop returns the due group, and a bad clock is refused |
| JournalEffects.ReserveDecided | notification_journal.py:393-417 | a reservation commits if and only if it asks for one to ten distinct free rows, one pointer or messages only, on an activated, seeded, idle journal; otherwise which error |
| JournalEffects.ReserveEffect | notification_journal.py:393-417 | exactly the rows asked for become reserved with one more attempt under this time; nothing else changes |
| JournalEffects.ResolveDecided | notification_journal.py:419-443 | a resolution commits if and only if an attempt is open and the clock is in range |
| JournalEffects.ResolveEffect | notification_journal.py:419-443 | row by row: delivered stays delivered; a failure waits thirty seconds after the first attempt and sixty after the second, and ends failed at the third; an ambiguity is remembered and ends unknown; other rows stay |
| JournalEffects.ResolveCloses | notification_journal.py:419-443 | the attempt closes and the frontier moves to the first waiting row or the enumerated end |
| JournalEffects.ResolveCounts | notification_journal.py:419-443 | rows that end exhausted are counted failed or unknown by what they end as, and nothing is counted twice |
| JournalEffects.RecoverEffect | notification_journal.py:445-449 | an open attempt is settled as an ambiguous outcome, and where none is open nothing changes |
| JournalEffects.RetryEffect | notification_journal.py:451-461 | a retry commits if and only if it names one to ten distinct exhausted rows; they are pending with no attempts, still uncertain if they were |
| JournalEffects.ReconcileDecided | notification_journal.py:463-499 | a reconciliation commits if and only if the journal is idle and the snapshot accounts for every row; the first row it does not account for decides the error |
| JournalEffects.IndexHasLast | notification_journal.py:463-470 | of records that share a sequence the last one counts |
| JournalEffects.ReconcileEffect | notification_journal.py:463-507 | every row meets the fate the snapshot gives it, and leaves only once closed and behind the frontier, or given up by a bridge without acknowledgements |
| JournalEffects.ReconcileCloses | notification_journal.py:463-507 | reconciling closes no attempt and leaves both positions where the frontier says |
| JournalEffects.IngestDecided | notification_journal.py:349-364 | a scan is accepted if and only if its shape is right, it contradicts no row and its new rows fit |
| JournalEffects.IngestAdmits | notification_journal.py:349-364 | a well-formed scan that agrees with the rows is refused only for room, and not while it fits |
| JournalEffects.IngestEffect | notification_journal.py:349-364 | each new record above the old frontier becomes a fresh pending row or has been passed; no other row appears and none is changed |
| JournalEffects.IngestCounts | notification_journal.py:349-364 | each frame skipped above the enumerated position is counted once |
| JournalEffects.SeedEffect | notification_journal.py:366-375 | pointers are admitted once, as fresh pending rows, also below the frontier |
| JournalEffects.ConfirmEffect | notification_journal.py:510-515 | activation is recorded if and only if target and nonce are the journal's own, and nothing else changes |
| JournalEffects.HealthEffect | notification_journal.py:517-524 | the counters go to zero and a lost history is marked seen; nothing else changes |
| JournalEffects.TakePeersLongest | notification_journal.py:377-391 | messages are taken until ten, a pointer, or a row that still backs off |
| JournalEffects.DueIsLongest | notification_journal.py:377-391 | the due group is the first eligible row alone if it is a pointer, and else as many messages as ten and the eligible prefix allow |
| InboxHistory.PerformCoherent | inbox_schema.py:126-178 | every inbox request keeps each row above the watermark and within the allocated head, at most sixteen bindings under well-formed keys, and at most one pointer per binding, minted for its current instance |
| InboxHistory.LeavesGone | memory_bindings.py:172-208 | a row leaves only because the watermark covers it or, being a pointer, because its lifetime ended or a newer one replaced it |
| InboxHistory.StaysGone | memory_bindings.py:161-208 | that reason stays true forever, also after the same key is bound again |
| InboxHistory.FollowKept | inbox_schema.py:31-38 | sequences are never reused and instances never minted twice, over one request |
| InboxHistory.LogGains | inbox_schema.py:31-38 | a message is stored as the kind it is and a refresh as a pointer of its binding's current instance, each under the next sequence; no other request adds a row |
| InboxHistory.InboxStaysHonest | bridge.py:87-105 | the same over every sequence of requests from an empty inbox |
| InboxStore.Store.Insert | inbox_schema.py:31-38 | the new row follows the highest sequence ever allocated; an exhausted range refuses and changes nothing |
| InboxStore.Store.StoreMessage | bridge.py:87-105 | a message is stored, or a full inbox refuses it |
| InboxStore.Store.Acknowledge | inbox_schema.py:141-150 | the loop removes rows up to the watermark; the state is the one `InboxEffects.AcknowledgeEffect` pins for every position asked for |
| InboxStore.Store.Bind | memory_bindings.py:161-169 | a fresh binding with no pointer; an existing key is answered unchanged, and past the limit a new one is refused |
| InboxStore.Store.Unbind | memory_bindings.py:172-179 | the binding goes, and every pointer row of its lifetime with it |
| InboxStore.Store.Refresh | memory_bindings.py:182-208 | the state is the one `InboxEffects.RefreshEffect` and `RefreshFlags` pin: recorded, and one new pointer for anything new |
| InboxStore.Store.ClearAnomalies | memory_bindings.py:211-215 | the anomalies of the binding are returned and cleared |
| InboxStore.Store.Activate | inbox_schema.py:153-178 | the evidence is set once, repeated idempotently, and replaced only from the nonce it names |
| InboxEffects.StoreEffect | bridge.py:87-105 | refused if and only if a thousand messages wait or no sequence is left; stored as a message of the sender's kind under the next sequence, nothing else changed |
| InboxEffects.AcknowledgeEffect | inbox_schema.py:141-150 | the watermark becomes the larger of itself and the position asked for, no farther than the head; exactly the rows up to that position go; head, bindings and activation stay |
| InboxEffects.BindEffect | memory_bindings.py:161-169 | refused if and only if the key is new and sixteen are bound; a new binding has observed nothing |
| InboxEffects.UnbindEffect | memory_bindings.py:172-179 | exactly the binding and its pointers go |
| InboxEffects.RefreshRefused | memory_bindings.py:182-208 | each refusal of a refresh and the condition it stands for, in their order |
| InboxEffects.RefreshEffect | memory_bindings.py:194-208 | the observation is recorded; if it is new, the first one included, exactly one pointer of the binding is left, at the new head and for the current instance, and else nothing changes |
| InboxEffects.RefreshFlags | memory_bindings.py:196-201 | replaced is raised if and only if another store was seen, regressed if and only if the same store with a lower head |
| InboxEffects.ClearEffect | memory_bindings.py:211-215 | both flags are lowered and nothing else changes |
| InboxEffects.ActivateEffect | inbox_schema.py:153-178 | activation is accepted if and only if it is first, repeated, or a confirmed rebuild of this target that names the nonce it replaces |
| InboxSource.TakeSnapshot | notification_source.py:52-86 | watermark, evidence, bindings and pointers of one instant, with each capability's defaults and refusals |
| InboxSource.TakeScan | notification_source.py:105-128 | rows above a position in order, split into records and ignored frames, within the limit |
| InboxSource.TakeSeed | notification_source.py:130-136 | every current pointer, in order |
| InboxSource.TakeRetained | notification_source.py:138-157 | batches of at most 128 lookups together answer the whole question |
| SourceProofs.CollectHonest | notification_source.py:71-81 | collecting a coherent inbox's pointers never meets a duplicate or a foreign instance |
| SourceProofs.SnapshotHonest | notification_source.py:52-86 | a coherent inbox always yields a snapshot, and it lists each binding's current pointer |
| SourceProofs.ScanHonest | notification_source.py:105-128 | a scan hands over every row it passed, reaches no farther than the head, and stops only at its limit |
| SourceProofs.SeedHonest | notification_source.py:130-136 | exactly the pointer rows, at most sixteen |
| SourceProofs.RetainedHonest | notification_source.py:138-157 | asked about some rows, the source names exactly those it still holds, as they are |
| SourceEffects.CollectExact | notification_source.py:71-81 | pointers of any inbox are accepted if and only if each is well formed, of its binding's current lifetime, and alone of its binding |
| SourceEffects.SnapshotAccepts | notification_source.py:52-86 | any inbox can be read if and only if it holds at most sixteen bindings and pointers and such pointers only |
| SourceEffects.SnapshotShows | notification_source.py:52-86 | what each capability adds to the view, and what is missing without it |
| SourceEffects.ReadingAs | notification_source.py:88-103 | without the pointer capability every row reads as a message and there is nothing to seed |
| SourceEffects.AskedRightly | notification_source.py:138-157 | only distinct positions in range are asked for, at most two thousand and forty-eight |
| SourceEffects.RetainedReads | notification_source.py:147-157 | of any inbox that can be read, exactly the rows asked for come back, in order, as this reader sees them |
| NotifierData.JudgeHonest | notification_journal.py:463-499 | an honest snapshot never contradicts a journal row: a missing row is acknowledged or a superseded pointer |
| NotifierData.RetainedHeld | notification_state.py:63-65 | the snapshot reconcile takes is readable and names every row it still holds |
| NotifierData.ScanReads | notification_state.py:67-80 | the scan an admission takes is readable and agrees with everything ever stored |
| NotifierSteps.DataStep | notification_state.py:55-97 | every transaction on a snapshot of this inbox, however old, keeps journal and inbox in agreement |
| NotifierLoop.EndReady | notification_delivery.py:25-27 | a finished ready job leaves no attempt, and nothing queued behind it can have opened one |
| NotifierLoop.EndReserve | notification_delivery.py:33-37 | a finished reservation opened exactly the attempt its rows name |
| NotifierLoop.EndResolve | notification_delivery.py:40-41 | a finished resolution closed its attempt; a failed one left it |
| NotifierSeeding.JobAdmitsNothing | notification_state.py:55-61 | on an empty journal no job but an admission leaves a row behind, unless it is the seeding itself |
| NotifierSeeding.DoSown | notification_state.py:55-61 | every act keeps it so that until pointers are seeded the journal is empty, the loop has not started and no admission is queued |
| NotifierWorld.JobData | notification_state.py:55-97 | every stage of every job keeps the agreement, and what a job already read stays usable while the inbox moves on |
| NotifierWorld.ActReachable | notification_delivery.py:20-44 | the whole system's invariant survives every act: inbox requests, work, faults, cancellation, crash, restart, operator jobs |
| NotifierWorld.AlwaysReachable | notification_delivery.py:20-44 | and so every run |
| NotifierGuarantees.NoSilentLoss | notification_journal.py:313-364 | every stored user message or pointer above the imported position is waiting to be scanned in the inbox, in work, delivered, acknowledged by the participant after it was stored, or a pointer whose lifetime ended or that a newer one replaced |
| NotifierGuarantees.WatermarkIsAcknowledged | inbox_schema.py:141-150 | over every run the watermark covers a stored row if and only if some acknowledgement made after it was stored asked for its position or a later one |
| NotifierGuarantees.ClosedForCause | notification_journal.py:463-507 | a row is acknowledged only if the participant acknowledged it, obsolete only when superseded or acknowledged, delivered if and only if a delivered outcome committed, unknown only after an ambiguous one |
| NotifierGuarantees.HonestSourceNeverRefused | notification_source.py:52-86 | in every reachable world the inbox reads without error, reconcile never raises source missing or changed, whatever happened since its snapshot, and seeding is never refused at all |
| NotifierGuarantees.CallsAreBacked | notification_delivery.py:33-39 | each provider call stands on a committed reservation of exactly its rows, none ever delivered, within the budget |
| NotifierGuarantees.CallBudget | notification_delivery.py:20-44 | at most three provider calls for a sequence between operator retries, under crash and cancellation anywhere |
| NotifierGuarantees.AnswersAreAttributed | notification_delivery.py:38-41 | an answer is recorded against the rows of its own call even when its caller was cancelled |
| NotifierGuarantees.CleanLoopHasNoAttempt | notification_delivery.py:25-27 | a started loop with nothing unresolved has no attempt open |
| NotificationStore.NotificationState.DoReconcile | notification_state.py:63-65 | one snapshot of exactly the journal's rows, then one transaction; validity kept either way |
| NotificationStore.NotificationState.DoReady | notification_state.py:55-61 | an open attempt is recovered first, then pointers are seeded once, stopping at the first failure; afterwards none is open and they are |
| NotificationStore.NotificationState.DoAdmit | notification_state.py:69-77 | a full journal is reported and nothing is admitted, any other refusal raises; an admission brings in everything its scan reaches |
| NotificationStore.NotificationState.DoPrepare | notification_state.py:67-80 | reconcile, admission and the due choice, over two readings of the inbox; unless refused for capacity everything a scan of the second reading reaches is in the journal afterwards, and what is returned is due |
| NotificationStore.NotificationState.DoReserveNext | notification_state.py:82-87 | reconciles again before reserving: what is reserved is the next group, and nothing released meanwhile |
| NotificationStore.NotificationState.DoRetry | notification_state.py:93-97 | reconciles before reviving: exactly what is named is revived, and nothing already released |
| NotificationStore.NotificationState.DoConfirm | notification_state.py:47-53 | activation is read back from the inbox before the journal records it |
| NotificationStore.JobsAsMethods | notification_state.py:55-97 | each method, uninterrupted, is the multi-stage job of the whole-system model |
| NotificationStore.ConfirmReads | notification_state.py:47-53 | activation is confirmed if and only if the inbox, read back, holds that very evidence and it is the journal's own |
| NotificationEffects.ScanGoes | notification_source.py:105-128 | a scan moves on wherever anything lies above, shows all of it when that is fewer than 128 rows, and else 128 of them |
| NotificationEffects.IngestReaches | notification_state.py:69-77 | a scan that is admitted brings every noticed row it passed into the journal and moves the enumerated position to where the scan ended |
| NotificationEffects.AdmitReaches | notification_state.py:69-77 | and so does an admission, unless 128 more rows would not fit |
| NotificationEffects.ReconcileUpholds | notification_state.py:63-65 | after reconciling, an open row lies above the watermark and is still in the inbox as it was; pending rows are unchanged |
| NotificationEffects.PrepareReaches | notification_state.py:67-80 | a prepare that succeeds has scanned its second reading as far as a scan goes and brought in what that holds, or is too full for another scan, and reports what is then due |
| NotificationEffects.PrepareStages | notification_state.py:67-80 | interleaved with anything, a preparing job goes from reconciling through scanning and admitting to its answer and skips none of them |
| NotificationEffects.PrepareGoesOn | notification_state.py:67-80 | once reconciled it gets to scan an honest inbox, and a scan admitted or refused for room does not end it |
| NotificationEffects.ReserveTakesNext | notification_state.py:82-87 | what is reserved is the next group there is: the first eligible pointer, or messages in order, as many as may go |
| NotificationEffects.ReserveUpheld | notification_state.py:82-87 | and the inbox, as it is now, has released none of it |
| NotificationEffects.ReadySeeds | notification_state.py:55-61 | after becoming ready no attempt is open and every pointer the inbox shows has been seeded |
| NotificationEffects.RetryRevives | notification_state.py:93-97 | a retry revives exactly what it names, and nothing the inbox has released |
| DeliveryLoop.Loop.Step | notification_delivery.py:20-44 | journal, flags, rows called with and ending are those of ready, prepare, reserve, call and resolve in turn, with cancellation at any of the waits, the job running all the same or not; the provider is called only on an open attempt of exactly its rows; whenever an attempt may be open the next pass recovers first; one pass at a time |
| DeliveryEffects.TurnPrepares | notification_delivery.py:25-30 | a pass that calls the provider, or finds nothing to call it with, has settled any doubt, seeded and prepared |
| DeliveryEffects.TurnCalls | notification_delivery.py:31-39 | the provider is called with the next group, held by the open attempt exactly, and with none the inbox has released |
| DeliveryEffects.TurnRests | notification_delivery.py:28-37 | a pass that ends with nothing due could not have called with anything |
| DeliveryEffects.TurnEnds | notification_delivery.py:20-44 | left alone a pass fails, finds nothing due, or records the provider's own answer on the journal it called from |
| NotifierProgress.TurnGoes | notification_delivery.py:20-44 | in any journal that agrees with its inbox and is activated, a pass left alone completes or finds nothing due |
| NotifierProgress.PassesProgress | notification_delivery.py:20-44 | in every reachable world with an idle worker and an activated journal, a pass left alone scans what is there and then calls with the next group and records the answer, or no group is owed; no job fails |
| NotifierPass.PassIsARun | notification_delivery.py:20-44 | one pass, with the inbox changing between its readings and any of its waits cancelled or lost, is a run of the whole system that ends in the same journal and the same flags |
| MigrationProofs.ActKept | notification_migration.py:79-166 | markers, files, evidence and requests in flight stay consistent through every write, crash, landing and rebuild |
| MigrationGuarantees.GateDecides | notification_migration.py:149-166 | on a capable bridge the gate passes if and only if the evidence is absent, the marker's own, or what its rebuild replaces, and asks for the marker's nonce |
| MigrationGuarantees.RestartSucceeds | notification_migration.py:79-166 | past the first marker a start on a capable bridge succeeds if and only if the gate's evidence condition holds, keeping nonce, position and journal |
| MigrationGuarantees.EveryCrashPointRestarts | notification_migration.py:79-142 | in every run whose rebuilds wait for earlier requests, every crash point starts again |
| MigrationGuarantees.LateRequestBlocksRestart | notification_migration.py:175-202 | a late request of an abandoned rebuild blocks the next restart |
| MigrationGuarantees.LateRequestHappens | inbox_schema.py:153-178 | such a run exists from before any migration |
| MigrationGuarantees.LatePlainBlocksRestart | notification_migration.py:175-202 | a late plain request of a lost journal blocks the next restart when the rebuild began without evidence |
| MigrationGuarantees.LatePlainHappens | inbox_schema.py:153-178 | such a run exists from before any migration |
| MigrationGuarantees.ActivationAgrees | notification_state.py:47-53 | whenever the stored journal is activated the inbox's evidence is its target and nonce, through lost replies and rebuilds |
| MigrationGuarantees.NeverRebootstrapped | notification_migration.py:94-126 | a stored journal changes only by its own transactions and goes only when its files do |
| MigrationGuarantees.CheckpointFrozen | notification_legacy.py:12-31 | once a marker exists the legacy notifier never runs again and its checkpoint never moves |
| MigrationGuarantees.IdentityKept | notification_migration.py:175-202 | only an explicit rebuild changes nonce, imported position or history mark |
| MigrationStore.Owner.Construct | notification_migration.py:79-142 | marker, storage, readiness and requirement are published in that order; the disk, and the request or refusal, are those of the stepwise model, also after a refusal; no start changes a stored journal or a published nonce, and a refused one leaves the checkpoint alone |
| MigrationEffects.MarkerEffect | notification_migration.py:16-34 | a marker is trusted if and only if it has its shape, names this target, and its phase goes with its history |
| MigrationEffects.FirstStartEffect | notification_migration.py:92-105 | without a marker a migration begins if and only if the bridge is capable and nothing else is there; it writes one marker, from the legacy checkpoint |
| MigrationEffects.LaterStartEffect | notification_migration.py:92-126 | with one, the marker and the presence of the file decide, and nothing is written |
| MigrationEffects.FileSteps | notification_migration.py:108-120 | a journal file is made once and never written over: it is adopted only if sound, the marker's own and without history |
| MigrationEffects.MarkerSteps | notification_migration.py:121-126 | declaring readiness changes the phase alone, and opening a journal writes nothing |
| MigrationEffects.GateEffect | notification_migration.py:149-166 | exactly which evidence passes the gate, on either kind of bridge, and what is then asked of the inbox |
| MigrationEffects.GateStep | notification_migration.py:127-133 | the checkpoint must agree unless history is lost, keeps its position and requires a journal from now on |
| MigrationEffects.RepairEffect | notification_migration.py:175-202 | what a rebuild needs, what it publishes, and that one already begun is resumed as it is |
| MigrationEffects.FirstStartSucceeds | notification_migration.py:79-142 | with nothing left behind a first start on a capable bridge goes through, and what it leaves on disk |
| MigrationEffects.IncapableStart | notification_migration.py:149-154 | on a bridge without the capability a finished migration starts if and only if its journal is sound, its own and activated |
| Legacy.SelectHonest | notification_legacy.py:55-59 | a selection passes over no owed message and moves on whenever it has rows |
| Legacy.CheckpointSkipsNothing | notification_legacy.py:61-95 | over every run with crashes, the checkpoint never passes a message neither delivered nor acknowledged |
| Legacy.LegacyState.DoReady | notification_legacy.py:39-49 | a group in flight is forgotten and held off for the delay |
| Legacy.LegacyState.DoPrepare | notification_legacy.py:61-68 | only a scan with nothing to notify moves the checkpoint |
| Legacy.LegacyState.DoReserveNext | notification_legacy.py:70-81 | one group in flight at a time, chosen from a second reading |
| Legacy.LegacyState.DoResolve | notification_legacy.py:83-95 | delivery saves the group's end, anything else holds off and keeps the checkpoint |
| LegacyEffects.SelectEffect | notification_legacy.py:55-59 | the group is the first ten rows of the scan, and the checkpoint may follow the scan only when that is all of it |
| LegacyEffects.ReadyEffect | notification_legacy.py:39-49 | a group in flight is forgotten and held off for thirty seconds; a checkpoint that went back on disk is refused |
| LegacyEffects.PrepareEffect | notification_legacy.py:61-68 | the checkpoint moves only over frames nobody is owed |
| LegacyEffects.ReserveEffect | notification_legacy.py:70-81 | what a second reading shows is put in flight, one group at a time |
| LegacyEffects.ResolveEffect | notification_legacy.py:83-95 | a delivered group moves the checkpoint to its end, any other outcome leaves it and waits thirty seconds |
| Worker.BoundedAndInOrder | database_worker.py:66-138 | queues stay within sixteen and two, each class runs first in first out, and no ordinary job is taken while a control job waits |
| Worker.SettledExactlyOnce | database_worker.py:66-126 | every accepted job is settled exactly once, through orderly close and fatal error alike |
| Worker.OrdinaryCloseRunsAll | database_worker.py:66-126 | an ordinary close runs every accepted job before the owner closes |
| Worker.AnsweredByItsJob | database_worker.py:81-118 | over every schedule a future is settled by how its own job ended, and only a job never run is turned away |
| Worker.NothingAcceptedAfterClosing | database_worker.py:128-143 | once closing starts nothing more is accepted |
| Worker.FailuresNameTheirFault | database_worker.py:83-100 | a worker failure names the latched fault; a plain value error latches none; a declared fault wins over the error's class |
| WorkerStore.DatabaseWorker.CallJob | database_worker.py:128-138 | a job is queued in its class, or refused when closing or full, without waiting |
| WorkerStore.DatabaseWorker.StopAcceptingJobs | database_worker.py:140-143 | closing is set and nothing else changes |
| WorkerStore.DatabaseWorker.Next | database_worker.py:72-80 | the control queue's head, else the ordinary one's, else leave when closing |
| WorkerStore.DatabaseWorker.Settle | database_worker.py:81-108 | the running job's future is settled and a fatal ending starts unwinding |
| WorkerStore.DatabaseWorker.DrainQueues | database_worker.py:113-118 | the loop refuses every queued job, control first, and empties both queues |
| WorkerStore.DatabaseWorker.Close | database_worker.py:119-126 | the owner closes last, and an unclean close is a failure |
| WorkerEffects.CallEffect | database_worker.py:128-138 | a job is accepted if and only if the executor is open and its own queue has room, at its end |
| WorkerEffects.TakeEffect | database_worker.py:76-80 | the oldest control job is taken, or the oldest ordinary one when there is none |
| WorkerEffects.FinishEffect | database_worker.py:81-107 | the running job's future alone is settled, by its ending and the fault that shows |
| WorkerEffects.LeaveEffect | database_worker.py:74-77 | the loop is left if and only if closing was asked for and nothing is queued or running |
| WorkerEffects.DrainEffect | database_worker.py:113-118 | every queued job is turned away and no other future is touched |
| WorkerEffects.CloseEffect | database_worker.py:119-126 | an unclean close is a failure |
| MemoryBudget.NoteGrowsByCharge | memory.py:927-963 | an appended note grows measured usage by exactly its charge |
| MemoryBudget.RegisterGrowth | memory.py:1459-1489 | a registration grows usage by its identity and fixed cost |
| MemoryBudget.FreezeGrowth | memory.py:1318-1374 | a frozen snapshot grows usage by at most its charge |
| MemoryBudget.AdmittedIsEnforced | memory.py:977-1042 | what admission accepts, enforcement at the end of the transaction never rejects |
| MemoryBudget.ExpireShrinks | memory.py:1044-1085 | expiry never increases usage |
| MemoryBudget.SweepShrinks | memory.py:1086-1104 | neither does retiring readers, retry records and snapshots |
| MemoryBudget.SweepCounts | memory.py:1097-1102 | readers and graves together never grow by retirement |
| MemoryBudget.RoomEffect | memory.py:1014-1042 | admission and enforcement in figures: five thousand entries and thirty-two mebibytes, the last sixty-four entries and half a mebibyte for withdrawals |
| MemoryBudget.CostEffect | memory.py:879-949 | what each row is measured at and each change charged, in the same units |
| MemoryBudget.UsageGrows | memory.py:879-914 | usage covers all five tables: an empty store uses nothing and one more row of any of them exactly its cost |
| MemoryBudget.ItemsAdd | memory.py:892 | a frozen list costs the sum of its items' bytes |
| MemoryReserve.BudgetsHold | memory.py:1014-1042 | every reachable state is within the entry, byte and consumer limits, and the reserve is still free as long as no withdrawal drew on it |
| MemoryReserve.NeverRolledBack | memory.py:950-989 | in every reachable state no admitted note, registration or snapshot is rolled back by the enforcement that ends its transaction |
| MemoryLog.LiveIsReplay | memory.py:1281-1293 | the live set at any earlier head, read from the recorded links, is what applying the notes in order up to it gives, less those whose lifetime ended |
| MemoryLog.RowsAreNotes | memory.py:1221-1256 | over every run a stored row is the note it was appended for, lifetime included; its revision counts the notes that lead back from it; it is linked to the first note that withdrew it, and its conflict is the one that came first |
| MemoryLog.TimeTravel | memory.py:1227-1256 | asked in any later state, the live set of an earlier head is what that state itself would have given |
| MemoryLog.LiveNowIsLiveAtHead | memory.py:1281-1293 | live now is live at the head |
| MemoryLog.NeverRevived | memory.py:1106-1120 | a replaced entry never becomes live again, even when its replacement is reclaimed |
| MemoryLog.NoHoles | memory.py:1106-1120 | every sequence above the floor and up to the head is present in every reachable state |
| MemoryIndex.TrustedIndexAgrees | memory.py:785-824 | in every reachable state a usable index holds exactly the stored bodies, and its mark is stale or the head |
| MemoryIndex.OpenedEffect | memory.py:799-808 | opening keeps an index only where the engine is usable and the mark is the head |
| MemoryIndex.BatchesIndexed | memory.py:1059-1085 | an expiry leaves the index right wherever it is trusted, however each batch went |
| MemoryIndex.DeletesArePresent | memory.py:826-837 | in every reachable state, at every batch of an expiry, what is deleted from a usable index is a posting that is there, with its very text |
| MemoryRetry.AtMostOnce | memory.py:1181-1220 | one key, deadline and content append at most once, over retries, crashes, expiry and reclamation |
| MemoryRetry.RepeatsAnswerTheFirst | memory.py:1181-1220 | a repeat returns the first append's sequence if and only if its arguments are in order and its deadline lies ahead, and is refused for the one or the other if not; other content or another deadline under a key still on record is a conflict |
| MemoryExpiry.BatchesAddUp | memory.py:1044-1085 | expiry in batches ends exactly where one removal of all lapsed rows would |
| MemoryExpiry.OneMoreBatch | memory.py:1061-1085 | expiry with one more batch is that batch on top of the others |
| MemoryExpiry.FallbackKeepsRows | memory.py:1059-1085 | giving the index up first changes neither rows nor floor |
| MemoryExpiry.ExpiryIsExact | memory.py:1044-1085 | exactly the lapsed rows go, and the floor covers each of them |
| MemorySync.RowsConsecutive | memory.py:1521-1534 | above the floor the rows after a cursor are the consecutive run that follows it |
| MemorySync.PageHands | memory.py:1536-1574 | a page is the frozen items from its token on; `more` holds exactly when items remain if the token is not negative, and always if it is |
| MemorySync.DeltaHands | memory.py:1302-1315 | a delta is a prefix of the run after the cursor, not empty unless the run is |
| MemorySync.SyncStep | memory.py:1502-1624 | the bookkeeping of cursors, issued positions and snapshots agrees with what every reader was sent, after every act |
| MemoryReaders.CursorCovered | memory.py:1576-1624 | `cursor <= issued <= head`, and every event up to the cursor was streamed to this reader or lies under a snapshot it fully paged and acknowledged |
| MemoryReaders.CursorIsAcknowledged | memory.py:1576-1624 | over every run a registered reader's cursor is the highest position it had an acknowledgement accepted for, by number or by a finished snapshot |
| MemoryReaders.CursorMonotone | memory.py:1576-1624 | a registered reader's cursor never moves back |
| MemoryReaders.DeltasAreConsecutive | memory.py:1521-1534 | a reader owing no snapshot gets exactly the run after its cursor; `more` and progress are exact; the only refusal is a first row too large for any page |
| MemoryReaders.FrozenListUnique | memory.py:1318-1374 | the list of a snapshot is determined by the live set: order by rank then newest first, tails capped per kind |
| MemoryReaders.PagesConcatenate | memory.py:1536-1574 | successive pages, through any interleaving, concatenate to the list fixed at freezing |
| MemoryReaders.FirstAckAfterAllPages | memory.py:1586-1608 | a first acknowledgement succeeds only after every position was sent to this reader, and moves it to the frozen head |
| MemoryReaders.IssuedMeansSent | memory.py:1536-1574 | every position below `issued` really went to the owner |
| MemoryFreeze.SortMembers | memory.py:1318-1374 | the sorted list has exactly the live members, in rank order then newest first |
| MemoryFreeze.SelectItems | memory.py:1318-1374 | the running counts keep exactly the newest of each capped kind |
| MemoryFreeze.ListShows | memory.py:1318-1374 | a frozen list shows a live entry unless twenty-five newer ones of its kind, ten for a status, come before it |
| MemoryFreeze.ListOrder | memory.py:1318-1374 | directives, decisions, gotchas, handoffs, findings and then statuses, the newest of each first |
| MemoryStore.SumOf | memory.py:879-914 | adding a table up row by row gives its sum, in any order |
| MemoryStore.FitPage | memory.py:1302-1315 | the longest prefix within the budget, or the report of a first row that can never fit |
| MemoryStore.ReclaimedKeepsFrozen | memory.py:1318-1374 | the list chosen before admission is still the right list after a reclamation in between |
| MemoryStore.Log.ExpireOne | memory.py:1059-1085 | exactly the lowest lapsed rows go, with their postings if those fit and after the mark was made stale if not, which it reports; strictly fewer are left |
| MemoryStore.Log.ExpireEntries | memory.py:1044-1085 | the loop ends with nothing lapsed, in the state its batches lead to one after another, and with the rows and floor of one-shot expiry |
| MemoryStore.Log.SweepRest | memory.py:1086-1104 | retry records, graves, snapshots and idle readers past their lifetimes go, and each retired reader leaves its grave |
| MemoryStore.Log.Admit | memory.py:1014-1042 | at most one reclamation, then admitted if and only if there is room; no reclamation when there was room already |
| MemoryStore.Log.Enforce | memory.py:977-989 | a change past its cap is rolled back entirely, any other stands |
| MemoryStore.Log.AppendEvent | memory.py:1221-1278 | row, link, posting, head, index mark and retry record together, or nothing; what they hold of the note is pinned by `MemoryEffects.AppendedRow`, `AppendKeeps` and `AppendRecords` |
| MemoryStore.Log.NoteEvent | memory.py:1151-1278 | refusal or repeat before anything is written; otherwise appended if and only if admitted and within the cap measured afterwards |
| MemoryStore.Log.RegisterReader | memory.py:1459-1489 | a known reader is answered unchanged, a retired one refused, a new one starts at zero if admitted and within the cap measured afterwards |
| MemoryStore.Log.PastRetention | memory.py:1363-1373 | exactly this consumer's lapsed snapshots beyond the newest few are pruned, oldest first, and no other |
| MemoryStore.Log.FreezeFor | memory.py:1318-1374 | the list is that of the live set at the start; refused at the snapshot limit, without room, or past the cap measured afterwards; otherwise frozen at the head |
| MemoryStore.Log.SnapshotPage | memory.py:1536-1574 | one page, recorded as issued before it leaves, or the refusal with nothing changed |
| MemoryStore.Log.DeltaPage | memory.py:1521-1534 | a delta raises the issued position and never the cursor |
| MemoryStore.Log.Sync | memory.py:1502-1534 | a reader is registered if new, counted as active, relieved of an unusable snapshot and given a frozen one if it owes one and holds fewer than four; then it gets a page of that snapshot, or else a delta; a refusal is that of the first of these steps to fail, with the steps before it standing |
| MemoryStore.AttendedEffect | memory.py:1506-1520 | a request moves its reader's clock, closes its open snapshot if and only if that can no longer be paged, then owing one, and changes nothing else |
| MemoryStore.Log.AcknowledgeSnapshot | memory.py:1581-1608 | completion is checked against what was issued; a retained acknowledgement replays |
| MemoryStore.Log.AcknowledgeThrough | memory.py:1609-1624 | only issued positions are acknowledged, the cursor becomes the one acknowledged (`MemoryEffects.AckThroughEffect`), and it never retreats |
| MemoryStore.Log.Acknowledge | memory.py:1576-1624 | an acknowledgement registers its reader and counts as activity, and then moves it by snapshot or by number |
| MemoryEffects.AppendRefused | memory.py:1229-1267 | an append is refused if and only if its target is missing or its retry record has no room |
| MemoryEffects.AppendedRow | memory.py:1221-1248 | the event at the new head is the note field by field; its revision is one more than its target's, and its conflict is what had replaced that target already |
| MemoryEffects.AppendKeeps | memory.py:1249-1256 | every older row stays, but for one link on the target of an unopposed note |
| MemoryEffects.AppendRecords | memory.py:1257-1270 | posting, index mark and retry record of the new event |
| MemoryEffects.NoteFaults | memory.py:1160-1174 | which faults of a note refuse it, and which come first |
| MemoryEffects.KeyRulings | memory.py:1181-1220 | a retry key goes ahead, repeats or is refused, each if and only if its condition holds |
| MemoryEffects.LiveEffect | memory.py:1281-1293 | what is live now and as of a head |
| MemoryEffects.ExpiryEffect | memory.py:1059-1066 | a batch is at most two hundred rows, the earliest whose lifetime is over, and all of them if there are no more |
| MemoryEffects.ExpiryBounds | memory.py:1106-1120 | the boundary rises to the highest row that went, with the index kept or marked stale |
| MemoryEffects.SweepEffect | memory.py:1086-1104 | the lifetime of every other record in seconds, and the grave of a retired reader |
| MemoryEffects.RebuildEffect | memory.py:785-824 | a rebuilt index is the stored bodies, complete for this head |
| MemoryEffects.RegisterEffect | memory.py:1459-1489 | who is known, retired, refused for room, or new |
| MemoryEffects.TouchEffect | memory.py:1496-1500 | activity moves the reader's clock alone |
| MemoryEffects.ClearEffect | memory.py:1507-1520 | when an open snapshot can still be paged; giving it up keeps the reader owing one |
| MemoryEffects.DeltaReaders | memory.py:1521-1523 | who gets deltas: a reader past its first snapshot, with none open or owed and nothing above its cursor forgotten |
| MemoryEffects.FreezeEffect | memory.py:1354-1373 | the frozen snapshot opens for this reader at this head; its position stays and only what is named is pruned |
| MemoryEffects.HeldEffect | memory.py:1337-1346 | which snapshots count against a reader's four |
| MemoryEffects.FittingEffect | memory.py:1302-1315 | a page takes rows from the front while they fit and stops only at one that does not |
| MemoryEffects.PageRefused | memory.py:1537-1564 | each refusal of a page and the condition it stands for |
| MemoryEffects.PageEffect | memory.py:1565-1574 | the longest run from the token that fits, recorded as issued |
| MemoryEffects.DeltaEffect | memory.py:1526-1534 | the longest run after the cursor that fits; issued rises to its end and the cursor stays |
| MemoryEffects.RowsEffect | memory.py:1524-1525 | the rows a delta draws on: in order, five hundred at most, none passed over |
| MemoryEffects.AckThroughRefused | memory.py:1609-1621 | each refusal of a numeric acknowledgement and its condition |
| MemoryEffects.AckThroughEffect | memory.py:1618-1624 | the cursor becomes exactly what was acknowledged; nothing is issued and no other reader changes |
| MemoryEffects.AckSnapshotRefused | memory.py:1582-1601 | each refusal of a snapshot acknowledgement, and what a repeated one answers |
| MemoryEffects.AckSnapshotEffect | memory.py:1602-1608 | a first acknowledgement moves the reader to the frozen head, owing nothing more |
| MemoryService.NoteIsARun | memory.py:1151-1278 | whatever a note's request leaves behind, a run of the service leads there |
| MemoryService.SyncIsARun | memory.py:1502-1574 | the same for a sync request, freezing at most the snapshot it was given a name for |
| MemoryService.AckIsARun | memory.py:1576-1624 | the same for an acknowledgement |
| MemoryService.LivesAreRuns | memory.py:1426-1454 | where any sequence of requests has brought the class, some run of the service has come as well, so all that is proved over runs holds of it |
| MemoryService.LivesKeep | memory.py:1426-1454 | for one: limits, no holes, a trusted index that agrees, and positions in order, after any requests |

## Left out

- SQLite itself (pragmas, WAL, page counts, file sizes, catalog checks): a transaction commits or changes nothing. A refusal for physical pages is an act that does nothing, or, in expiry, an outcome of each batch that decides whether it keeps the index.
- Corrupt files, frames and metadata, and file permissions: stored values are well typed. What validation rejects about values that fit their types is modelled.
- Schema upgrades, in the inbox and in the memory store.
- Sockets, framing, credentials, asyncio timeouts, process start and ownership files, health publication, the command line.
- Provider and notice text: a provider call ends delivered, failed or unknown, or never answers.
- JSON encoding, digests and full-text matching: encoded sizes and content fingerprints are parameters; lengths of keys and names are counted in characters, not UTF-8 bytes; nonces, instances and snapshot names are fresh values.
- The clock is read once per transaction, in whole seconds, and the memory service assumes it never goes back, as its own retry deadlines do.
- Argument checks of `note` on scope, scope target, kind names and paths, and of request fields elsewhere: they refuse before the state is read.
- `memory_bindings.page`, `status`, `recall`: read-only listings.
- Bridges without acknowledgement or pointers: modelled in the journal, the source and the legacy notifier one by one. The whole-system runs assume a bridge with both, and do not switch between kinds within a run.
- Provider, participant and namespace fields of the journal identity: the target digest and nonce stand for them.
- A worker whose factory fails to start: no job was ever accepted.
- DeliveryLoop.Loop.Step: one pass on its own; other tasks' jobs between its own, crashes, and the next pass are in the whole-system model (`Notifier*`), which `NotifierPass` shows it to be a run of; its `status` replies are left out.
- NotifierPass.PassIsARun: starts from a worker with nothing queued; what other tasks queue in between is in the whole-system model.
- NotifierProgress.PassesProgress: takes the inbox as it stands during the pass; one that moves on meanwhile is covered by the runs, where a job may fail.
- Legacy.LegacyState.DoReady: the mark that requires a journal is not on the checkpoint it re-reads; `Migration` says when it is set and that the legacy notifier never runs after that.
- NotifierGuarantees.HonestSourceNeverRefused: admission may be refused for capacity, which the code reports and retries.
- NotifierGuarantees.CallBudget: counts calls since the last operator retry of the sequence; what an operator does between them is not bounded.
- MigrationGuarantees.EveryCrashPointRestarts: asks that a rebuild begins only when no earlier activation request is under way; without it the claim is false, as the lemmas about late requests show.
- MemoryStore.Log.Sync: the name of a new snapshot is a parameter, and one already in use is refused.
