# Webhook classification pipeline: a verified model

The service accepts signed vendor webhooks, stores each one, classifies it with a language
model inside a Temporal workflow, verifies the extraction with a second call, and writes a
shipment or invoice record, or routes the row to a review queue. Four kinds of actor work on
the same rows at the same time: ingest requests, workflow runs, a sweeper that restarts what
got stuck, and operators. Activities are delivered at least once, a timed-out activity may
still commit later, runs die, cache entries vanish, and a start call may take effect after its
caller gave up. The guarantees rest on a few local guards: the unique key, the one-to-one
record tables, the status filter on updates, and one open run per workflow id.

This project models that system in Dafny and proves what the guards add up to.

## How it is organised

| file | what it holds |
|---|---|
| JsonValues.dfy, Domain.dfy | JSON values; the extraction contract, validation and dumping |
| Activities.dfy, Pipeline.dfy | the persist decision on typed values; the same pipeline on wire values, proved to be its dump |
| Replies.dfy | what becomes of a model reply, said of its JSON alone |
| Storage.dfy | the event store: its columns, each transaction as a function on a database value, and class `Store` performing it in place |
| Dedup.dfy | key encoding and the Redis fast path |
| Protocol.dfy, Effects.dfy | the state machine: one action per atomic effect of any actor, every fault included; what each action does and leaves alone |
| Ingest.dfy | what each effect of a request does to the whole system |
| Invariant.dfy, Theorems.dfy | the inductive invariant, and what it says about every reachable state |
| Origins.dfy | where rows, runs and restarts come from |
| Sweep.dfy, Recovery.dfy | what a sweep lists and serves, fairness over many sweeps, recoverability |
| Actors.dfy, Processes.dfy | the ingest view, the workflow run and the sweep as sequential programs, correct under any interference |
| Witnesses.dfy | concrete behaviours showing that hypotheses are needed |
| Admin.dfy | the operator actions over batches |
| Timing.dfy | how long a run can take from its retry policies |
| Bridge.dfy | the sync-to-async bridge: counter, locks and client singleton |
| Prompts.dfy, Nesting.dfy | delimiter scrubbing of text and of JSON payloads; exactly from which texts it removes every delimiter |

`Reachable(s)` means that some list of actions of any actors leads from an empty system to
`s`; `Leads(s, t)` means that some list of actions leads from `s` to `t`. A theorem about
reachable states therefore covers every interleaving, redelivery, crash and loss.

A method of `Processes.World` or `Bridge.Process` takes a schedule: the actions the other
actors take before each of its own effects. Its contract is proved for every schedule.

## Where the code and its documents differ

- `webhooks/storage.py:104-107` promises that the record tables hold adjudicated
  data only. `store_and_complete` saves the record before its guarded update
  (`webhooks/storage.py:108-120`), so a delayed persist can add a record to a row that is
  already terminal. `Storage.PersistKeeps` proves that a persist keeps agreement exactly unless
  it is such a late insert, and `Witnesses.LateInsertBreaksAgreement` reaches one: a FAILED row
  with an invoice record.
- `webhooks/models.py:129-130` and `webhooks/domain.py:70` say that the amount column keeps
  amounts exactly. It is NUMERIC(20, 4), and `Invoice` accepts any number of decimals. Agreement
  therefore means: the record holds the row's fields as the columns keep them. By
  `Theorems.RecordsAgreeWithRows` the amounts are equal exactly if the extracted one has at most
  four decimals; `Witnesses.RoundingChangesAnAmount` reaches 1.00005 next to 1.0001.
- The operator actions are documented as the way out of review (`webhooks/admin.py:84-90`). An
  ungrounded extraction that does not fit the columns of its table has no way out: approving it
  raises and rolls its whole batch back, and resolving does not apply to it.
  `Theorems.ReviewExits` gives the exact condition, `Witnesses.WideExtractionHasNoExit` an
  input: a vendor id of 257 characters.
- `webhooks/prompts.py:83-92` is documented to strip the delimiters. One pass per delimiter can
  leave one behind (`Prompts.OnePassMayLeaveADelimiter`). `Nesting.ComesOutCleanIff` gives the
  exact condition on the input: where delimiters are pieced together around others, each one
  is removed in a later pass than those directly inside it.
- Line 141 of the repository README calls cross-vendor key collisions impossible.
  `Dedup.KeysInjectiveIff` gives the exact condition: no vendor id is another one followed by a
  colon and text that the id pattern can absorb. It always holds when vendor ids have no colon.
- Line 274 of the repository README speaks of two write paths for the status;
  `store_and_complete` is a third. The model follows the code.
- The documents name Temporal's `WorkflowAlreadyStarted`; the code expects an RPC error with
  ALREADY_EXISTS, and so does the model.

## Assumptions

- `start_workflow` reports ALREADY_EXISTS exactly while a run with that id is open. It may
  also fail without a start, or time out before or after one.
- Rows change only through the functions of `webhooks/storage.py` and the two operator
  actions, and are never deleted. One clock serves all actors and does not run backwards, so
  `created_at` never decreases in insertion order; ties are broken by insertion.
- Primary keys are modelled as insertion numbers.
- Timestamps, decimals and booleans are parsed and dumped exactly by a codec that is a
  parameter of the model, as are the ISO 4217 list, `str`, `json.dumps` and error texts.
- PostgreSQL rounds NUMERIC(20, 4) half away from zero, and raises a data error for a value that
  is too wide for its column. Texts hold no NUL character, and JSON columns hold any JSON.
- Recoverability and fairness assume a sweep limit above zero.

## Model

| member | source | states |
|---|---|---|
| `Theorems.RowsAreWriteOnce` | webhooks/storage.py:64-120 | in every behaviour a row keeps its id, payload and creation time, its status rank never falls, and after the first terminal transaction only the review flag may change, from true to false |
| `Theorems.CompletedRowsHaveRecords` | webhooks/storage.py:94-120 | in every reachable state a completed shipment or invoice row out of review that holds an extraction has its record |
| `Theorems.RecordsAgreeWithRows` | webhooks/storage.py:94-120 | while no late insert has happened a record implies a completed row out of review holding its fields, and no record of the other kind; the amounts are equal exactly if the extracted one has at most four decimals |
| `Theorems.RecordsHaveAProvenance` | workflows/activities.py:119-157 | every record, late ones included, comes from a schema-valid, grounded extraction of its type without unsupported fields, or from an approved row whose schema-valid extraction was in review as ungrounded |
| `Theorems.RecordsAreValid` | webhooks/domain.py:42-101 | in every reachable state every record, automatic or approved, satisfies the validators of its kind |
| `Theorems.RepliesAreEnabled` | workflows/llm_client.py:133-171 | whatever the two model calls reply, what the activities make of it is a step the state machine has |
| `Theorems.EnabledResultsHaveReplies` | workflows/llm_client.py:133-143 | and it has no other accepted result: each one is the reading of some reply |
| `Theorems.PersistLeavesRowTerminal` | workflows/activities.py:159-169 | whenever `persist_classification` returns, through the swallowed IntegrityError too, the row is terminal, and that error is raised only for a row that already was; it raises exactly if the record does not fit its columns |
| `Theorems.RedeliveredPersistIsNoOp` | workflows/activities.py:106-169 | committing the same persist again changes nothing, whatever steps came between |
| `Theorems.CommitsTouchOneRow` | webhooks/storage.py:64-120 | a commit of any activity leaves all other rows and their records alone |
| `Theorems.MarkingMovesOpenRows` | workflows/activities.py:68-71 | `mark_processing` moves an open row to PROCESSING, changes nothing else in it, and leaves a terminal row alone |
| `Theorems.FirstPersistDecides` | workflows/activities.py:106-174 | the first persist of an open row completes it with its evidence, its event type and its reason: in review exactly for rejected or ungrounded output, otherwise with the record of its type and those fields as the columns keep them |
| `Theorems.FirstFailureDecides` | workflows/activities.py:235-246 | a `mark_failed` that meets an open row closes it with its message, out of review and without records |
| `Theorems.OnlyOpenRowsAreReissued` | workflows/activities.py:302-311 | a reissue always finds its row, with its own id, and leads to a start call exactly if the row is open at that moment |
| `Origins.RestartsRunTheStoredRow` | workflows/activities.py:311-320 | what the sweeper restarts is the stored row: its id and its payload |
| `Origins.SweepsSkipNothing` | workflows/definitions.py:135-141 | a sweep under way has reissued every entry it has passed |
| `Theorems.AnsweredMeansDurable` | webhooks/views.py:110-177 | each of the four 200 exits names the request's own key, whose row exists and for which a run was started |
| `Ingest.HitsAreAnswered` | webhooks/views.py:111-120 | a cache hit is answered as a duplicate of the request's own key and touches nothing else; a miss goes on |
| `Ingest.InsertsStoreTheEvent` | webhooks/storage.py:24-38 | an insert stores the request's own vendor and body, now, as a new RECEIVED row without outcome, or finds the key taken or too wide and stores nothing |
| `Ingest.CollisionsAreAnswered` | webhooks/views.py:127-132 | a request that collides with a row past RECEIVED is answered as a duplicate and nothing is started; for a row still RECEIVED it goes on with that row's id |
| `Ingest.StartsOpenARun` | webhooks/views.py:144-158 | a start call opens a run on the row's id and the request's own body, or is answered as a duplicate while one is open |
| `Ingest.LostStartsAreOnTheirWay` | webhooks/views.py:158-170 | a start call without an answer stays on its way with that key, id and body |
| `Ingest.CallsAreServed` | workflows/activities.py:311-325 | a call on its way opens a run on its arguments once it is served, unless one of its key is open |
| `Ingest.StartedIsAnswered` | webhooks/views.py:171-177 | a request that started its run is accepted under its own key, and unless the cache write fails the next one hits |
| `Origins.RowsHoldWhatCameIn` | webhooks/views.py:122-126 | every row of every reachable state holds the body and the vendor of a request received for its key |
| `Origins.StoredEventsStay` | webhooks/storage.py:24-38 | and keeps them, with its id and creation time, in every later state |
| `Origins.AcceptedRunsItsBody` | webhooks/views.py:144-177 | a request answered as accepted has had a run started on its own body |
| `Origins.RunsHoldWhatCameIn` | webhooks/views.py:144-158 | every run ever started is on the body of a request received for its key |
| `Theorems.CacheNeverLies` | webhooks/dedup.py:55-74 | a cache hit returns the key a miss would compute, and only for a row that had a run |
| `Theorems.RunsMatchTheirRow` | webhooks/views.py:122-158 | every run ever started carries its key's row id, and the stored payload unless a request with another body got as far as `start_workflow` |
| `Theorems.ClosedRunsAreTerminal` | workflows/definitions.py:56-96 | a run that returned, or raised after `mark_failed` succeeded, left its row terminal |
| `Theorems.ListedRowsHaveNoEarlyRun` | workflows/worker.py:41-52 | with a validated grace a row listed as stuck in PROCESSING has no open run that started by creation time plus grace minus run timeout, in particular none from its first five minutes |
| `Theorems.ReviewExits` | webhooks/admin.py:84-138 | for every row in review: at most one of the two operator actions clears it, one of them does exactly unless approving it raises a data error, approving leaves its record, and the branch for rows without an extraction is unreachable |
| `Invariant.StepKeepsInv` | webhooks/storage.py:24-120 | every action of every actor keeps the invariant and only evolves the store |
| `Invariant.ReachableInv` | workflows/definitions.py:56-142 | the invariant holds in every reachable state |
| `Invariant.NoteStartKeeps` | workflows/activities.py:311-325 | starting a run for a key whose row it refers to keeps what every actor knows |
| `Invariant.ActorsSurvive` | webhooks/storage.py:24-120 | what requests, runs, cache entries and sweeps know stays true while the store evolves |
| `Storage.InsertKeeps` | webhooks/storage.py:24-38 | an insert keeps the store well formed, evolves it and keeps record agreement |
| `Storage.MarkProcessingKeeps` | webhooks/storage.py:64-71 | so does `mark_processing`, a no-op on terminal rows |
| `Storage.MarkFailedKeeps` | webhooks/storage.py:74-91 | so does `mark_failed`, which leaves an existing row terminal |
| `Storage.MarkTerminalCloses` | webhooks/storage.py:74-91 | closing an open row sets status and time, and the error only if one is given; a terminal row stays as it is |
| `Storage.CompletionKeeps` | webhooks/storage.py:94-120 | completing an open row with a decision the pipeline takes keeps the store well formed and the tables in agreement |
| `Storage.PersistKeeps` | webhooks/storage.py:94-120 | the persist transaction keeps the store well formed, leaves the row terminal with its record if that fits its columns and changes nothing otherwise, and breaks agreement exactly by a late insert |
| `Storage.LateInsertDisagrees` | webhooks/storage.py:108-120 | a record saved for an already terminal row always breaks agreement |
| `Storage.IntegrityErrorMeansTerminal` | workflows/activities.py:159-169 | the IntegrityError of a persist is only raised when the row is terminal |
| `Storage.DataErrorMeansTooWide` | webhooks/storage.py:108-109 | a persist raises a data error exactly if the record its evidence calls for does not fit its columns |
| `Storage.FitsItsColumns` | webhooks/models.py:107-132 | what fits: 256 characters of text, three of currency, twenty digits of amount |
| `Storage.RoundedIsNearest` | webhooks/models.py:129-131 | the amount column keeps an amount exactly if it has at most four decimals, moves none by more than half a unit of the fourth, and keeps it non-negative |
| `Storage.PersistAgainIsNoOp` | workflows/activities.py:114-169 | a committed persist, committed again on any later store, changes nothing |
| `Storage.ApproveKeeps` | webhooks/admin.py:84-106 | approving a row keeps the store well formed and evolving, and the tables in agreement |
| `Storage.ResolveKeeps` | webhooks/admin.py:126-138 | resolving a row does too |
| `Storage.Store.InsertWebhookEvent` | webhooks/storage.py:24-38 | in place: appends the row and returns its id, or reports a duplicate key or a too wide value and changes nothing |
| `Storage.Store.GetEventByKey` | webhooks/storage.py:41-46 | returns the row of the key, and nothing exactly when there is none |
| `Storage.Store.MarkProcessingStatus` | webhooks/storage.py:64-71 | in place: moves a row that is not terminal to PROCESSING |
| `Storage.Store.MarkTerminalStatus` | webhooks/storage.py:74-91 | in place: closes a row that is not terminal; rejects non-terminal statuses unchanged |
| `Storage.Store.StoreAndComplete` | webhooks/storage.py:94-120 | in place: record and guarded update in one transaction, rolled back on a constraint or data error |
| `Storage.Store.PersistClassification` | workflows/activities.py:106-174 | in place: the transaction of the decision, with the constraint error swallowed and the data error raised, the latter exactly if the record does not fit |
| `Sweep.StuckKeysAreOldest` | webhooks/storage.py:140-170 | the listing query returns rows with this status created before the cutoff, oldest first without repeats, and leaves such a row out only for `limit` older ones |
| `Sweep.ScansListOldRows` | webhooks/storage.py:140-170 | each scan lists at most `limit` rows, all of its status and older than its grace, each with its own id and payload |
| `Sweep.OpenRowsAreListed` | workflows/definitions.py:122-134 | a row past both graces and open through both scans is listed, or one scan is full of older open rows |
| `Sweep.TwoScansMissNothing` | workflows/definitions.py:122-134 | two non-atomic scans with room to spare list every such row, and no key more than twice |
| `Sweep.PassCovers` | workflows/definitions.py:122-142 | a sweep whose scans have room lists every row past both graces at its first scan and still open when it ends |
| `Sweep.ReissuedMeansServed` | workflows/activities.py:292-325 | a reissue that completes between two states had its row terminal, or a run of it open, at some moment between them |
| `Sweep.RanServes` | workflows/definitions.py:136-142 | a sweep that ran to its end has had every row it listed terminal or with a run open while it ran |
| `Sweep.OpenBeforeShrinks` | webhooks/storage.py:140-156 | new inserts never come before an older row |
| `Sweep.PassedOverOnce` | workflows/definitions.py:122-142 | each sweep that passes a row over takes `limit` older open rows out of its way |
| `Sweep.ListedInTime` | workflows/definitions.py:116-142 | with m older open rows, a row past both graces that stays open is listed within floor(m / limit) + 1 sweeps that each close what they list |
| `Sweep.SweepIsFair` | workflows/definitions.py:116-142 | the same for sweeps that ran one after the other, with the row finished or a run of it open while the sweep that lists it runs |
| `Recovery.FinishRun` | workflows/definitions.py:56-96 | for whatever the two model calls reply: from any state an open run can be brought to its end by worker steps, with its row terminal |
| `Recovery.Round` | workflows/definitions.py:116-142 | for all replies: one sweep and the runs it leaves open make every listed row terminal |
| `Recovery.EveryOpenRowIsRecoverable` | workflows/definitions.py:100-142 | for all replies: from every reachable state each row can be driven to a terminal status by clock, sweeper and worker steps alone |
| `Witnesses.LateInsertBreaksAgreement` | webhooks/storage.py:108-120 | a behaviour that ends with a record for a FAILED row, so the hypothesis of no late insert is needed |
| `Witnesses.RoundingChangesAnAmount` | webhooks/models.py:129-131 | a behaviour without late insert in which the stored amount is not the extracted one |
| `Witnesses.WideExtractionHasNoExit` | webhooks/admin.py:84-138 | a behaviour that ends with a row in review which neither operator action clears |
| `Witnesses.ReversedScansMissARow` | workflows/definitions.py:122-134 | a behaviour in which scanning PROCESSING first would miss an open row twice |
| `Witnesses.LateRunsAreListed` | workflows/worker.py:41-52 | a behaviour with a valid grace in which a listed row has an open run, started late |
| `Witnesses.ResendRunsNewBody` | webhooks/views.py:122-158 | a behaviour in which a resend starts a run on a body that is not the stored one |
| `Actors.OthersUndisturbing` | workflows/definitions.py:56-142 | no step of anyone else moves a request, disturbs the sweep, or changes a run except by timing it out |
| `Actors.EffectMoves` | webhooks/views.py:110-177 | in which one place each effect of a request leaves it, given the state it meets, and that it moves no other actor |
| `Processes.World.Post` | webhooks/views.py:75-177 | for every schedule and fault: 422 exactly for malformed requests, which change nothing; a 200 names the own key, stored and with a run, a fresh one on this very body; a resend of an event past RECEIVED starts nothing and is answered as a duplicate if cache and database are up; 503 only if a service is down, refuses, or errs after it may have started the run; 500 only if the start call timed out, or raised anything but an RPC error, or the key or vendor id is too wide for its column |
| `Processes.World.RunActivity` | workflows/definitions.py:59-63 | three attempts under the quick retry policy; a report means that one of them reported and the activity's transaction committed |
| `Processes.World.RunClassify` | workflows/definitions.py:56-96 | for every schedule: a run that returns has committed exactly the evidence of its two replies, and returning or raising after `mark_failed` leaves the row terminal, the latter with the run's own message committed |
| `Processes.World.RunReissue` | workflows/activities.py:292-325 | success means that at some moment during the activity the row was terminal or a run of it was open |
| `Processes.World.RunSweep` | workflows/definitions.py:116-142 | for every schedule and every failure of its activities: a sweep that returns counts the rows it listed, at most twice the limit, none younger than the grace of its scan, each terminal or with a run open at some moment while it ran; with room to spare the latter holds of every row past its grace that is still open |
| `Processes.PassServes` | workflows/definitions.py:116-142 | what a sweep that ran means for the state it started in |
| `Activities.DecideRoutes` | workflows/activities.py:106-169 | for all evidence a run can hold: record, review or nothing, each exactly when it should be, and the stored data give the evidence back |
| `Pipeline.EndToEndRouting` | workflows/llm_client.py:122-171 | for all replies: the pipeline computes the typed decision; a record exactly for typed, valid and grounded; review exactly for rejected or ungrounded; `verifier_skipped` never occurs |
| `Replies.RepliesDecide` | workflows/llm_client.py:122-171 | for all replies, from their JSON: review exactly for an object the contract does not accept or an ungrounded extraction, a record exactly for a typed and grounded one, and its columns are the fields of the reply, names without outer whitespace |
| `Replies.RepliesAreKept` | workflows/activities.py:141-147 | for all replies, `normalized_data` has exactly these keys: the extraction, the verdict if there had to be one, the reason `ungrounded` if the row is in review; or, for rejected output, the reply itself, cut at 8192 characters, and its error |
| `Replies.CarriedIsUnwrapped` | workflows/llm_client.py:122-130 | the object a reply is about: itself, the first of an array or of a non-empty list of results, and for an empty array an unclassified one |
| `Replies.ClassificationIsRead` | webhooks/domain.py:42-125 | which JSON values are accepted as a classification, whatever other keys they have, null being like absent, and what is read from them |
| `Replies.VerdictIsRead` | webhooks/domain.py:128-154 | which are accepted as a verdict, whatever is left out or added, and what is read from them, empty for what is left out |
| `Replies.MalformedDeliveriesRaise` | workflows/activities.py:119-129 | for anything it is handed, persisting raises exactly for a malformed extraction or verdict, unless the output had been rejected |
| `Replies.MissingVerdictIsReviewed` | workflows/activities.py:132-144 | a typed extraction without a verdict goes to review as `verifier_skipped`, without a record |
| `Replies.StripTrims` | webhooks/domain.py:48-62 | stripping removes outer whitespace and nothing else, and leaves nothing exactly of text that is all whitespace |
| `Pipeline.StoredEventType` | workflows/activities.py:190-225 | the stored event type is the extracted one, or what rejected output claims if that type may be claimed |
| `Pipeline.WrappingDoesNotMatter` | workflows/llm_client.py:122-130 | a bare object, an array starting with it and a results list starting with it are processed alike |
| `Pipeline.EmptyReplyExtractsNothing` | workflows/llm_client.py:128-129 | an empty array becomes an unclassified row, without record or review |
| `Pipeline.PersistRefinesDecide` | workflows/activities.py:106-174 | on dumped evidence the wire code computes the dump of the typed decision |
| `Pipeline.ShouldVerifyRefines` | workflows/definitions.py:42-48 | the workflow's test on the wire form is the typed one |
| `Pipeline.BareAndWrappedAgree` | workflows/activities.py:119-124 | the bare and the wrapped wire form persist identically |
| `Pipeline.PromotionRefines` | webhooks/admin.py:15-44 | the operator path builds from the stored JSON the columns the automatic path builds, and nothing from a rejected row |
| `Pipeline.RepliesGiveValidEvidence` | workflows/llm_client.py:133-171 | whatever the model replies, a run holds valid evidence, and output that was rejected is an object or an array |
| `Pipeline.EveryValidResultHasAReply` | workflows/llm_client.py:133-143 | every schema-valid classification is the reading of some reply |
| `Domain.StripNormalises` | webhooks/domain.py:48-62 | stripping leaves no outer whitespace and changes nothing that has none |
| `Domain.ValidateClassificationSound` | webhooks/domain.py:103-125 | an accepted classification has stripped non-empty vendor ids and tracking numbers, a non-negative amount, a listed currency, and payload matching its type |
| `Domain.ClassificationRoundTrip` | webhooks/domain.py:42-125 | validating the dump of a classification gives it back exactly when it is valid |
| `Domain.VerificationRoundTrip` | webhooks/domain.py:128-154 | validating the dump of a verification gives it back exactly when grounded and unsupported fields do not contradict |
| `Dedup.KeysInjectiveIff` | webhooks/dedup.py:47-52 | keys identify events exactly when no vendor id is another, a colon and absorbable text |
| `Dedup.CollisionMeansExtension` | webhooks/dedup.py:47-48 | two events with one key have vendor ids of which one extends the other |
| `Dedup.ExtensionCollides` | webhooks/dedup.py:47-48 | any such pair of vendor ids has two valid webhook ids that collide |
| `Dedup.PlainVendorsAreInjective` | webhooks/dedup.py:47-48 | vendor ids without a colon never collide |
| `Dedup.KeyLength` | webhooks/dedup.py:47-48 | a key has at most 513 characters and exceeds 512 exactly when both parts have 256 |
| `Dedup.WebhookIdsAre` | webhooks/views.py:36-36 | which webhook ids are valid: 1 to 256 letters, digits, dots, underscores, colons and hyphens |
| `Dedup.RedisKeyIsPrefixed` | webhooks/dedup.py:51-52 | the cache entry name is the prefix and the idempotency key |
| `Dedup.SeenIsRemembered` | webhooks/dedup.py:55-74 | what `mark_as_seen` stores `check_duplicate` finds, for this event and for none with another key |
| `Dedup.RedisCache.CheckDuplicate` | webhooks/dedup.py:55-64 | a hit returns the cached key, a miss the computed one |
| `Dedup.RedisCache.MarkAsSeen` | webhooks/dedup.py:67-74 | sets this entry and no other |
| `Admin.CreateRecordFromExtraction` | webhooks/admin.py:15-44 | creates the record unless one exists; reports false exactly when there is nothing to build, and raises exactly when a new record does not fit |
| `Admin.ApproveAndPromote` | webhooks/admin.py:84-106 | raises exactly if some row of the batch does, and then leaves the store as it was; otherwise the loop computes the row-by-row outcome, and its four counters are the four tallies and add up to the batch |
| `Admin.LoopApprovesTheSet` | webhooks/admin.py:84-106 | the loop computes an outcome defined on the set of rows alone |
| `Admin.OrderDoesNotMatter` | webhooks/admin.py:84-106 | any order of the same rows gives the same store |
| `Admin.ApprovingTwiceIsOnce` | webhooks/admin.py:84-106 | approving again, any part of the batch, changes nothing, and promotes nothing unless it raises |
| `Admin.CountersPartition` | webhooks/admin.py:95-110 | every row of a batch is counted in exactly one counter |
| `Admin.CountersAreKinds` | webhooks/admin.py:92-110 | what the counters count: rows out of review, rejected ones in review, and ungrounded ones in review; the fourth is always zero |
| `Admin.ApprovalsAreDeserved` | webhooks/admin.py:97-109 | why each row takes its branch |
| `Admin.MarkResolved` | webhooks/admin.py:126-149 | clears exactly the schema-rejected rows in review and counts the three kinds, which partition the batch |
| `Admin.BulkResolvesEachRow` | webhooks/admin.py:135-137 | the one bulk update has the effect of the single-row actions, in any order |
| `Admin.QueueEmpties` | webhooks/admin.py:84-138 | after both actions, in either order, a selected row is still in review exactly if it was and approving it raises |
| `Timing.RunsClose` | workflows/definitions.py:25-96 | with n LLM attempts and no queueing every run closes within 2 * (60 n + backoffs) + 159 seconds |
| `Timing.FitsExactlyUpToThree` | workflows/definitions.py:25-40 | every run fits the 600 second timeout exactly when `MAX_RETRIES` is 1, 2 or 3, and the bound is attained |
| `Timing.UnlimitedRetriesHaveNoBound` | workflows/definitions.py:33-39 | with no maximum number of attempts a run can outlast any bound |
| `Timing.BoundGrows` | workflows/definitions.py:33-39 | by how much each further attempt moves the bound |
| `Timing.BackoffsAre` | workflows/definitions.py:25-40 | the waits of an LLM activity are 2, 4, 8, 16 and then 30 seconds, those of the others 1 and 2 |
| `Timing.BoundInSeconds` | workflows/definitions.py:25-96 | the bound is 279, 403, 531 and 667 seconds for up to four attempts, and 180 n - 81 from there |
| `Bridge.StepKeepsInv` | project/temporal_bridge.py:58-124 | every move of every thread keeps counter, locks and client consistent |
| `Bridge.CounterIsExact` | project/temporal_bridge.py:101-124 | under any interleaving and any way out the counter is the number of callers inside and stays in 0..cap |
| `Bridge.ShedExactlyWhenFull` | project/temporal_bridge.py:111-117 | a caller is shed exactly when `cap` callers are inside |
| `Bridge.ShedCallersNeverReachTheLoop` | project/temporal_bridge.py:111-117 | a shed caller has not touched the loop and never will |
| `Bridge.CounterDrains` | project/temporal_bridge.py:118-124 | from every reachable state the counter can drain to zero: no slot is lost |
| `Bridge.OneClient` | project/temporal_bridge.py:81-98 | at most one client is published, and every caller gets that one |
| `Bridge.OneConnector` | project/temporal_bridge.py:81-98 | at most one thread is inside the initialisation lock |
| `Bridge.OneLoop` | project/temporal_bridge.py:58-71 | a loop thread is started only when none is alive, so at most one is, and one is alive whenever `_ensure_loop` returns |
| `Bridge.Process.GetTemporalClient` | project/temporal_bridge.py:81-98 | for every schedule: returns the one published client, or raises only if connecting failed |
| `Bridge.Process.Submit` | project/temporal_bridge.py:101-124 | for every schedule: shed exactly when full and then without reaching the loop; otherwise the call ends as the coroutine did and has left the region |
| `Prompts.ScrubDelimiters` | webhooks/prompts.py:83-92 | the loop computes one pass per delimiter, and leaves a text alone exactly when it holds no delimiter |
| `Prompts.ScrubOnlyDeletes` | webhooks/prompts.py:83-92 | scrubbed text is the original at strictly increasing positions |
| `Prompts.RemovedIsSplitAndJoined` | webhooks/prompts.py:91-91 | a pass loses nothing but the delimiter: the text is pieces without it joined by it, the result the same pieces joined by nothing |
| `Prompts.LeftoversSpanACut` | webhooks/prompts.py:83-92 | a delimiter left in scrubbed text spans a cut: it did not stand there before |
| `Prompts.OnePassMayLeaveADelimiter` | webhooks/prompts.py:83-92 | a text whose scrubbed form is a delimiter |
| `Nesting.ComesOutCleanIff` | webhooks/prompts.py:83-92 | for all texts: scrubbing leaves no delimiter exactly if, reading once from left to right and taking out each delimiter when it is complete, none is completed directly around itself or around one that is removed later |
| `Nesting.PayloadComesOutCleanIff` | webhooks/prompts.py:95-102 | a payload comes out clean exactly if that holds of all its string values |
| `Nesting.OwnedBracketsComeOutClean` | webhooks/prompts.py:83-92 | in particular a text in which every opening bracket belongs to a delimiter comes out clean |
| `Nesting.DelimitersAreProper` | webhooks/prompts.py:87-90 | the four delimiters have the form these results ask for |
| `Prompts.UnchangedIffClean` | webhooks/prompts.py:83-92 | exactly the texts without delimiters are unchanged |
| `Prompts.Replace` | webhooks/prompts.py:91-91 | left-to-right, non-overlapping removal |
| `Prompts.ScrubbedAt` | webhooks/prompts.py:95-102 | at every path: same shape and keys, strings scrubbed, other leaves equal |
| `Prompts.PayloadUnchangedIffClean` | webhooks/prompts.py:95-102 | exactly the payloads without delimiters in their string values are unchanged |

## Left out

- Signature checking and rate limiting happen in libraries; the vendor id of an authenticated request is taken as given.
- Response bodies and headers: a response is a tag and a key.
- HTTP transport, status codes and JSON text of the model calls: a call gives an arbitrary JSON value or fails.
- Database faults other than the unique, one-to-one and foreign key constraints, values too wide for their columns, a database that is down at an insert, and activities that fail: NUL characters and timestamps outside the range of the database are not modelled.
- Truncation of error messages, retry-period parsing, health views, schedules, worker start-up, signal handling, gunicorn hooks and tracing.
- Admin form edits, row deletion and the changelist filter.
- `shutdown` and `reset_for_fork` of the bridge running while calls are in flight.
- Real scheduling by Temporal: liveness is stated as recoverability and as bounds, not under a fairness assumption on the server.
- LLM activities in `Processes`: their retries are folded into one outcome, since they do not touch the store; `Timing` counts their attempts.
- Operator batches in the protocol: a batch is a sequence of single-row actions there. `Admin.ApproveAndPromote` and `Admin.BulkResolvesEachRow` prove that a batch which does not raise has exactly that effect; one that raises has none.
- Prompt wording, and the delimiters in object keys, which scrubbing does not touch.
- A claim that scrubbing removes every delimiter: it is false, see `Prompts.OnePassMayLeaveADelimiter`, and `Nesting.ComesOutCleanIff` for when it is true.
