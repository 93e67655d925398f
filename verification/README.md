# Verification of the ingestion, retrieval and guard logic

A Dafny model of the parts of the enterprise knowledge assistant (`eka`) that have to stay right
when several things happen at once or when text is cut up and put together again, and proofs of
what they promise. `dafny verify dfyconfig.toml` checks everything.

## What is modelled

**The ingestion saga** (`Documents`, `Jobs`, `Saga`, `SagaInvariant`, `SagaSteps`, `SagaRuns`,
`SagaOutcomes`, `SagaRetry`, `SagaBurials`, `SagaDeaths`, `SagaLedger`, `SagaTenants`, `SagaLifecycle`,
`SagaWitnesses`, `SagaDatabase`, `IngestionWorker`, `Registration`, `ChunkRepository`, `Ingestion`). `Saga` is a transition system over the documents, contents, jobs and chunks tables
with any number of workers and requests. A step is one committed transaction, one read, one
exception, one crash or the passing of time. `SagaInvariant` holds the inductive invariant,
`SagaSteps` its preservation by every step, and the files after it what follows for whole runs.
`IngestionWorker` is the code of the worker and of the pipeline in its own control flow, run against
a database on which others take arbitrary steps between its own; every execution is a run of the
transition system. `ChunkRepository` is the table behind the saga's view of the chunks, and
`Ingestion` puts the real chunker and embedding model in.

**The chunker** (`Text`, `RecursiveSplit`, `Packing`, `Chunker`, `LongLineExample`). Strings are sequences of
characters with Python's whitespace; `split`, `strip` and `rstrip` are defined and proved, not
assumed. The two loops are methods proved against recursive functions.

**Hybrid retrieval** (`StableSort`, `Fusion`, `Retriever`, `Tokenizer`, `Reranker`,
`HashingEmbedding`), over exact real numbers.

**The search cache** (`CacheKeys`, `Search`, `SearchRuns`, `SearchScope`): the cache and the handler as they are
written, and a transition system of any number of concurrent searches, corpus changes, expiries and
cache failures.

**The injection guard** (`Guard`, `GuardPatterns`, `GuardPhrases`): sequential redaction for any patterns
with bracket-free words, the six regular expressions of the code as data, and the phrases they mean.

## What is assumed

- A committed transaction is atomic, and an exception means that its transaction did not commit.
  The database runs at its default isolation level, READ COMMITTED. The transactions of the
  documents module read a row, check it and write it at commit without a version check, so their
  read and their commit are two steps; `FOR UPDATE SKIP LOCKED` holds its rows until the commit.
- The clock never goes back, all processes share it, and `max_attempts` is at least 1.
- SHA-256 is collision free. A digest is modelled by the text it is the digest of.
- Identifiers are integers; the text of a UUID has no `|` and is not `*`.
- Lower-casing, the two parts of the SHA-1 digest of a token that the embedding uses, and the square
  root are parameters. Only lemmas about the length of embeddings assume that the root is exact.
- The two queries that PostgreSQL answers are functions of the state of the chunks table. The
  full-text query is assumed to see the query only through its words. Only `SearchScope` assumes that
  they return no chunk of another tenant or collection, which their WHERE clauses say.
- A compiled pattern finds a match at a position if and only if some word of the pattern starts
  there; which of several words it prefers is left open.

## Where the code and its documentation differ

The model follows the code.

- `pipeline.py:3-6` says that a failure at any point leaves the system recoverable. It does exactly
  when attempts are left and the document is REGISTERED or INDEXED (`RetryCompletesExactlyWhen`):
  INGESTING to INGESTING is not an allowed transition, so an attempt that stops between the commits of
  `mark_ingesting` and `mark_indexed` makes every later attempt fail (`StoppingInTheWindowSticks`,
  `StuckJobsDie`; `RetryCanBeHopeless` is such a run).
- `worker.py:4-5` says that the document of a dead job is marked FAILED. It can be exactly if it is
  INGESTING when the job is buried (`BuriedIsMarkedExactlyWhen`, `DeadIsMarkedExactlyWhen`):
  `mark_failed` refuses a REGISTERED, an INDEXED and a DELETED document, and the refusal is swallowed.
  An INGESTING one is left so exactly if the worker that buried the job crashes, or its exception in
  `mark_failed` is swallowed, before that (`LeftIngestingExactlyBy`). When the worker has let go of
  the job (`SettledExactlyBy`) the document keeps its status for ever, or is deleted
  (`SettledForever`). `DeadCanBeRegistered`, `DeadCanBeIndexed` and `DeadCanBeIngesting` are such runs.
- `worker.py:6` says that locks are released on shutdown. Only a graceful stop does that: a crash leaves
  the rows of the batch PROCESSING for ever, since there is no lease (`OrphanedExactlyBy`,
  `OrphansStayForever`; `JobCanBeOrphaned` is such a run).
- A delete can be undone exactly if a transition that was checked before it has still to be committed
  (`DeleteCanBeUndoneExactlyWhen`; `DeleteCanBeLost` is such a run).
- Deleting a document does not delete its chunks, and the queries of a search do not look at documents:
  they find the chunks of deleted documents for ever (`ChunksStayForever`, `DeletedCanBeSearched`).
- `embedding.py:5-7` says that texts which share vocabulary are more similar. Texts without collisions
  are similar exactly if they share a token (`SimilarExactlyWhenShared`); a collision of tokens with
  opposite signs can make texts that share one dissimilar (`CollisionsCanHideSharing`).
- The registration handler ignores deleted documents when it looks for a duplicate, the unique key
  does not: content whose document is deleted can never be registered again (`RegistrationsAreExact`,
  `DeletedHashIsRefused`; `RegistrationCanBeRefused` is such a run).
- `tests/unit/ingestion/test_chunking.py:27` allows `chunk_size + chunk_overlap` characters a piece.
  The bound is one more when there is overlap, and every configuration reaches it (`LimitIsReached`).
- Every part of a sentence split gets its full stop back, also the last one, so text is not kept
  exactly; `SplitRecoversText` says when it is, and `LongLineGainsAStop` is a text for which it is not.
- A cached answer can combine two states of the chunks table, because the two queries of a search
  are two statements, and it can be older than the time to live by the time that the search which
  computed it took (`AnswersAreLive`, `TtlBoundsAgeExactlyWhen`, `SlowSearchIsStale`).

## Model

| member | source | states |
|---|---|---|
| RecursiveSplit.Config.Make | src/eka/modules/ingestion/domain/chunking.py:25-29 | a configuration is refused exactly if the size is not positive or the overlap not in [0, size), with the size checked first |
| Text.StripAround | src/eka/modules/ingestion/domain/chunking.py:37 | stripping takes the whitespace at both ends away and nothing else |
| Text.SplitsAtFirst | src/eka/modules/ingestion/domain/chunking.py:48 | splitting cuts at the first occurrence of the separator each time, and none is left in the last part |
| RecursiveSplit.SplitRecursively | src/eka/modules/ingestion/domain/chunking.py:44-59 | the recursive loop returns the fragments of the specification, for every text, configuration and level |
| RecursiveSplit.FragmentsFit | src/eka/modules/ingestion/domain/chunking.py:44-59 | no fragment is empty or larger than a chunk |
| RecursiveSplit.FragmentsAreCoarsest | src/eka/modules/ingestion/domain/chunking.py:44-59 | the fragments are exactly the non-empty pieces that fit in a chunk and come out of cutting, separator by separator, only pieces that do not fit |
| RecursiveSplit.SplitConserves | src/eka/modules/ingestion/domain/chunking.py:44-59 | the fragments keep every character but whitespace and full stops, in order; each sentence split adds exactly one full stop, and with none the ink is kept exactly |
| Packing.Merge | src/eka/modules/ingestion/domain/chunking.py:61-77 | the merge loop computes the packing of the specification, which for fragments that fit is greedy |
| Packing.MergeExactlyWhen | src/eka/modules/ingestion/domain/chunking.py:61-77 | chunks are the result if and only if the fragments can be cut into runs, one a chunk, such that each chunk is the tail of the one before joined with its run, every fragment after the first of a run still fitted, and the first did not fit into the chunk before |
| Packing.OneChunkIfAllFit | src/eka/modules/ingestion/domain/chunking.py:61-77 | fragments that fit together are one chunk |
| Packing.PackAllPacked | src/eka/modules/ingestion/domain/chunking.py:61-77 | the loop keeps every emitted chunk non-blank and within the bound; an oversized current chunk is trimmed |
| Packing.OversizedBranchIsDead | src/eka/modules/ingestion/domain/chunking.py:72-74 | the branch for oversized fragments is never taken on fragments that fit |
| Packing.PackAllOverlaps | src/eka/modules/ingestion/domain/chunking.py:61-82 | each chunk starts with the left-stripped tail of the one before it |
| Packing.MergeReassembles | src/eka/modules/ingestion/domain/chunking.py:61-82 | dropping from each chunk as much ink as the tail before it has gives the ink of all fragments in order |
| Chunker.Split | src/eka/modules/ingestion/domain/chunking.py:36-42 | `split` returns the chunk texts numbered from 0 |
| Chunker.SplitIsSound | src/eka/modules/ingestion/domain/chunking.py:36-82 | for every text and configuration each piece has ink and is at most `Limit` long, and there is no piece exactly for blank text |
| Chunker.SplitOverlaps | src/eka/modules/ingestion/domain/chunking.py:36-82 | consecutive pieces overlap |
| Chunker.SplitPacksExactlyWhen | src/eka/modules/ingestion/domain/chunking.py:36-82 | the pieces of a text are the greedy packing of its fragments and nothing else is |
| Chunker.ShortTextIsOnePiece | src/eka/modules/ingestion/domain/chunking.py:36-82 | a text that fits in a chunk is one piece |
| Chunker.SplitRecoversText | src/eka/modules/ingestion/domain/chunking.py:36-82 | taking the overlaps out gives the text back up to whitespace and full stops, and its ink exactly if and only if no line is longer than a chunk |
| Chunker.LimitIsReached | src/eka/modules/ingestion/domain/chunking.py:61-82 | for every configuration some text has a piece of exactly `Limit` characters |
| LongLineExample.LongLineGainsAStop | src/eka/modules/ingestion/domain/chunking.py:44-59 | with chunks of one character the line "ab" comes back as "ab." |
| Chunker.CreateChunk | src/eka/modules/ingestion/domain/chunk.py:18-72 | a chunk is refused exactly if its text is blank or its ordinal negative |
| Chunker.PiecesAreAccepted | src/eka/modules/ingestion/domain/chunk.py:22-24 | building a chunk from a piece of the chunker never raises and keeps its ordinal and text |
| Jobs.BackoffShape | src/eka/modules/ingestion/application/jobs.py:24-33 | the backoff never shrinks and is saturated exactly from the eleventh failure on |
| Jobs.TotalBackoffClosedForm | src/eka/modules/ingestion/application/jobs.py:24-33 | the total wait is 5(2^n - 1) up to ten failures and 5115 + 3600(n - 10) beyond |
| Jobs.JobQueue.Enqueue | src/eka/modules/ingestion/infrastructure/queue.py:32-65 | a job is inserted, available at once and with no attempts, unless its document and version has one |
| Jobs.JobQueue.Dequeue | src/eka/modules/ingestion/infrastructure/queue.py:67-101 | exactly the claimed rows become PROCESSING and locked by the worker, every other column and row is as before, and the snapshots are those of the rows before |
| Jobs.JobQueue.Complete | src/eka/modules/ingestion/infrastructure/queue.py:103-115 | every column of the row after a completion; no other row changes |
| Jobs.JobQueue.Fail | src/eka/modules/ingestion/infrastructure/queue.py:117-147 | every column of the row after a failure: attempts, error cut to 2000 characters, dead or available again exactly its backoff later; no other row changes |
| Jobs.ClaimedAt | src/eka/modules/ingestion/infrastructure/queue.py:84-101 | claiming a batch row by row claims each row once from what it was |
| Jobs.LongestWaitingFirst | src/eka/modules/ingestion/infrastructure/queue.py:67-82 | a job among the `limit` that have been available for longest is claimed, and one with `limit` others before it is not |
| Documents.Document.Register | src/eka/modules/documents/domain/document.py:123-156 | the fields and the first event of a new document |
| Documents.Document.PullEvents | src/eka/shared/domain/base.py:60-62 | hands over all pending events and keeps none |
| Documents.Document.Transition | src/eka/modules/documents/domain/document.py:158-164 | raises exactly for transitions that are not allowed, and then changes nothing |
| Documents.Document.Mark | src/eka/modules/documents/domain/document.py:166-173 | each of the three lifecycle methods raises exactly from the wrong states and sets its own status and nothing else |
| Documents.Document.ChangeContent | src/eka/modules/documents/domain/document.py:175-191 | new content resets the status to REGISTERED, counts the version and records an event; the same content and a deleted document change nothing |
| Documents.Document.Delete | src/eka/modules/documents/domain/document.py:193-197 | ends DELETED from any state, with one event the first time and no change afterwards |
| Documents.LogReplaysToState | src/eka/modules/documents/domain/document.py:124-197 | over any calls, batches handed over and pending events are the whole history, which replays to hash, version and deletion; at most one deletion, nothing after it |
| Documents.HistoryIsAbout | src/eka/modules/documents/domain/document.py:124-197 | every event names the document and its tenant |
| SagaLifecycle.ChecksAreTheAggregates | src/eka/modules/documents/application/lifecycle.py:19-26 | the check of a transition in the saga passes if and only if the document is found and the method of the aggregate does not raise |
| SagaLifecycle.CommitsAreTheAggregates | src/eka/modules/documents/application/lifecycle.py:26-28 | the commit of a transition writes what the method of the aggregate made of the row that was checked |
| SagaLifecycle.DeletesAreTheAggregates | src/eka/modules/documents/application/commands.py:69-76 | the same for a delete |
| SagaLifecycle.RegistersTheAggregate | src/eka/modules/documents/application/commands.py:46-55 | the same for a registration |
| SagaSteps.StepKeepsInv | src/eka/modules/ingestion/application/pipeline.py:41-75 | every step of every actor keeps the invariant |
| SagaSteps.RunKeepsInv | src/eka/modules/ingestion/application/pipeline.py:41-75 | every reachable state has the invariant |
| SagaRuns.IndexConsistent | src/eka/modules/ingestion/application/pipeline.py:41-75 | in every reachable state a document has no chunks or exactly the split of its content, each chunk with its ordinal, text, embedding and the tenant, collection and version of the document; an INDEXED document, and the INDEXED or DELETED document of a COMPLETED job, has them; a FAILED document's job is dead |
| SagaRuns.CompletedStaysIndexed | src/eka/worker.py:73-76 | from its completion on, a job's row never changes and its document stays INDEXED or DELETED with exactly its chunks |
| SagaRuns.TerminalForever | src/eka/modules/ingestion/infrastructure/queue.py:103-147 | completed and dead rows never change |
| SagaRuns.ClaimsAreExclusive | src/eka/modules/ingestion/infrastructure/queue.py:67-101 | no two workers hold the same job, and what a worker carries of a job that is not dead is its row: PENDING while locked, PROCESSING afterwards |
| SagaRuns.FailIsAnIncrement | src/eka/modules/ingestion/infrastructure/queue.py:117-147 | writing the snapshot's attempts plus one increments the row, which is PROCESSING, by exactly one; the job is dead exactly at the limit and otherwise available its backoff after the clock; other jobs are untouched |
| SagaRuns.LedgerBalances | src/eka/modules/ingestion/infrastructure/queue.py:40-147 | claims = attempts + 1 if PROCESSING or COMPLETED; the limit is reached exactly by dead jobs |
| SagaRuns.RetriesAreSpaced | src/eka/modules/ingestion/infrastructure/queue.py:117-139 | after `a` failures a job is not available before the first `a` backoffs have passed since its creation, and not dead before all but the last have |
| SagaRuns.BackoffIsExact | src/eka/modules/ingestion/infrastructure/queue.py:117-139 | in every reachable state a waiting job becomes available exactly the backoff of its failures after the step in which it last failed, or at once if it is new |
| SagaRuns.StatusOnlyChangesBy | src/eka/modules/documents/application/lifecycle.py:19-37 | only the commits of transitions of its own job's holder and of deletes change a document, and only its status |
| SagaRuns.StoppingInTheWindowSticks | src/eka/modules/ingestion/application/pipeline.py:43-74 | an attempt that stops between the two transitions, by an exception of one of its steps, by any other exception or by a crash, leaves its job stuck |
| SagaRuns.StuckForever | src/eka/modules/documents/domain/document.py:39-47 | a stuck job stays stuck in every later state |
| SagaBurials.BuriedIsMarkedExactlyWhen | src/eka/modules/documents/domain/document.py:39-47 | when its job has just been buried, some continuation has the document FAILED if and only if it is INGESTING, or FAILED already; a REGISTERED, INDEXED or DELETED document never becomes FAILED |
| SagaBurials.DeadIsMarkedExactlyWhen | src/eka/worker.py:86-90 | at any time after the death of a job its document can become FAILED if and only if it is so, or the worker that buried the job has passed the check of `mark_failed` or will find it INGESTING |
| SagaBurials.SettledExactlyBy | src/eka/worker.py:86-90 | a step leaves a job dead and with no worker if and only if it is the commit, the refused check, the swallowed exception or the crash of the worker that buried it; the document is then FAILED exactly by the commit and otherwise has the status it had |
| SagaBurials.SettledForever | src/eka/worker.py:73-90 | once a job is dead and no worker has it, its document has the same status in every later state or is DELETED |
| SagaBurials.LeftIngestingExactlyBy | src/eka/worker.py:86-90 | a step leaves the document of a dead job INGESTING if and only if it is INGESTING and the step is a crash or a swallowed exception of the worker that buried the job |
| SagaDeaths.StuckJobsDie | src/eka/worker.py:73-90 | under any interference a stuck job never completes, is dead exactly when claimed `max_attempts` times and not being processed, and its document is never indexed; once the job is dead and let go, the document is FAILED or DELETED unless marking it was abandoned |
| SagaDeaths.StuckJobsDieExactlyUnless | src/eka/worker.py:67-90 | a stuck job can still die if and only if no crash has orphaned it |
| SagaOutcomes.AttemptCompletesExactlyWhen | src/eka/modules/ingestion/application/pipeline.py:41-75 | at its start an attempt can lead to completion if and only if the document is REGISTERED or INDEXED |
| SagaOutcomes.CrashOrphans | src/eka/worker.py:67-90 | a crash leaves the jobs of the batch PROCESSING with no holder |
| SagaOutcomes.OrphanedExactlyBy | src/eka/worker.py:67-90 | a step orphans a job if and only if it is a crash of the worker that is processing it |
| SagaOutcomes.OrphansStayForever | src/eka/modules/ingestion/infrastructure/queue.py:67-88 | an orphaned job is never claimed or changed again |
| SagaOutcomes.DeleteIsUndoneExactlyBy | src/eka/modules/documents/application/lifecycle.py:19-28 | a deleted document comes back exactly by the commit of a transition of its job that was checked before |
| SagaOutcomes.DeleteCanBeUndoneExactlyWhen | src/eka/modules/documents/application/lifecycle.py:19-28 | some continuation brings a deleted document back if and only if a checked transition of it is in flight |
| SagaOutcomes.SafelyDeletedForever | src/eka/modules/documents/application/commands.py:69-76 | a delete is final if no checked transition was in flight |
| SagaOutcomes.IdentityStays | src/eka/modules/documents/infrastructure/repository.py:60-65 | no document disappears or changes tenant, collection, hash or version |
| SagaOutcomes.ChunksStayForever | src/eka/modules/documents/application/commands.py:69-76 | stored chunks of a document never change again and stay searchable, also when the document is deleted |
| SagaOutcomes.FoundExactlyInScope | src/eka/modules/retrieval/infrastructure/pgvector_retriever.py:19-40 | in every reachable state the queries find a chunk exactly for the tenant and, with a filter, the collection of its document |
| SagaTenants.OnlyItsTenant | src/eka/modules/documents/infrastructure/repository.py:67-74 | in every reachable state a deleted document was asked to be deleted by its own tenant, stored content was uploaded by the tenant of its document, and only such documents have jobs |
| Registration.Handle | src/eka/modules/documents/application/commands.py:37-56 | the handler returns a document exactly if its lookup finds one that is not deleted; otherwise it inserts or the unique key raises, whatever others do between the two |
| Registration.RegistrationsAreExact | src/eka/modules/documents/infrastructure/repository.py:76-85 | in every reachable state a registration returns the document with the content if and only if it is not deleted, raises if and only if it is deleted, and creates one if and only if there is none |
| Registration.HashStaysTaken | src/eka/modules/documents/infrastructure/models.py:22 | once content has been registered in a tenant, no registration creates a document for it again |
| Registration.DeletedHashIsRefused | src/eka/modules/documents/infrastructure/models.py:22 | after a final delete every registration of the content raises |
| Registration.RegistrationCanBeRefused | src/eka/modules/documents/infrastructure/models.py:22 | a run after which registering raises |
| SagaRetry.PendingIsTaken | src/eka/modules/ingestion/infrastructure/queue.py:67-101 | whatever else is queued, a waiting job can be claimed |
| SagaRetry.PendingCompletes | src/eka/modules/ingestion/infrastructure/queue.py:67-101 | a waiting job can be completed if its document can be ingested |
| SagaRetry.SpentForever | src/eka/modules/ingestion/infrastructure/queue.py:117-147 | when the last attempt has failed the job is never completed, recorded or not |
| SagaRetry.RetryCompletesExactlyWhen | src/eka/worker.py:73-90 | after an attempt raised, the job can still complete if and only if it was not the last attempt and the document is REGISTERED or INDEXED |
| SagaLedger.EffortIsPaid | src/eka/worker.py:67-86 | every claim, completion and failure decreases the work left; only new jobs add any |
| SagaLedger.EffortIsBounded | src/eka/worker.py:67-86 | over any run, claims, completions and failures are at most twice the attempts granted |
| SagaWitnesses.DeleteCanBeLost | src/eka/modules/documents/application/lifecycle.py:19-28 | a run in which a deleted document becomes INDEXED again |
| SagaWitnesses.DeletedCanBeSearched | src/eka/modules/retrieval/infrastructure/pgvector_retriever.py:19-40 | a run after which a deleted document has chunks that the queries find |
| SagaWitnesses.RetryCanBeHopeless | src/eka/modules/ingestion/application/pipeline.py:43-74 | a run in which the first of several attempts raises after `mark_ingesting` and no retry can complete the job |
| SagaWitnesses.DeadCanBeRegistered | src/eka/worker.py:77-90 | a run after which a job is dead for good and its document is REGISTERED |
| SagaWitnesses.DeadCanBeIndexed | src/eka/worker.py:73-90 | a run after which a job is dead for good and its document is INDEXED |
| SagaWitnesses.DeadCanBeIngesting | src/eka/worker.py:86-90 | a run after which a job is dead for good and its document is INGESTING |
| SagaWitnesses.JobCanBeOrphaned | src/eka/worker.py:67-90 | a run after which a job is PROCESSING and no worker has it |
| SagaDatabase.Database.Take | src/eka/modules/ingestion/infrastructure/unit_of_work.py:43-45 | a step applied to the database extends the run that led to it |
| IngestionWorker.BuildChunks | src/eka/modules/ingestion/application/pipeline.py:50-70 | one row for each piece, with its ordinal, text and embedding and the document, tenant, collection and version of the job, or an exception exactly if some piece is blank |
| IngestionWorker.Worker.Transition | src/eka/modules/documents/application/lifecycle.py:19-37 | under any interference the document is marked or an exception is raised; left alone, exactly according to the transition table |
| IngestionWorker.Worker.Handle | src/eka/modules/ingestion/application/pipeline.py:41-75 | ends after `mark_indexed`, at an exception or in a crash; left alone it succeeds if and only if the document is REGISTERED or INDEXED, and raises before changing anything otherwise |
| IngestionWorker.Worker.RecordFailure | src/eka/worker.py:77-90 | under any interference the row after the exception handler; left alone, the document of a dead job is FAILED if it was INGESTING and otherwise as it was, since `mark_failed` is refused, and a job that is not dead leaves all documents alone |
| IngestionWorker.Worker.Process | src/eka/worker.py:73-90 | under any interference the job ends completed, pending with one more attempt, or dead, or the worker is gone; left alone the outcome is determined |
| IngestionWorker.Worker.DrainOnce | src/eka/worker.py:67-71 | every job of a claimed batch gets an outcome, and final ones are in the queue at the end, whatever others do |
| ChunkRepository.Repository.DeleteForDocument | src/eka/modules/ingestion/infrastructure/repository.py:53-61 | removes the rows of the document and tenant and no others |
| ChunkRepository.Repository.ReplaceForDocument | src/eka/modules/ingestion/infrastructure/repository.py:33-51 | replaces them, or changes nothing exactly if the unique key would be violated |
| ChunkRepository.ReplaceThenList | src/eka/modules/ingestion/infrastructure/repository.py:33-76 | afterwards the document lists exactly the new chunks in order, and every other document and tenant what it did |
| ChunkRepository.ReplaceIsIdempotent | src/eka/modules/ingestion/infrastructure/repository.py:33-51 | replacing again with the same chunks changes nothing |
| ChunkRepository.IndexStoresTheChunks | src/eka/modules/ingestion/application/pipeline.py:59-72 | the saga's indexing step is this replacement, and it never violates the unique key |
| Ingestion.AttemptsNeverFailOnText | src/eka/modules/ingestion/application/pipeline.py:50-70 | with the real chunker no text can make an attempt fail |
| Ingestion.IndexHoldsTheDocument | src/eka/modules/ingestion/application/pipeline.py:41-75 | in every reachable state the chunks of an INDEXED document give back the text it was registered with, up to whitespace and full stops, and every chunk is sound, overlaps and has a unit embedding |
| StableSort.SortIsStable | src/eka/modules/retrieval/infrastructure/pgvector_retriever.py:84 | the sort is a descending permutation that keeps ties in order |
| StableSort.StableSortIsUnique | src/eka/modules/retrieval/infrastructure/pgvector_retriever.py:84 | no other arrangement is |
| StableSort.TiesKeepOrder | src/eka/modules/retrieval/infrastructure/pgvector_retriever.py:84 | elements with the same score come out in the order they came in |
| Fusion.Fuse | src/eka/modules/retrieval/domain/fusion.py:14-23 | the accumulated dictionary holds each item's sum of 1/(k + rank), in insertion order, or k is refused |
| Fusion.OrderIsUnion | src/eka/modules/retrieval/domain/fusion.py:19-23 | its keys are exactly the items of the rankings |
| Fusion.FirstSeenOrder | src/eka/modules/retrieval/domain/fusion.py:19-23 | the keys are in the order of their first occurrences |
| Fusion.FromRankingAt | src/eka/modules/retrieval/domain/fusion.py:19-23 | in a ranking without duplicates the item at place `rank` gets 1/(k + rank) |
| Fusion.FusedMass | src/eka/modules/retrieval/domain/fusion.py:19-23 | its values add up to the harmonic sums of the rankings' lengths |
| Fusion.ScoreIgnoresOrder | src/eka/modules/retrieval/domain/fusion.py:19-23 | scores do not depend on the order of the rankings |
| Fusion.DominanceRaisesScore | src/eka/modules/retrieval/domain/fusion.py:19-23 | an item ranked no worse everywhere and better somewhere scores strictly more |
| Fusion.ConsensusWins | src/eka/modules/retrieval/domain/fusion.py:19-23 | an item of both of two arms of at most k + 1 scores above every item of one |
| Fusion.ConsensusBoundIsTight | src/eka/modules/retrieval/domain/fusion.py:19-23 | with k + 2 there is a tie |
| Retriever.Retrieve | src/eka/modules/retrieval/infrastructure/pgvector_retriever.py:77-93 | catalog, fusion, sort and cut compute the pool of the two arms |
| Retriever.PoolExactlyWhen | src/eka/modules/retrieval/infrastructure/pgvector_retriever.py:77-93 | a list is the pool if and only if it has min(pool_size, ids of both arms) chunks of the arms, each with the sum of its two reciprocal ranks and the document and text of the last row with its id, and each before everything it outranks by score and then by first occurrence, in the pool or not |
| Retriever.NothingIsDropped | src/eka/modules/retrieval/infrastructure/pgvector_retriever.py:84-93 | with a place for every id of both arms the pool has them all |
| Retriever.PoolIsOrdered | src/eka/modules/retrieval/infrastructure/pgvector_retriever.py:77-93 | the pool has the stated size, no chunk twice, and fused scores in descending order |
| Retriever.BestInCatalog | src/eka/modules/retrieval/infrastructure/pgvector_retriever.py:85-93 | no lookup in the catalog misses |
| Retriever.ConsensusIsKept | src/eka/modules/retrieval/infrastructure/pgvector_retriever.py:84-93 | a pool of at most 61 places never drops a chunk that both arms return |
| Reranker.Rerank | src/eka/modules/retrieval/infrastructure/reranker.py:25-58 | the loop, sort and cut compute the specification |
| Reranker.RerankIsStableTopK | src/eka/modules/retrieval/infrastructure/reranker.py:25-58 | under the reranker's own scores, which are in [0, 1] and go with unchanged candidates, exactly the best min(top_k, n) are kept, ties in input order, nothing dropped above anything kept |
| Reranker.RerankExactlyWhen | src/eka/modules/retrieval/infrastructure/reranker.py:25-58 | a list is the result if and only if it is the stable top-k under those scores |
| Reranker.ScoreRises | src/eka/modules/retrieval/infrastructure/reranker.py:34-46 | other things being equal a score rises exactly with the retrieval score and with the number of query tokens found, and the phrase adds a tenth |
| Reranker.ScoreExtremes | src/eka/modules/retrieval/infrastructure/reranker.py:34-46 | a score is 1 exactly for the best retrieval score, all tokens and the phrase, and 0 exactly for the worst, none and no phrase; all tokens always beat none |
| Reranker.ScoreParts | src/eka/modules/retrieval/infrastructure/reranker.py:34-46 | the score is 0.3, 0.6 and 0.1 of its three parts, the first nothing without a span and the second nothing without query tokens |
| Reranker.RangeIsAttained | src/eka/modules/retrieval/infrastructure/reranker.py:33-35 | the span is that of the lowest and the highest score of some candidates |
| Reranker.KeptAreCandidates | src/eka/modules/retrieval/infrastructure/reranker.py:48-58 | min(top_k, n) of the candidates are kept |
| Reranker.RerankIgnoresScale | src/eka/modules/retrieval/infrastructure/reranker.py:34-44 | a positive affine change of all retrieval scores changes nothing |
| Reranker.RerankNormalizes | src/eka/modules/retrieval/infrastructure/reranker.py:31-46 | the result depends on the query through its normal form only |
| Tokenizer.TokensOfNormalized | src/eka/modules/retrieval/application/cache_key.py:13-14 | queries with the same normal form have the same tokens |
| Tokenizer.TokensAreRuns | src/eka/modules/retrieval/infrastructure/reranker.py:16-22 | the tokens are the maximal runs of lower-case letters and digits, from left to right |
| Tokenizer.WordsAreRuns | src/eka/modules/retrieval/application/cache_key.py:13-14 | the words are the maximal runs without whitespace, from left to right |
| Tokenizer.SameNormalFormExactlyWhen | src/eka/modules/retrieval/application/cache_key.py:13-14 | two texts have the same normal form if and only if they have the same words in lower case; a normal form has no whitespace at its ends and only single spaces |
| Tokenizer.NormalExactlyWhen | src/eka/modules/retrieval/application/cache_key.py:13-14 | exactly such texts are left alone by splitting and joining |
| Tokenizer.NormalizeTwice | src/eka/modules/retrieval/application/cache_key.py:13-14 | normalizing again does nothing if and only if lower-casing the normal form leaves its words alone |
| Tokenizer.NormalizeIsIdempotent | src/eka/modules/retrieval/application/cache_key.py:13-14 | for lower-casing that works character by character and does nothing a second time, normalizing again does nothing |
| HashingEmbedding.EmbedOne | src/eka/modules/ingestion/infrastructure/embedding.py:33-44 | the loop over the buckets computes the embedding of the specification |
| HashingEmbedding.TokenChangesOneEntry | src/eka/modules/ingestion/infrastructure/embedding.py:34-39 | a token changes exactly the entry that its digest names, by its sign |
| HashingEmbedding.EmbeddingScalesWeights | src/eka/modules/ingestion/infrastructure/embedding.py:40-44 | an embedding is the sum of the signs scaled to length one, or the first unit vector if that sum is zero |
| HashingEmbedding.OneTokenEmbedding | src/eka/modules/ingestion/infrastructure/embedding.py:33-44 | the embedding of one token is the unit vector of its entry with its sign |
| HashingEmbedding.EmbeddingIsUnit | src/eka/modules/ingestion/infrastructure/embedding.py:40-44 | every embedding has the model's dimension and length one |
| HashingEmbedding.EmbeddingIgnoresOrder | src/eka/modules/ingestion/infrastructure/embedding.py:33-44 | it depends on the tokens and their numbers, not on their order |
| HashingEmbedding.EmbeddingNormalizes | src/eka/modules/ingestion/infrastructure/embedding.py:33-44 | it depends on a query through its normal form only |
| HashingEmbedding.SimilarExactlyWhenShared | src/eka/modules/ingestion/infrastructure/embedding.py:1-8 | without collisions the similarity of two texts is positive if they share a token and zero otherwise |
| HashingEmbedding.CollisionsCanHideSharing | src/eka/modules/ingestion/infrastructure/embedding.py:1-8 | with a collision of opposite signs texts that share a token can have a negative product |
| CacheKeys.KeysAreExact | src/eka/modules/retrieval/application/cache_key.py:17-26 | two searches share a key if and only if tenant, collection filter, top_k and, in lower case, words agree |
| Search.MakeQuery | src/eka/modules/retrieval/domain/search.py:25-29 | a query is refused exactly if it is blank or top_k is not in 1..50 |
| Search.InMemorySearchCache.Get | src/eka/modules/retrieval/infrastructure/memory_cache.py:13-21 | a hit exactly for an entry that has not expired; an expired one is removed |
| Search.InMemorySearchCache.Set | src/eka/modules/retrieval/infrastructure/memory_cache.py:23-24 | the entry and its expiry |
| Search.Handle | src/eka/modules/retrieval/application/search.py:46-75 | the answer and the cache after a search that hits and after one that misses; the latter is the stable top-k of the pool of the two arms, which are asked for the tenant, the collection, the query's own embedding and its text |
| Search.SharedKeysAgree | src/eka/modules/retrieval/application/search.py:46-75 | searches that share a key have the same live answer on every corpus |
| SearchScope.LiveStaysInScope | src/eka/modules/retrieval/infrastructure/pgvector_retriever.py:58-93 | if the queries keep to what they are asked for, a live answer has only chunks of the tenant and, with a filter, the collection, and at most top_k |
| SearchScope.AnswersStayInScope | src/eka/modules/retrieval/infrastructure/pgvector_retriever.py:1-7 | the same for every answer of every run, from the cache or not |
| SearchRuns.AnswersAreLive | src/eka/modules/retrieval/application/search.py:46-75 | over any run, every answer is the live answer to its own query and tenant from what the search that computed it read; that search finished in this step or at most the time to live ago, and its readings are no older than that and its duration |
| SearchRuns.SlowSearchIsStale | src/eka/modules/retrieval/application/search.py:61-66 | the bound is reached: after a search that takes `d` an answer is given from a corpus that has been gone for the whole time to live |
| SearchRuns.TtlBoundsAgeExactlyWhen | src/eka/modules/retrieval/application/search.py:61-66 | the time to live alone bounds the age of what answers are computed from if and only if searches take no time |
| SearchRuns.HandleIsSteps | src/eka/modules/retrieval/application/search.py:46-75 | the handler is the sequence of those steps |
| Guard.Substitute | src/eka/modules/generation/domain/guardrails.py:36 | the left-to-right scan of one pass; it replaces words of the pattern by the mark, counts them and keeps all text around them |
| Guard.PassReplacesWords | src/eka/modules/generation/domain/guardrails.py:36 | a pass is the text with some words of the pattern replaced by the mark and nothing else changed |
| Guard.Scan | src/eka/modules/generation/domain/guardrails.py:32-39 | the loop over the patterns |
| Guard.ScanIsComplete | src/eka/modules/generation/domain/guardrails.py:32-39 | after all passes no pattern matches anywhere: no redaction completes a match of an earlier pattern |
| Guard.ScanIsIdempotent | src/eka/modules/generation/domain/guardrails.py:32-39 | a second scan changes and flags nothing |
| Guard.FlagMeansChange | src/eka/modules/generation/domain/guardrails.py:32-39 | the flag is raised if and only if the text changed |
| Guard.FlagMeansMatch | src/eka/modules/generation/domain/guardrails.py:32-39 | the flag is raised if and only if some pattern matches in the text as it came in |
| GuardPatterns.CompiledIsRedactable | src/eka/modules/generation/domain/guardrails.py:12-26 | a syntactic check of a regular expression that is enough for the guard |
| GuardPatterns.GuardIsSound | src/eka/modules/generation/domain/guardrails.py:12-39 | completeness, idempotence and the meaning of the flag for the six patterns of the code |
| GuardPhrases.PatternsMeanExactly | src/eka/modules/generation/domain/guardrails.py:12-26 | each of the six patterns matches exactly its phrases: their words in either case with whitespace between, and whitespace or a colon after them where it asks for that |
| GuardPhrases.SameLetterInAscii | src/eka/modules/generation/domain/guardrails.py:12-26 | in ASCII, in either case means the same letter in upper or lower case |
| GuardPhrases.FlagsExactlyOverrides | src/eka/modules/generation/domain/guardrails.py:12-39 | the guard flags and changes a text if and only if one of the phrases occurs in it, and none is left in what it returns |

## Left out

- Routers, schemas, middleware, authentication, settings, logging, metrics, migrations and deployment: plumbing.
- SQL, SQLAlchemy sessions, vector and full-text ranking: tables are maps and sequences, query results are parameters.
- Redis and its JSON encoding: a cache that may lose any entry and fail at any time, which the steps of `SearchRuns` cover.
- Floating-point rounding: scores, embeddings and the weights 0.3, 0.6 and 0.1 are exact real numbers.
- `change_content` as a step of the saga: no handler calls it, so versions stay 1; it is in the class `Document`.
- Titles and sources of documents, and the syntax of digests: no step depends on them.
- The polling loop around `_drain_once`: it calls `DrainOnce` again and again, and stopping it only ends the calls.
- Several readings of the clock within one transaction: all of them are the clock of the step.
- A chunk vector of a dimension other than the column's 384: the exception the database raises is one of the saga's exceptions.
- Lone surrogates, which cannot be encoded as UTF-8: strings are sequences of code points.
- IngestionWorker.Worker.Handle: the early return for a text without pieces is the general path with no chunks, since both store the empty set, commit and call `mark_indexed`.
- `InMemorySearcher`: the same fusion and reranking over a corpus in memory; it would add no new property.
- Prompt assembly, answer generation, evaluation metrics and pagination: easy members.
