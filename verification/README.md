# Verification of the ingest path

This project models how a source travels through the system and proves what holds of it in
every run. Four parts belong together:

1. **The source lifecycle** (`SourceTable`, `SourceProtocol`, `ProtocolInvariant`, `ProtocolPreservation`,
   `ProtocolSteps`, `ProtocolTheorems`, `ProtocolCancels`, `ProtocolAnswers`, `ProtocolBucket`, `ProtocolLimits`,
   `ProtocolRaces`, `SourceService`).
   `SourceProtocol` is an interleaved step system: any number of uploads, retries and deletes
   are in flight, each with a program counter in front of its next external call; an event
   advances one call by one external call that succeeds or fails without effect, or stops a
   call for good. `Run(events)` is the state after any list of events, so a lemma about `Run`
   is a statement about every interleaving. `SourceService` is the service as it is written, a
   class whose methods make their external calls one after the other with deferred
   compensations; each method is proved to be a solo run of the step system, and what it answers and
   leaves is written out by the outcomes of its external calls (`UploadPromise`, `RetryPromise`, `DeletePromise`).
2. **The upload stream** (`UploadStream`): the chunk loop with its size bound and content sniffing, and the drain loop.
3. **The ingest worker** (`Embedding`, `Chunking`, `VectorStore`, `Worker`, `Offsets`, `Ingest`): flatten, embed in
   batches, re-order, split back; nested inserts in one transaction and the cascading delete;
   bounded retries; positions and commits. `Ingest` puts them together: a run is a list of
   fetches, stops and restarts, and what the store holds after it is a function of the records
   that were handled (`StoreAfterRun`).
4. **Retrieval** (`Retrieval`) and the path from a message to a context (`EndToEnd`).
   `ObjectNames` holds the object name printer and the parser the worker runs on it; `Options` and `Sets` are helpers.

Assumptions written into the model:

- An external call that returns an error had no effect. Updates of a missing row succeed and change nothing.
- Row ids are fresh and increasing; job ids (UUIDs) are distinct and numbered in the order they are drawn.
- An authenticated owner id contains no `/` (`GoodEvents`); `SlashInOwnerCollides` shows why this is needed.
- Scores are reals. The content sniffer looks at no more than 512 bytes and is otherwise arbitrary; so are the
  splitter, the white space test, the embedding function and the rerank score.
- The embedding API answers a batch with one embedding per text, tagged with its index, in any order (`IsResponse`).
- `commit()` without arguments commits the consumer's position on every partition it has been assigned.
- A chunk is shorter than 2^63 - 2^30 bytes, so its length can be added in 64 bits (`Addable`).

What the proofs found:

- Two calls that both answer success can leave an accepted upload without a row, its object orphaned and its
  job announced but never to be cancelled (`AcceptedUploadMayHaveNoRow`). An accepted upload's row exists if and
  only if no delete removed it (`AcceptedMeans`). Without crashes and failing storage deletes its object is left
  behind if and only if that delete had read the row before the path was recorded, so that the guard at
  `sources/internal/service/source.go:143` skipped the object (`BucketHoldsExactly`, `BucketIsCleanExactly`).
- A job is cancelled if and only if a delete read its row as pending with just this job, removed the row, and got
  its message through (`CancelsExactlyWhatWasReadPending`). A job that no live row and no call at work knows any
  more is never cancelled, whatever happens next, and any other one still can be (`CancelledLaterExactly`). So an
  announced job whose source is gone may run on (`JobsOfDeletedSources`), also when all calls succeed and a retry
  has put a second job into the row (`OverwrittenJobIsNeverCancelled`).
- The limit of 20 sources is exact only for uploads that do not overlap between check and insert; with k of them
  it is 19 + k, and that number is reached with no more than k uploads at work (`RowsStayBounded`, `BoundIsReached`).
- `knowledge/kafka/consumer.py:132` expects an uncommitted record to be redelivered on restart. It is
  redelivered if and only if no later record of any partition of the two topics was committed first
  (`RedeliveredUnlessLaterCommit`, `FailedRecordMayBeSkipped`); once something was committed, nothing handed over
  before it in the session ever comes back (`CommittedIsFinal`).
- A job is stored once if and only if no attempt before the one that succeeds had done its work and then lost its
  `done` message (`StoredOnceUnlessDoneWasLost`, `StoredTwice`); a commit lost after `done` was published
  stores it again as well (`LostCommitStoresTwice`). Over all deliveries the store holds one copy per committed save
  (`StoredIsCopies`).
- A key is empty if and only if no save was committed since its last cancel was handled (`HoldsNothingExactly`). The
  two topics are not ordered against each other, so a cancel may be handled before the job it is meant for, and the
  chunks of the deleted source stay searchable (`CancelledTooEarly`).
- `knowledge/kafka/consumer.py:202-209` says that 0 is stored as the project. The code stores the source id for
  files and 0 for URLs (`ProjectColumnIsTheSourceId`), so a query for project p finds the source whose id is p
  (`ContextsAreIsolated`). The model follows the code.

## Model

| member | source | states |
|---|---|---|
| ObjectNames.SplitObjectName | sources/internal/infrastructure/storage/minio.go:53-55 | for a slash-free owner, splitting an object name at slashes gives owner, decimal id, and then the parts of the file name |
| ObjectNames.SecondComponentOfObjectName | knowledge/kafka/consumer.py:209 | reading the second path component back as a number recovers exactly the source id that was printed |
| ObjectNames.SecondComponentExactly | knowledge/kafka/consumer.py:209 | of any path only what stands between its first two slashes is read as a number; without a slash the result is 0 |
| ObjectNames.ObjectNameInjective | sources/internal/infrastructure/storage/minio.go:53-55 | equal object names come from the same owner, id and file name, whatever slashes the file name contains |
| ObjectNames.SlashInOwnerCollides | sources/internal/infrastructure/storage/minio.go:53-55 | an owner with an embedded slash-separated id shares an object name with another source |
| ProtocolTheorems.AnnouncedFileIsStored | sources/internal/service/source.go:121-261 | in every interleaving a file row in status uploaded or pending has its own object name as path and that object is in the bucket |
| ProtocolTheorems.PendingRowHasItsMessage | sources/internal/service/source.go:166-176 | in every interleaving a pending row has a message in the chunking log with exactly its job, id, owner, path, type and URL |
| ProtocolTheorems.StatusNeverMovesBack | sources/internal/service/source.go:162-257 | over any stretch of any run a live row keeps its identity, its status never moves back in uploading, uploaded, pending, and a deleted id stays deleted |
| ProtocolTheorems.OnlyThreeStatuses | sources/internal/service/source.go:194-257 | no other status is ever reached by this service |
| ProtocolTheorems.EveryObjectIsAccountedFor | sources/internal/service/source.go:131-147 | in every interleaving each object is named by a live row, held by a call that still has to record or delete it, or lost by a crash, a failed delete call or a delete that read no path |
| ProtocolTheorems.BucketMatchesTable | sources/internal/service/source.go:121-261 | with crashes and failures allowed: if no event lost an object and no call is at work on one, every object is the path of exactly one live row and every announced file is there |
| ProtocolBucket.BucketHoldsExactly | sources/internal/service/source.go:121-261 | for any number of concurrent calls, without crashes and failing storage deletes, once all are done: an object is in the bucket iff its upload was accepted and its row is live or was removed by a delete that had read no path |
| ProtocolBucket.BucketIsCleanExactly | sources/internal/service/source.go:142-147 | in such runs every object belongs to exactly one live row iff no accepted file lost its row to a delete that had read it without a path |
| ProtocolBucket.RunBucket | sources/internal/service/source.go:121-261 | the invariant behind it: which calls have stored or hold an object, and that it is there exactly while its row is live, blindly removed, or held by a delete |
| ProtocolTheorems.MessagesAreTraceable | sources/internal/service/source.go:292-332 | every create message's path reads back as its source id (empty for a URL), and every cancel message speaks of a removed row and of a job announced for it |
| ProtocolTheorems.AcceptedMeans | sources/internal/service/source.go:247-260 | the row of an accepted upload is there, announced and as requested, if and only if no delete has removed it; a non-empty job id has its message |
| ProtocolAnswers.AccessWasGranted | sources/internal/service/source.go:187-189 | in every run, a call that has done or is doing anything but to be refused had a yes from its access check |
| ProtocolAnswers.RefusedMeans | sources/internal/service/source.go:121-290 | every refusal had its reason at its moment of the run: permission denied a no from the access check, not found that no row had the id, project and owner, limit exceeded 20 rows, invalid argument a row neither uploaded nor failed, anything else a failed call |
| ProtocolAnswers.AnsweredWellExactly | sources/internal/service/source.go:121-261 | in every run an answer is accepted, retried or deleted iff the mark of the upload, the publish of the retry or the removal by the delete succeeded, whatever fails later or was taken away meanwhile |
| ProtocolAnswers.RowsAreTouchedByTheirOwn | sources/internal/repository/source.go:34-65 | in every run a row goes away only by a delete of its own id, project and owner or by the undo of its own upload, and changes only by that upload or by a retry of its own id, project and owner |
| ProtocolAnswers.DeletedMeans | sources/internal/service/source.go:121-150 | the answer deleted is given only by the delete that removed the row, and the row stays away |
| ProtocolAnswers.RetriedMeans | sources/internal/service/source.go:152-177 | the answer retried comes with a message with its job for the source and owner that were asked for |
| ProtocolAnswers.StartedAsAsked | sources/internal/service/source.go:121-185 | whatever happens later, a call keeps the arguments it was started with |
| ProtocolAnswers.CallsStay | sources/internal/service/source.go:121-261 | calls keep their arguments, and one that has answered or crashed stays as it is |
| ProtocolSteps.RunInv | sources/internal/service/source.go:121-261 | the invariant tying program counters, rows, objects and messages holds after every run |
| ProtocolSteps.UploadInv | sources/internal/service/source.go:179-261 | every step of an upload, compensations included, keeps the invariant whatever the other calls are doing |
| ProtocolSteps.RetryInv | sources/internal/service/source.go:152-177 | every step of a retry keeps the invariant, though its copy of the row may be stale |
| ProtocolSteps.DeleteInv | sources/internal/service/source.go:121-150 | every step of a delete keeps the invariant, though its copy of the row may be stale |
| ProtocolLimits.RowsStayBounded | sources/internal/service/source.go:190-206 | with at most k uploads between check and insert, rows plus open windows never exceed 19 + k; with one, there are never more than 20 rows |
| ProtocolLimits.BoundIsReached | sources/internal/service/source.go:281-290 | for every k at least 1 some run with never more than k unfinished uploads, all of which are finished in the end, leaves exactly 19 + k rows |
| ProtocolRaces.AcceptedUploadMayHaveNoRow | sources/internal/service/source.go:126-149 | a run of successful calls ends with an accepted upload that has no row, an orphaned object and an uncancelled message |
| ProtocolRaces.OverwrittenJobIsNeverCancelled | sources/internal/service/source.go:152-174 | a run of successful upload, retry and delete leaves no row and no object, but of two announced jobs only the second cancelled, and no continuation cancels the first |
| ProtocolCancels.CancelsExactlyWhatWasReadPending | sources/internal/service/source.go:121-140 | in every run a cancel message is there iff some delete read the row as pending with exactly its job, removed the row and got its publish through |
| ProtocolCancels.CancelledLaterExactly | sources/internal/service/source.go:121-261 | a job that is not cancelled yet can still be, by some continuation, iff a live row or a call at work still knows it |
| ProtocolCancels.JobsOfDeletedSources | sources/internal/service/source.go:135-140 | with no call at work, a job announced for a source that is gone is cancelled iff the delete had read it in a pending row and got through, and otherwise never will be |
| ProtocolCancels.RunJobsInOrder | sources/internal/service/source.go:166-247 | every job id is announced at most once, in the order the ids were drawn |
| SourceService.Service.UploadSource | sources/internal/service/source.go:179-261 | equals a solo run of the step system; the outcomes of the external calls fix the answer and the state after it, field by field: a failed access check, count, limit or insert changes nothing and is answered with its own error; success adds one row, for a file one object, and a message iff the job id is non-empty; an error whose due compensations went through restores rows, objects and logs exactly; otherwise that row, still uploading, is left iff its delete failed, and that object iff it was stored and its delete failed |
| SourceService.Service.Admit | sources/internal/service/source.go:187-192 | a failed access check, a failed count, and 20 rows of the owner in the project, in this order, each have their own refusal; nothing is changed |
| SourceService.Service.UploadChecked | sources/internal/service/source.go:187-206 | the access, limit and insert part of an upload; nothing changes on an error before the insert |
| SourceService.Service.UploadSaved | sources/internal/service/source.go:208-261 | the part of an upload under the deferred compensations |
| SourceService.Service.StoreFile | sources/internal/service/source.go:220-240 | stores the object, then its path; which compensations are due is read off the outcomes of the two calls |
| SourceService.Service.StoreIfFile | sources/internal/service/source.go:218-240 | a URL has no file; otherwise object and path as above |
| SourceService.Service.Announce | sources/internal/service/source.go:242-260 | marks uploaded, publishes, marks pending; only the first mark can still be undone |
| SourceService.Service.Compensate | sources/internal/service/source.go:208-233 | removes the object, if stored, before the row, each best effort |
| SourceService.Service.RetryJob | sources/internal/service/source.go:152-177 | equals a solo run; the outcomes of the external calls fix the answer and the state: not found exactly when no row has the id, project and owner, invalid argument when it is neither uploaded nor failed; otherwise one message with its own fields is added, and it is pending unless the last update failed |
| SourceService.Service.FindRetryable | sources/internal/service/source.go:152-164 | access and the row that is read; each refusal has its own reason |
| SourceService.Service.PublishRetry | sources/internal/service/source.go:166-176 | a new job is published for the row as it was read, and then marked |
| SourceService.Service.DeleteSource | sources/internal/service/source.go:121-150 | equals a solo run; the outcomes of the external calls fix the answer and the state: only a row of this id, project and owner goes, a cancel is published for an active job, the object goes unless its delete call failed; an error changes nothing |
| SourceService.Service.FindDeletable | sources/internal/service/source.go:121-129 | access and the row that is read; each refusal has its own reason |
| SourceService.ObjectsAreConserved | sources/internal/service/source.go:131-147 | between sequential calls every object belongs to exactly one live row, or its delete call failed |
| SourceService.Service.Save | sources/internal/repository/source.go:30-32 | inserts under a fresh id or changes nothing |
| SourceService.Service.UpdateStatus | sources/internal/repository/source.go:45-52 | sets status and job of an existing row; a missing row is no error |
| SourceService.Service.UpdateMinioPath | sources/internal/repository/source.go:89-94 | sets the path of an existing row; a missing row is no error |
| SourceService.Service.DeleteRow | sources/internal/repository/source.go:54-65 | removes the row of this id exactly if it is of this project and owner, and reports one that is not there |
| SourceService.Service.PutObject | sources/internal/infrastructure/storage/minio.go:42-47 | adds the object or changes nothing |
| SourceService.Service.DeleteObject | sources/internal/infrastructure/storage/minio.go:49-51 | removes the object, or leaves it and books it as lost |
| UploadStream.ReceiveChunks | sources/internal/handler/sources.go:183-236 | the result is a function of the longest run of chunks and the message that ends it; a first chunk is refused as too small iff it has less than 512 bytes, and as unsupported iff the type detected from its first 512 bytes is not allowed; success uses exactly the messages up to the first true done and gives at most 2^30 bytes under the type detected from the first 512 of them |
| UploadStream.OutcomeInBytes | sources/internal/handler/sources.go:209-225 | the exact conditions of each refusal by chunks, and the content and type of what is accepted |
| UploadStream.OutcomeByBytes | sources/internal/handler/sources.go:209-225 | the outcome of chunks closed by done depends on the bytes alone if and only if the first chunk has at least 512 bytes; otherwise it is refused as too small |
| UploadStream.SplittingDoesNotMatter | sources/internal/handler/sources.go:183-236 | two ways of cutting the same bytes give the same buffer and type or the same error |
| UploadStream.DrainStream | sources/internal/handler/sources.go:240-253 | consumes up to the first true done, else the whole stream, whose failure is the only error |
| UploadStream.UploadSource | sources/internal/handler/sources.go:44-99 | the first error in the metadata, in the order of the checks, is the answer; a request with exactly the fields of the metadata is passed on when the stream is in order, with the reader's file or, for a URL, none |
| Embedding.SortedResponse | knowledge/core/embeddings/openai_provider.py:30-31 | sorting a response by index restores the order of the batch, whatever order it came in |
| Embedding.EmbedTexts | knowledge/core/embeddings/openai_provider.py:19-35 | for any batch size the result is the embedding of each text, in order |
| Chunking.SemanticSplit | knowledge/core/chunking/pipeline.py:41-62 | one pair per section, in order, with the section's own text and number; its children are its stripped non-blank documents, each under its own number and in order, or else the stripped section alone |
| Chunking.ChildrenExactly | knowledge/core/chunking/pipeline.py:43-50 | the children of a section are exactly those |
| Chunking.StripExactly | knowledge/core/chunking/pipeline.py:45-47 | stripping is the only way to cut white space, all of it and nothing else, off both ends |
| Chunking.KeptExactly | knowledge/core/chunking/pipeline.py:44-48 | exactly the non-blank documents are kept, stripped, each under its own number, in order |
| Chunking.ChildrenAreSound | knowledge/core/chunking/pipeline.py:44-50 | every parent has a child, child positions grow strictly, and no child text is blank, that is all white space, unless the section is |
| Worker.Collect | knowledge/kafka/consumer.py:188-193 | the flat list of all child texts and the number of children of each pair |
| Worker.SplitBack | knowledge/kafka/consumer.py:197-233 | parent by parent and child by child, every record has the job's source and owner, the project, its own text and position, and a child the embedding of its own text; the slices use up the flat list |
| Worker.RecordsExactly | knowledge/kafka/consumer.py:211-233 | the records of a document, field by field: one parent per section, in order, with the embedded children of that section |
| Worker.ChunkingConsumer.DoChunking | knowledge/kafka/consumer.py:167-241 | raises exactly when an outside step does; without sections it returns and changes nothing; otherwise the store gains, under the job's key and no other, the records of the document, field by field |
| Worker.ChunkingConsumer.ProcessChunking | knowledge/kafka/consumer.py:135-165 | for any number of retries: returns iff some attempt within the bound succeeds, then with one done and no failed; else raises with no done and at most one failed; backoff after n attempts is 2^n - 2; the store gains what the attempts' committed saves wrote, on success one copy plus one for each earlier attempt that worked and lost its done |
| Worker.ChunkingConsumer.ProcessCancel | knowledge/kafka/consumer.py:243-250 | everything under the job's key goes, nothing else, and the number of its parents is returned; a delete that raises changes nothing |
| Worker.StoredOnceUnlessDoneWasLost | knowledge/kafka/consumer.py:138-157 | the attempts up to a success wrote what the last one wrote and nothing else iff no earlier one that had found sections did all its work and then lost its done message |
| Worker.StoredTwice | knowledge/kafka/consumer.py:139-146 | any job with a text can be stored twice: the first attempt saves and loses its done, the second succeeds |
| Worker.CopiesOfSuccess | knowledge/kafka/consumer.py:138-157 | with the same document every time, a success leaves one copy and one more per lost done |
| Worker.WrittenIsCopies | knowledge/kafka/consumer.py:139-157 | with the same sections every time, the store gains one copy per committed save |
| VectorStore.Store.SaveSourceChunks | knowledge/core/storage/vector_store.py:46-87 | all rows of all paired parents and children are inserted, or, if any statement or the commit fails, none, and only the ids that earlier statements took are used up |
| VectorStore.Store.DeleteBySource | knowledge/core/storage/vector_store.py:89-98 | deletes all parents of the source and owner with their children and returns the number of those parents |
| VectorStore.TablesReplayTheHistory | knowledge/core/storage/vector_store.py:46-98 | over any history of committed and aborted saves and deletes, the tables hold for a source and owner exactly its committed saves since its last delete |
| VectorStore.DeleteSourceHolds | knowledge/migrations/001_create_tables.sql:16-17 | a delete empties its own key, leaves every other key's parents and children as they were, and keeps the foreign keys valid |
| VectorStore.ChildrenAgreeWithParents | knowledge/core/storage/vector_store.py:70-87 | if saves give children the source, project and owner of their parent, every child's parent exists and agrees with it in every reachable state; `Ingest.ChildrenAgree` shows that the worker's saves do |
| VectorStore.SearchIsIsolated | knowledge/core/storage/vector_store.py:112-131 | for such saves: though only the child's columns are filtered, the joined parent has the owner and project asked for and the child's source |
| Offsets.CommittedNeverDecreases | knowledge/kafka/consumer.py:121-122 | over any sessions and restarts no committed offset goes back |
| Offsets.NothingIsSkippedUnhandled | knowledge/kafka/consumer.py:93-122 | every record below a committed offset was given to its handler at least once |
| Offsets.CommittedIsLastCommit | knowledge/kafka/consumer.py:121-133 | the committed offsets are the positions right after the last record whose handling and commit both succeeded, or the starting ones |
| Offsets.RedeliveredUnlessLaterCommit | knowledge/kafka/consumer.py:121-133 | a record is read again after the restart if and only if neither its own commit nor that of a later record of any partition went through before it |
| Offsets.HandledTwice | knowledge/kafka/consumer.py:121-133 | a record comes a second time only if the session of its first time ended without any commit from there on |
| Offsets.FailedRecordMayBeSkipped | knowledge/kafka/consumer.py:132-133 | a failure on one topic followed by a success on the other is never redelivered |
| Ingest.Consumer.RunLoop | knowledge/kafka/consumer.py:88-133 | the loop goes through exactly the events of its records; after a stop it fetches one more that it does not handle: the tables are those of the records before it, and each position has moved by the records fetched |
| Ingest.Consumer.HandleRecord | knowledge/kafka/consumer.py:98-133 | dispatches by topic; the tables change as the job says, and the current positions are committed iff the commit works and a chunking job had an attempt within the bound that worked and got its done out, or the delete of a cancel worked |
| Ingest.HandledExactly | knowledge/kafka/consumer.py:135-165 | when the handler of a record returns |
| Ingest.StoreAfterRun | knowledge/kafka/consumer.py:88-250 | over any run with any stops and restarts, the store holds for a key what its handled records leave, from the first to the last |
| Ingest.StoredIsCopies | knowledge/kafka/consumer.py:98-165 | with one document behind a key, the store holds one copy of its records per committed save, over all attempts of all deliveries since the last effective cancel |
| Ingest.HoldsNothingExactly | knowledge/kafka/consumer.py:98-133 | a key holds nothing iff no save was committed since its last effective cancel |
| Ingest.CommittedIsFinal | knowledge/kafka/consumer.py:121-133 | once a record or anything after it in its session was committed, the record never comes again |
| Ingest.LostCommitStoresTwice | knowledge/kafka/consumer.py:121-133 | with every handling successful, a lost commit alone stores a job twice |
| Ingest.CancelledTooEarly | knowledge/kafka/consumer.py:103-119 | a cancel that is handled before its job leaves the job's chunks in the store, with everything committed |
| Ingest.HistorySavesDocuments | knowledge/kafka/consumer.py:167-241 | every committed save of a run is that of a document for a job that was fetched |
| Ingest.ChildrenAgree | knowledge/kafka/consumer.py:211-235 | in every state the consumer can reach each child agrees with its existing parent on source, project and owner |
| Ingest.SearchIsIsolated | knowledge/core/storage/vector_store.py:112-131 | in every state the consumer can reach, a search filtered on the child's columns returns only parents of the owner and project asked for |
| Retrieval.Deduplicate | knowledge/core/retrieval/search.py:70-77 | one row per parent, in the order parents were first seen, each the first row with the parent's maximum score |
| Retrieval.BestIsMaximum | knowledge/core/retrieval/search.py:71-75 | the row kept for a parent is one of its rows and none of them scores higher |
| Retrieval.FirstSeenExactly | knowledge/core/retrieval/search.py:71-77 | the kept parents are exactly those that occur, each once |
| Retrieval.FirstSeenInOrder | knowledge/core/retrieval/search.py:71-77 | they stand in the order of their first rows |
| Retrieval.DescendingKeepsFirst | knowledge/core/retrieval/search.py:71-75 | for rows in descending order the loop keeps the first row of each parent |
| Retrieval.RankIsRanking | knowledge/core/reranker/cross_encoder.py:39 | the sort orders all indices by descending score, ties by index |
| Retrieval.RankingIsUnique | knowledge/core/reranker/cross_encoder.py:39 | that description has only one solution |
| Retrieval.Rerank | knowledge/core/reranker/cross_encoder.py:27-40 | the first top_k of the ranking, as Python slices it, each with its own score |
| Retrieval.Retrieve | knowledge/core/retrieval/search.py:54-102 | the contexts are the first ones of all distinct parents by rank, as many as asked for (the default if nothing or 0 is asked for), or as there are distinct parents |
| Retrieval.RetrievalPromises | knowledge/core/retrieval/search.py:70-102 | as many contexts as asked for or as there are parents, of distinct parents, each with its maximum child score, in non-increasing rerank score with ties as first seen, and no omitted parent scores above a returned one |
| EndToEnd.ProjectColumnIsTheSourceId | knowledge/kafka/consumer.py:202-209 | for every message of every run the derived project is the source's id, 0 for a URL |
| EndToEnd.SavesAreOfMessage | knowledge/kafka/consumer.py:211-235 | all records of a job carry the key of its message, children like parents |
| EndToEnd.WorkerServesMessages | knowledge/kafka/consumer.py:98-119 | a consumer that fetches what the service has announced saves nothing but records of those messages, over any number of sessions |
| EndToEnd.ContextsAreIsolated | knowledge/core/retrieval/search.py:59-102 | whatever runs at the service and whatever of its messages the consumer fetches, every context for an owner and project stands in a stored parent of that owner and project and goes back to a message of that owner; for a project other than 0 its source is the one with that id |

## Left out

- Reading operations (`GetSource`, `ListSources`, signed URLs), health checks, configuration, wiring and generated code: no state of their own.
- Token verification and the projects service's decision: the owner id is given, access is an outcome of the call.
- The jobs service, and the statuses processing, ready and failed of a source row: nothing in the repository sets them.
- The contents of stored objects and the declared size passed to the storage client: objects are names only.
- Document parsing, the semantic splitter, the embedding model and the cross-encoder: arbitrary functions or outcomes.
- SourceService.Service.UploadSource: the source's one function with two deferred closures is cut into methods at its phases; the order of the compensations is that of the closures.
- Ingest.Consumer.RunLoop: rebalancing and undecodable values are not modelled; a record carries the outcomes its handling meets outside.
- VectorStore.Store.SaveSourceChunks: metadata columns and timestamps are dropped; the worker never sets the metadata.
- VectorStore.SearchIsIsolated: says nothing about which matching rows the approximate index returns.
- ObjectNames.ParseInt: Python's `int` also takes signs, blanks and underscores, and digits outside ASCII; the printer produces none of them.
- Retrieval.Retrieve: the decoding of the parent's metadata is dropped, and scores are never NaN.
- Failures whose effect took place although an error was returned, panics, and cancelled contexts.
