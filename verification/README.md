# Verified model of the tusd upload server

tusd accepts resumable uploads: a client sends a file in as many requests as it
likes, each of which may be cut off anywhere, asks for the offset, and goes on
from there. This project models that in Dafny and proves that the bytes end up as
exactly the file and that the reported offset is true, layer by layer.

| files | what they model |
|---|---|
| `PartSize`, `S3Spec`, `S3Upload` | the S3 store: part size, part producer, upload handle, paged part list, finishing, concatenation |
| `S3Theorems`, `S3Limits` | whole runs of the S3 store, and where its promises end |
| `S3EndToEnd` | the request handler on the S3 store, end to end |
| `S3Schedule` | the goroutines of `uploadParts` with their channel and semaphore |
| `HandlerSpec`, `Handler` | POST, HEAD, PATCH and DELETE of version 1.0.0 of the tus protocol against an abstract store |
| `HandlerTheorems`, `HandlerResume`, `HandlerLimits` | all runs of requests: bounds, finishing once, resuming, stranded uploads |
| `HandlerAnswers` | exactly when a request gets which answer, and what it tells the client |
| `BodyReader` | the request body as the stores see it |
| `MemoryLocker`, `SerialHistories` | the in-memory locker, and concurrent requests under it |
| `GcsNames`, `GcsBucket`, `GcsStore` | the Google Cloud Storage backend: names, listing filter, recursive composition, lifecycle |
| `AzureSpec`, `AzureTheorems`, `AzureStore` | the Azure backend: block ids, sentinel block, lifecycle |
| `Base64`, `Metadata` | the `Upload-Metadata` header |
| `Streams`, `Strings` | shared vocabulary |

`dafny verify dfyconfig.toml` checks everything.

Operations are functions on values in the `…Spec` modules. Objects that the source
updates in place are classes (`S3Upload.Upload`, `Handler.UnroutedHandler`,
`GcsBucket.Bucket`, `GcsStore.GcsUpload`, `AzureStore.BlockBlob`, …) whose methods are
proved to compute those functions. Concurrent parts are step systems, and their
theorems quantify over every sequence of enabled steps.

## Hypotheses

- S3: `0 < MinPartSize <= PreferredPartSize <= MaxPartSize` and `MaxMultipartParts > 0`,
  as the store's documentation asks; calls to S3 succeed, except that completing a
  multipart upload makes S3's own checks on the part list and that a multipart upload that
  is gone takes no more parts.
- Google Cloud Storage: the last path element of a key has no underscore, the key does
  not end in `info`, and no other upload's objects start with the key.
- Azure: the number of blocks is below the sentinel's index; an empty block is refused.
- Numbers are unbounded: 64-bit overflow of offset plus Content-Length is not reached.
- Only the holder of a lock unlocks it, where a theorem says that a run is disciplined.
- The store hands out ids that were never used before.

## Where the code differs from what one would expect

Each of these is a pair of a proved condition and, where useful, an example.

- A declared length that no part size can serve makes the S3 store delete the `.part`
  object before it fails, so acknowledged bytes are lost (`S3Limits.WriteKeepsBytesIff`,
  `S3Limits.LostBytes`).
- The part size computation does not keep an S3 upload within the allowed number of parts;
  the minimum part size decides that (`S3Limits.PartLimitExact`).
- Finishing an S3 upload loses a `.part` object that is still there
  (`S3Theorems.FinishAssembles`).
- A final S3 upload built by download reports offset 0 until a background abort has
  happened, and cannot be concatenated further until then (`S3Upload.OffsetAfterDownload`,
  `S3Upload.FinalSize`).
- A small write to a completed S3 upload is acknowledged although nothing will read it
  (`S3Limits.WriteAfterFinish`).
- A PATCH that declares exactly the stored length while announcing more bytes, and a POST
  with a chunk for an empty upload, leave an upload complete but never finished
  (`HandlerLimits.StrandedExactly`, `HandlerLimits.StrandedForever`).
- An empty final upload gets two finish events (`HandlerTheorems.PostFinalEffect`).
- A deferred upload can pass the maximum size, exactly when a request announces more bytes
  than are left, and then never complete (`HandlerLimits.DeferredLimitExactly`,
  `HandlerLimits.BeyondLimitExample`, `HandlerLimits.BeyondLimitNeverCompletes`).
- The comment on the memory locker's Unlock says that a missing lock is no error; the code
  closes a nil channel, which panics (`MemoryLocker.UnlockPanicsIff`,
  `MemoryLocker.UnlockWithoutLock`). Unlocking somebody else's lock does not panic, but lets
  a second holder in (`MemoryLocker.StrayUnlockExample`).
- An upload without any chunk cannot be finished on Google Cloud Storage
  (`GcsStore.GcsUpload.FinishUpload`), and terminating one whose object and chunks both
  exist leaves the chunks (`GcsStore.GcsUpload.Terminate`).
- On Azure a failed write, such as that of an empty body, leaves its index in the handle, so
  finishing on that handle fails, or appends an old block
  (`AzureTheorems.CommitAfterFailedWrite`).
- A new Azure upload over a blob with uncommitted blocks takes them for its own
  (`AzureTheorems.NewUploadStartsAtZeroIff`).
- Metadata keys with blanks, commas or outer white space do not come back
  (`Metadata.RoundTripExactly`).

## Model

| member | source | states |
|---|---|---|
| `Streams.CutPieces` | pkg/s3store/s3store_part_producer.go:58-162 | cutting a stream loses nothing, all pieces but the last are full, none is empty |
| `Streams.CutCount` | pkg/s3store/s3store_part_producer.go:58-162 | the number of pieces is the length divided by the piece size, rounded up |
| `PartSize.OptimalPartSize` | pkg/s3store/s3store.go:1187-1229 | the case split is the maximum of the preferred size and the size divided by the part limit rounded up, and fails exactly when the upload cannot fit |
| `PartSize.OneRequestFits` | pkg/s3store/s3store.go:1187-1229 | a file sent in one request needs no more parts than allowed, all but the last full |
| `S3Spec.SortedKeysOrder` | pkg/s3store/s3store.go:1038-1071 | the part list is ascending and has exactly the part numbers of the upload, each once |
| `S3Spec.PartsSize` | pkg/s3store/s3store.go:721-727 | the sum of the listed sizes is the length of the parts joined in number order |
| `S3Upload.StartAfter` | pkg/s3store/s3store.go:1038-1071 | a listing that starts after a part's number starts at the next part |
| `S3Upload.Service.ListParts` | pkg/s3store/s3store.go:1044-1049 | a page is a non-empty stretch of the ascending list, of any length |
| `S3Upload.PartProducer.NextPart` | pkg/s3store/s3store_part_producer.go:82-162 | the producer hands out the stream's pieces one after the other |
| `S3Upload.Upload.ListAllParts` | pkg/s3store/s3store.go:1038-1071 | all pages together are the whole part list, whatever the page sizes |
| `S3Upload.Upload.FetchInfo` | pkg/s3store/s3store.go:641-730 | the rebuilt info, including not found and already completed |
| `S3Upload.Upload.GetInternalInfo` | pkg/s3store/s3store.go:625-639 | info is fetched once and then cached |
| `S3Upload.Upload.StoreChunk` | pkg/s3store/s3store.go:492-551 | one chunk becomes the next part or the `.part` object; a part is refused once the multipart upload is gone |
| `S3Upload.Upload.UploadParts` | pkg/s3store/s3store.go:450-560 | the loop over the produced chunks computes `S3Spec.UploadParts` |
| `S3Upload.Upload.WriteChunk` | pkg/s3store/s3store.go:410-448 | taking back a leftover `.part` object and uploading, with all error paths |
| `S3Upload.Upload.DeclareLength` | pkg/s3store/s3store.go:1027-1036 | the info object and the cached info get the length |
| `S3Upload.Upload.FinishUpload` | pkg/s3store/s3store.go:842-899 | the part list is completed, with one empty part if there is none; it fails if the multipart upload is gone |
| `S3Upload.Upload.ConcatUsingMultipart` | pkg/s3store/s3store.go:983-1025 | server-side copies in any completion order give the in-order concatenation |
| `S3Upload.Upload.ConcatUsingDownload` | pkg/s3store/s3store.go:925-981 | the downloaded parts give the same in-order concatenation |
| `S3Upload.Upload.ConcatUploads` | pkg/s3store/s3store.go:901-923 | the object is the concatenation, and the multipart upload stays open exactly if a partial upload is below the minimum part size |
| `S3Upload.FinalSize` | pkg/handler/unrouted_handler.go:1393-1417 | from the infos rebuilt from S3 a final upload gets a size if and only if every partial's multipart upload is gone or holds the declared number of bytes, and it is then the length of that concatenation |
| `S3Upload.ReportsAtOnceIff` | pkg/s3store/s3store.go:901-923 | a final upload reports its full length as soon as ConcatUploads returns if and only if no partial is below the minimum part size, or it is empty |
| `S3Upload.OffsetAfterDownload` | pkg/s3store/s3store.go:968-978 | what the download strategy leaves reports offset 0 and makes every later concatenation with it fail until the abort, and its length afterwards |
| `S3Theorems.AddPart` | pkg/s3store/s3store.go:497-504 | storing the next number keeps numbers contiguous and appends bytes and list entry |
| `S3Theorems.PutAllAppends` | pkg/s3store/s3store.go:477-551 | the consumer loop appends its chunks; only the last can become a `.part` object, and not when it ends the upload |
| `S3Theorems.DeclareLengthReported` | pkg/s3store/s3store.go:1027-1036 | declaring a length changes nothing else, and every later fetch reports it with the same offset |
| `S3Theorems.WriteChunkAppends` | pkg/s3store/s3store.go:410-560 | WriteChunk refines append, keeps the part table well formed, leaves no `.part` at the declared size, and keeps the cache equal to a later fetch up to one stale field |
| `S3Theorems.RunAppends` | pkg/s3store/s3store.go:410-730 | for every run of requests with length declarations the parts followed by `.part` are all bodies and the rebuilt offset is their length |
| `S3Theorems.CompleteIff` | pkg/s3store/s3store.go:883-899 | S3 completes an upload exactly from an ascending list of parts it has, all but the last large enough, and otherwise changes nothing |
| `S3Theorems.FinishAssembles` | pkg/s3store/s3store.go:842-899 | S3 accepts the part list, and the object is everything uploaded if and only if no `.part` is left |
| `S3Theorems.FinishAfterRun` | pkg/s3store/s3store.go:695-714 | a completed upload is finished into its bytes and still reports its offset |
| `S3Theorems.ResumeCorrect` | pkg/s3store/s3store.go:410-899 | a client that asks for the offset and sends the rest, cut anywhere, always has a prefix of its file stored, and the finished object is the file |
| `S3Limits.WriteKeepsBytesIff` | pkg/s3store/s3store.go:420-464 | WriteChunk succeeds exactly when the size fits and keeps what was stored exactly when it fits or there is no `.part`; the failure does not show in the handle |
| `S3Limits.LostBytes` | pkg/s3store/s3store.go:420-464 | two requests that lose three acknowledged bytes |
| `S3Limits.WriteAfterFinish` | pkg/s3store/s3store.go:410-560 | a write to a completed upload leaves the object alone and fails exactly from the minimum part size on |
| `S3Limits.FinishOnlyOnce` | pkg/s3store/s3store.go:842-899 | finishing a second time fails and leaves the object alone |
| `S3Limits.SecondWriteOnHandle` | pkg/s3store/s3store.go:420-447 | a second WriteChunk on a handle fails exactly when the first used up a `.part` and left none |
| `S3Limits.EqualParts` | docs/_storage-backends/aws-s3.md:127 | with equal minimum and preferred size the parts are the upload cut at that size, however requests were cut, and within the limit |
| `S3Limits.PartCountBound` | pkg/s3store/s3store.go:496-551 | there are at most as many parts as minimum-size pieces, rounded up |
| `S3Limits.PartLimitExact` | pkg/s3store/s3store.go:1187-1229 | every way of cutting requests stays within the part limit if and only if the upload is at most the minimum part size times the limit |
| `S3Schedule.OnlyLastIsSmall` | pkg/s3store/s3store.go:496-547 | at most one incomplete part is written per call and it is the last chunk |
| `S3Schedule.StepKeepsInv` | pkg/s3store/s3store.go:466-560 | every step of producer, consumer and part goroutines keeps: stored chunks are exactly those whose goroutine ended, slots are exactly those held |
| `S3Schedule.EveryScheduleAgrees` | pkg/s3store/s3store.go:466-560 | for every schedule the semaphore stays within its limit, all slots are back at return, and the result is that of the sequential loop |
| `S3Schedule.BacklogBound` | pkg/s3store/s3store_part_producer.go:58-80 | the producer is never ahead by more than the channel's backlog |
| `S3Schedule.ScheduledUploadParts` | pkg/s3store/s3store.go:450-560 | so every schedule that returns has the outcome of `S3Spec.UploadParts` |
| `S3Schedule.NoDeadlock` | internal/semaphore/semaphore.go:8-20 | until it returns the call can take a step unless other uploads hold every slot, which they can then give back |
| `S3Schedule.ScheduleEnds` | pkg/s3store/s3store_part_producer.go:58-80 | every schedule is finite: at most six own steps per byte and four more |
| `S3EndToEnd.AdmittedIsAllowed` | pkg/handler/unrouted_handler.go:782-832 | a PATCH the handler lets through meets what the S3 store demands of it, up to the fit of a declared length |
| `S3EndToEnd.ChunkAgrees` | pkg/handler/unrouted_handler.go:872-977 | writeChunk on S3: WriteChunk, Terminate and FinishUpload do to what S3 keeps what the handler's model says |
| `S3EndToEnd.StepAgrees` | pkg/handler/unrouted_handler.go:283-1245 | every request keeps S3 and the handler's model in agreement |
| `S3EndToEnd.EndToEnd` | pkg/s3store/s3store.go:410-899 | for all runs of honest, repeated, stale and interrupted requests on S3: HEAD reports the offset rebuilt from the part list and the length in the info object, parts and `.part` hold that prefix of the file, and a finished object is the file |
| `S3EndToEnd.UninterruptedFinishes` | pkg/handler/unrouted_handler.go:727-977 | sending the rest without interruption makes S3 hold the file as one object, and the answer is its length |
| `S3EndToEnd.OutsideExists` | pkg/s3store/s3store.go:410-560 | for every request and every body S3 has a consistent answer |
| `HandlerSpec.LengthHeaders` | pkg/handler/unrouted_handler.go:1421-1442 | a length is accepted exactly from one well-formed header text, deferred only if supported; every 64-bit number that is not negative is accepted in decimal |
| `HandlerSpec.NumberTexts` | pkg/handler/unrouted_handler.go:1434-1438 | a header text is a number exactly if it is an optional sign and digits whose value fits into 64 bits |
| `Handler.UnroutedHandler.FinishUploadIfComplete` | pkg/handler/unrouted_handler.go:982-1020 | finishing and the finish event, with their failures |
| `Handler.UnroutedHandler.WriteChunk` | pkg/handler/unrouted_handler.go:872-977 | size check, append, stop by the server, completion |
| `Handler.UnroutedHandler.SizeOfUploads` | pkg/handler/unrouted_handler.go:1393-1417 | the total of the partial uploads, or the first missing or unfinished one |
| `Handler.UnroutedHandler.PostFile` | pkg/handler/unrouted_handler.go:283-464 | creation of plain, partial and final uploads with their failures; the store stays sound, no upload shrinks, and the answer names the one upload that is new |
| `Handler.UnroutedHandler.HeadFile` | pkg/handler/unrouted_handler.go:636-723 | offset, length and kind of an upload, which `HandlerAnswers` ties to the requests before |
| `Handler.UnroutedHandler.PatchFile` | pkg/handler/unrouted_handler.go:727-838 | checks, length declaration and chunk write; the store stays sound, uploads only grow, and a successful answer has the stored offset |
| `Handler.UnroutedHandler.DelFile` | pkg/handler/unrouted_handler.go:1184-1245 | termination, or a refusal that changes nothing |
| `HandlerTheorems.WriteChunkEffect` | pkg/handler/unrouted_handler.go:872-977 | what a chunk write does to its upload, its counters, and to nothing else |
| `HandlerTheorems.ChunkFits` | pkg/handler/unrouted_handler.go:878-898 | a chunk never overruns a declared length |
| `HandlerTheorems.PatchKeepsInv` | pkg/handler/unrouted_handler.go:782-838 | PATCH keeps the invariant |
| `HandlerTheorems.PostFinalEffect` | pkg/handler/unrouted_handler.go:420-461 | a final upload holds the concatenation; its finish event is sent once, and twice exactly when it is empty |
| `HandlerTheorems.ServeKeepsInv` | pkg/handler/unrouted_handler.go:283-1245 | every request keeps the invariant |
| `HandlerTheorems.RunBounds` | pkg/handler/unrouted_handler.go:328-347 | over all runs: offset within the declared length, length within the limit, FinishUpload at most once and only when complete, finish event at most once for uploads that are not final |
| `HandlerTheorems.RunGrows` | pkg/handler/unrouted_handler.go:782-832 | over any stretch of any run uploads only grow at the end, offsets never decrease, a declared length never changes, final uploads are never written, and a deleted upload never comes back |
| `HandlerTheorems.PostExtends` | pkg/handler/unrouted_handler.go:283-464 | a POST touches no existing upload |
| `HandlerTheorems.ReportedOffset` | pkg/handler/unrouted_handler.go:963-967 | the offset in a successful answer is what is stored |
| `HandlerTheorems.ConcatenateExactly` | pkg/handler/unrouted_handler.go:1393-1417 | a final upload can be built exactly from complete uploads and holds their bytes in order |
| `HandlerResume.ResumeCorrect` | pkg/handler/unrouted_handler.go:636-977 | for all runs of honest, repeated, stale and interrupted requests the stored bytes are the prefix HEAD reports, a length it reports is the file's, a complete upload is the file, and only the file is ever finished |
| `HandlerAnswers.ChunkAnswer` | pkg/handler/unrouted_handler.go:872-977 | a chunk write succeeds exactly if it is let through, arrives and is stored completely and a completed upload is finished; otherwise the error names what went wrong |
| `HandlerAnswers.PatchAnswer` | pkg/handler/unrouted_handler.go:727-838 | exactly when a PATCH succeeds, that its answer is the offset HEAD reports afterwards, and the reason behind every error |
| `HandlerAnswers.PostAnswer` | pkg/handler/unrouted_handler.go:283-464 | exactly when a POST succeeds, that it names a new id, and that HEAD on it reports the bytes sent, the length and the kind asked for |
| `HandlerAnswers.PostFailure` | pkg/handler/unrouted_handler.go:283-464 | the reason behind every error of a POST |
| `HandlerAnswers.DeleteAnswer` | pkg/handler/unrouted_handler.go:1184-1245 | exactly when a DELETE succeeds, HEAD then finds nothing, and otherwise nothing changes |
| `HandlerAnswers.TerminatedOnce` | pkg/handler/unrouted_handler.go:1252-1270 | in every run the termination of an upload is announced once if it is gone, and not before |
| `HandlerAnswers.HeadIsStable` | pkg/handler/unrouted_handler.go:670-706 | over any run HEAD's offset never falls, and a reported length and kind stay |
| `HandlerAnswers.LengthFromPost` | pkg/handler/unrouted_handler.go:332-347 | from an accepted POST on HEAD reports the length it named and the kind of upload |
| `HandlerAnswers.LengthFromPatch` | pkg/handler/unrouted_handler.go:809-832 | from a PATCH that declares a length on HEAD reports it, even if its chunk fails |
| `HandlerAnswers.LengthOnlyFromPatch` | pkg/handler/unrouted_handler.go:809-832 | a length that appears was declared by a PATCH |
| `HandlerResume.UninterruptedPatchCompletes` | pkg/handler/unrouted_handler.go:727-867 | sending the rest without interruption completes the upload |
| `HandlerLimits.StrandedExactly` | pkg/handler/unrouted_handler.go:878-881 | a request makes an upload complete but unfinished if and only if it declares the stored length while announcing more bytes |
| `HandlerLimits.StrandedForever` | pkg/handler/unrouted_handler.go:802-807 | such an upload stays so until it is deleted |
| `HandlerLimits.StrandedExample` | pkg/handler/unrouted_handler.go:802-832 | two possible requests that do it |
| `HandlerLimits.DeferredLimitExactly` | pkg/handler/unrouted_handler.go:887-898 | a PATCH can take a deferred upload beyond the limit if and only if it announces more bytes than are left of it |
| `HandlerLimits.DeferredPostLimitExactly` | pkg/handler/unrouted_handler.go:435-447 | a POST can create a deferred upload beyond the limit if and only if it announces more bytes than the limit |
| `HandlerLimits.BeyondLimitExample` | pkg/handler/unrouted_handler.go:887-898 | two possible requests that do it |
| `HandlerLimits.StorableExactly` | pkg/handler/unrouted_handler.go:878-898 | the numbers of bytes a PATCH can store are exactly those within the announced length, the declared length, and for unannounced bodies of deferred uploads the maximum size |
| `HandlerLimits.BeyondLimitNeverCompletes` | pkg/handler/unrouted_handler.go:818-822 | such an upload can never be given a length |
| `BodyReader.StepKeepsInv` | pkg/handler/body_reader.go:47-147 | every step keeps the reader's invariant, and a latched error stays |
| `BodyReader.InterruptedBody` | pkg/handler/body_reader.go:47-147 | under every interleaving the store gets a prefix within the limit, bytesRead is its length, no error after the end means the body truly ended, and the size error means a body longer than the limit, cut there |
| `BodyReader.FailedReadIsRemembered` | pkg/handler/body_reader.go:64-111 | in every run a failed read leaves an error, the one for that failure unless one was set before, and the next read ends the stream |
| `BodyReader.EndsWellIff` | pkg/handler/body_reader.go:39-62 | a body can be read to its end without an error if and only if it ends properly within the limit |
| `BodyReader.CutAtLimit` | pkg/handler/body_reader.go:98-103 | a longer body can be read up to the limit, which sets the size error |
| `BodyReader.GoodReadSetsNothing` | pkg/handler/body_reader.go:47-111 | only failed reads and closeWithError set an error, and only an end of file or an error ends the stream |
| `BodyReader.EveryErrorCloses` | pkg/handler/body_reader.go:134-147 | every closeWithError sets its error and closes the connection once |
| `BodyReader.ErrorEndsStream` | pkg/handler/body_reader.go:47-53 | in every run, from a latched error on only a read under way is still delivered, and the next read ends the stream for good |
| `MemoryLocker.StepKeepsLive` | pkg/memorylocker/memorylocker.go:60-110 | an entry somebody waits on stays current, or its channel is closed or about to be |
| `MemoryLocker.StepKeepsInv` | pkg/memorylocker/memorylocker.go:60-110 | every step, with unlocks by holders only, keeps the locker's invariant |
| `MemoryLocker.LockerSafe` | pkg/memorylocker/memorylocker.go:60-110 | over all disciplined runs: one holder per id, no channel closed twice, and every waiter has asked the owner of the entry it waits on and will be woken |
| `MemoryLocker.NoLostWakeUp` | pkg/memorylocker/memorylocker.go:65-73 | once nobody holds the lock or closes its channel, a waiter can go on |
| `MemoryLocker.WokenTakesLock` | pkg/memorylocker/memorylocker.go:65-93 | a woken waiter takes the lock by its next step if it is free, and asks the new owner if not |
| `MemoryLocker.LockCallGoesOn` | pkg/memorylocker/memorylocker.go:60-110 | a Lock call is left only with the lock or by a timeout, and a held lock stays held until its own unlock |
| `MemoryLocker.RunGetsLock` | pkg/memorylocker/memorylocker.go:60-93 | in every run a Lock call that has not timed out is still going on or has got the lock |
| `MemoryLocker.StepDooms` | pkg/memorylocker/memorylocker.go:95-110 | whoever unlocks what, no channel is closed twice; only an unlock without an entry leads to a panic |
| `MemoryLocker.UnlockPanicsIff` | pkg/memorylocker/memorylocker.go:95-110 | a run with any unlocks by anybody panics if and only if some unlock finds no entry |
| `MemoryLocker.UnlockWithoutLock` | pkg/memorylocker/memorylocker.go:95-110 | unlocking what nobody ever locked panics |
| `MemoryLocker.StrayUnlockExample` | pkg/memorylocker/memorylocker.go:95-110 | after one unlock by a stranger two threads hold the lock |
| `SerialHistories.StepsMakeThePatch` | pkg/handler/unrouted_handler.go:782-977 | the steps of a PATCH inside the lock add up to the whole PATCH |
| `SerialHistories.StepKeepsInv` | pkg/handler/unrouted_handler.go:760-834 | every step of lockers and requests keeps the store equal to a serial run plus the work of the one in the lock |
| `SerialHistories.EveryInterleavingIsSerial` | pkg/handler/unrouted_handler.go:1446-1466 | any interleaving of HEAD, PATCH, DELETE and GET gives the answers and bytes of a serial order |
| `SerialHistories.PatchCanRun` | pkg/handler/unrouted_handler.go:760-834 | a PATCH that is let through can be served in pieces with the answer and the effect it has alone, and the lock is free again |
| `SerialHistories.GetCanRun` | pkg/memorylocker/memorylocker.go:60-110 | a GET can be served in the lock and sends the whole content |
| `SerialHistories.OffsetUsedOnce` | pkg/handler/unrouted_handler.go:788-791 | of two PATCHes naming the same offset at most one appends, and the later fails |
| `GcsNames.NamesDiffer` | pkg/gcsstore/gcsservice.go:233 | chunk, temporary, object and info names never collide, also not across levels |
| `GcsNames.FilterObjects` | pkg/gcsstore/gcsservice.go:342-403 | the filter loop with its result grown and overwritten in place |
| `GcsNames.FilterFails` | pkg/gcsstore/gcsservice.go:366-398 | the filter fails exactly if it meets a foreign name before the composed object |
| `GcsNames.FilterChunks` | pkg/gcsstore/gcsservice.go:342-403 | for every listing order the chunks come back in numeric order |
| `GcsNames.FilterFinds` | pkg/gcsstore/gcsservice.go:377-380 | once the composed object exists it is all the filter returns |
| `GcsNames.FilterTmps` | pkg/gcsstore/gcsservice.go:382-384 | temporary objects are returned as listed |
| `GcsBucket.GroupBounds` | pkg/gcsstore/gcsservice.go:223-231 | groups have 1 to 32 members, and there are fewer groups than elements beyond 32 |
| `GcsBucket.GroupsFlatten` | pkg/gcsstore/gcsservice.go:226-240 | joining the groups first changes nothing |
| `GcsBucket.Bucket.Compose` | pkg/gcsstore/gcsservice.go:137-195 | one composition of 1 to 32 sources |
| `GcsBucket.Bucket.RecursiveCompose` | pkg/gcsstore/gcsservice.go:201-243 | for any number of sources the destination is their in-order concatenation, all else is unchanged, and no temporary object is left |
| `GcsStore.SameOffset` | pkg/gcsstore/gcsstore.go:167-228 | the offset is the same before finishing, after composing and after deleting, for all listing orders |
| `GcsStore.NextNumberIsHighest` | pkg/gcsstore/gcsstore.go:107-121 | for any names the number chosen is the one after the highest, and there is none exactly if a name does not end in a number |
| `GcsStore.WriteNextAppends` | pkg/gcsstore/gcsstore.go:107-121 | for every listing order the number computed from the names is the next free one |
| `GcsStore.RunContiguous` | pkg/gcsstore/gcsstore.go:92-133 | over any run in which every call computes its number from a listing of its own, chunks are numbered without a gap, no call fails, and the offset is their length |
| `GcsStore.GcsUpload.WriteChunk` | pkg/gcsstore/gcsstore.go:92-133 | the loop over the filtered names computes that number, and fails without change on a bad name |
| `GcsStore.GcsUpload.GetOffset` | pkg/gcsstore/gcsstore.go:137-231 | not found without the info object, else the sum over the filtered names, in whatever order the sizes come back |
| `GcsStore.GcsUpload.FinishUpload` | pkg/gcsstore/gcsstore.go:255-306 | the chunks become the object and only it and the info object remain; it fails exactly without chunks |
| `GcsStore.GcsUpload.Terminate` | pkg/gcsstore/gcsstore.go:308-329 | nothing is left if and only if object and chunks do not exist together, and nothing else is touched |
| `AzureSpec.IdRoundTrip` | pkg/azurestore/azureservice.go:325-343 | every 32-bit index is recovered from its block id |
| `AzureSpec.OrderedUnique` | pkg/azurestore/azureservice.go:263-266 | sorting determines the index list |
| `AzureTheorems.RecoverSorted` | pkg/azurestore/azureservice.go:252-268 | for every listing order the offset is the staged data and the indexes are 0 to k-1 |
| `AzureTheorems.CommitAssembles` | pkg/azurestore/azureservice.go:272-282 | committing yields the chunks in upload order without the sentinel |
| `AzureTheorems.CommitAfterFailedWrite` | pkg/azurestore/azureservice.go:192-205 | after a write that fails at Azure, as an empty one does, a commit on that handle succeeds if and only if an old block of the next index exists, which is then appended |
| `AzureTheorems.OldBlockIsFirst` | pkg/azurestore/azureservice.go:272-282 | an old block is found exactly if the blob was committed with one of that name |
| `AzureTheorems.NewUploadStartsAtZeroIff` | pkg/azurestore/azurestore.go:92-97 | a new upload reports offset 0 if and only if no uncommitted data block was left on the blob |
| `AzureTheorems.WriteStages` | pkg/azurestore/azurestore.go:159-197 | a body on a fresh handle becomes the next block, or nothing but the handle's index list changes |
| `AzureTheorems.Lifecycle` | pkg/azurestore/azurestore.go:52-149 | from creation to commit, for any listing and any old blob: true offset, indexes 0 to k-1, next index k and not the sentinel, content in order |
| `AzureStore.BlockBlob.Upload` | pkg/azurestore/azureservice.go:192-205 | the index is recorded before the block is staged |
| `AzureStore.BlockBlob.StageSentinelBlock` | pkg/azurestore/azureservice.go:218-222 | the marker block |
| `AzureStore.BlockBlob.GetOffset` | pkg/azurestore/azureservice.go:233-269 | the loops over committed and uncommitted blocks |
| `AzureStore.BlockBlob.Commit` | pkg/azurestore/azureservice.go:272-282 | the index list is committed in order |
| `AzureStore.AzUpload.NewUpload` | pkg/azurestore/azurestore.go:52-100 | size limit, info blob, and the sentinel staged over whatever is there |
| `AzureStore.AzUpload.GetUpload` | pkg/azurestore/azurestore.go:102-149 | not found, size limit, and the recovered offset and indexes |
| `AzureStore.AzUpload.WriteChunk` | pkg/azurestore/azurestore.go:159-197 | size limit, upload and offset |
| `AzureStore.AzUpload.DeclareLength` | pkg/azurestore/azurestore.go:240-244 | the length is set in the handle and in the info blob |
| `AzureStore.AzUpload.FinishUpload` | pkg/azurestore/azurestore.go:225-227 | finishing commits |
| `Base64.RoundTrip` | pkg/handler/unrouted_handler.go:1600-1620 | decoding inverts encoding |
| `Base64.DecodeSkipsBreaks` | pkg/handler/unrouted_handler.go:1596-1601 | line breaks anywhere in an encoded value make no difference |
| `Metadata.ParseMetadataHeader` | pkg/handler/unrouted_handler.go:1580-1612 | the parsing loop |
| `Metadata.LastOneWins` | pkg/handler/unrouted_handler.go:1583-1609 | a key has the value of the last element that gives it one, and there are no other keys |
| `Metadata.SerializeMetadataHeader` | pkg/handler/unrouted_handler.go:1617-1630 | the serializing loop, for any order of the map |
| `Metadata.ParsedSurvives` | pkg/handler/unrouted_handler.go:1583-1609 | whatever is parsed would come back |
| `Metadata.RoundTripExactly` | pkg/handler/unrouted_handler.go:1580-1630 | metadata comes back for every order if and only if every key has no comma, no blank, and no outer white space, the last one only for empty values |

## Left out

- `S3Upload.PartProducer.NextPart`: temporary files and errors of reading them are not modelled; errors of the request body end the stream (see `BodyReader`).
- `S3Upload.Upload.ConcatUsingMultipart`: S3's own size limit on a copied part is not modelled.
- `GcsBucket.Bucket.Compose`: requires existing sources and leaves out the checksum comparison and its retries, whose algebra lives in an outside library.
- `Handler.UnroutedHandler.PostFile`: the changes a pre-create hook may make to the id and the metadata are not modelled.
- `Handler.UnroutedHandler.DelFile`: a termination that fails is taken to leave the upload as it was.
- Failing remote calls in the middle of a chunk and cancellation inside the part producer: the code promises nothing about bytes there.
- Object keys and prefixes of the S3 store: the objects of one upload are separate fields.
- ETags, presigned uploads, temporary files, JSON of the info object, metrics and logging.
- The IETF draft variants of POST, PATCH and HEAD; only their effect of finishing with a `.part` object is covered.
- Hooks, routing, CORS, content types, URLs and the Upload-Concat header's text.
- The file store and file locker: the file store is the append that the handler model assumes, and the file locker depends on the file system.
- Termination of S3 and Azure uploads, which deletes all objects of an upload.
