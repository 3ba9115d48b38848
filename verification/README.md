# Nimbus: a verified model

Nimbus is a file storage service. Uploads are cut into content-addressed chunks that files share;
a collector reclaims chunks nobody references; a Redis stream carries an event per uploaded file to
background workers; requests pass a rate limiter; folders, files and search live in PostgreSQL.
This project models those parts in Dafny and proves what they promise. `dafny verify dfyconfig.toml`
checks all of it.

## What is modelled

**The content-addressed store** (`Chunking`, `StoreProtocol`, `StoreInvariant`, `StoreTheorems`,
`StoreWaits`, `StoreLosses`, `ChunkRaces`, `LostRaces`, `StorageService`, `ConcurrentUpload`,
`ConcurrentCollector`, `VerifiedReader`, `Downloads`). The tables `files`, `chunks` and
`file_chunks`, the object store, the row locks and every open transaction form one state; uploads,
deletes, sweeps and any number of collectors are steps on it that interleave freely, and any of them
may fail or crash at any point. SHA-256 is a parameter `sha`; that it does not collide on the
chunks that occur is a hypothesis only where bytes are compared.

- Every link points at a row and every object hashes to its key, always.
- A link can lose its object exactly while a collection has deleted the object and not committed.
  If `LockOrphanedChunk` checks and locks atomically, a link dangles if and only if a collection of
  the run failed after its delete; if it does not, the only other way is a collection that has just
  deleted the object and that the foreign key forces to fail.
- Whoever holds a lock on a chunk row, or an uncommitted chunk row, waits for no other chunk row and
  has a next step that brings it closer to letting go, so uploads and collectors never deadlock over
  chunks.
- The whole machine is a map from file id to bytes: every step is a step of that map, a ready file
  has links 0 .. k-1 for exactly the chunks of its stream, and reading them back gives the bytes.
- A download through lazily checked chunk readers delivers a prefix of the file whatever the object
  store answers: all of it and then EOF, or up to the start of the first bad chunk and then the same
  error for ever.
- `DownloadFile` asks three questions, and others act between the answers. Only the owner is served,
  and only a file that is ready; what is served is the digests of all its chunks in order, unless the
  file is deleted before they are listed, and then an empty list.
- A sweep removes exactly the uploads that nothing touched for the minimum age, with their links; a
  collector run removes a chunk row only if nothing links it, it is older than that and its
  collection works.
- `GetOrCreateChunk` gives up only if three different rows for its digest were collected meanwhile,
  hence only after more than twice the collector's minimum age (less the age a transaction may have
  when it inserts, because `created_at` is the time the transaction began).
- `StorageService`, `ConcurrentUpload` and `ConcurrentCollector` are the imperative side: `UploadFile`,
  `GetOrCreateChunk`, `collectChunk`, `RunGarbageCollection` and their parts as methods, with a failure
  at any statement. Each call is also a run of the protocol, so it inherits every invariant. The first
  module has nobody else active and says exactly what changes; in the other two, anybody may take any
  steps between two statements of the call.

**The event consumer** (`ConsumeLoop`, `EventDelivery`). The stream, the group's pending list, the
dead-letter stream and any number of workers that read, claim, retry, cancel and crash. Every
published event is in exactly one of undelivered, pending and acknowledged; an acknowledged
well-formed event was handled, or failed three times in one delivery with a dead-letter append
tried. A delivery of an event that nothing has served yet drops it exactly when the three tries
fail, the append fails too, and the acknowledgement still goes through. A read hands the next entries
of the stream to its worker and a claim those it names; each of them is acknowledged, and each
well-formed one handled or dead-lettered, given time and a Redis that takes the writes. The backoff is the
capped doubling for every attempt number in 64-bit arithmetic, and `Consume` gives up exactly at
the eighth failed read in a row.

**The rate limiters** (`MemoryLimiter`, `RateLimitKey`, `SharedLimiter`, `RateLimiter`). The local
counter admits at most max(1, limit) * (ceil(L / window) + 1) requests of a key in a closed interval
of length L, lets exactly max(1, limit) through in each window, opens a full allowance again with the
first call after a window's end, and cleanup passes change no answer. The shared counter, with its text keys and its
expiry, counts as one everlasting counter per limiter, client and window would, if and only if no
call comes after the deadline set by the first one; clocks that stay within a window of each other
guarantee that when the window is a whole number of milliseconds. Given that, and with arbitrary
failures of the shared store, one replica admits at most 2 * limit * (ceil(L / window) + 1).

**Search** (`LikeEscape`). LIKE as a recursive matcher; a match against the escaped term is a plain
substring search for every text and term, and under ILIKE one that ignores case.

**Folders** (`FolderForest`, `FolderTables`). The rows and keys of `folders`, `files`, `file_chunks`
and `chunks` under interleaved requests. Folders form a forest with one owner from any folder up to
its root; deleting a folder removes exactly its subtree, only for its owner; a user and a
path identify at most one folder and at most one file.

**Client addresses** (`ClientAddress`). The walk over `X-Forwarded-For`. A client that enters through
trusted proxies is counted under its own address whatever header it forges, if and only if some
proxy on the way joins the header lines into one.

`Prelude` holds an option type, minimum and maximum.

## Where the source and its comments differ

- `internal/storage/service.go:365-366` says a crash during a collection cannot leave a row pointing
  at a missing object. It can: the object is deleted before the commit, and a rolled-back
  transaction keeps the row, which a later upload adopts (`StoreLosses.FailedCollectionLosesBytes`).
  `StoreTheorems.DanglesExactly` says when a link is affected.
- `internal/storage/repository.go:226-231` promises a lock that is taken only while the chunk is
  unreferenced. Under Read Committed (section 13.2.1 of the PostgreSQL manual) the reference check is
  not repeated after a wait for a row that was merely share-locked. The model has both readings: the
  promise is the mode `AtomicCheck`; under `SnapshotCheck` a ready file can lose its bytes without
  any failure (`StoreLosses.SnapshotCheckLosesBytes`).
- `internal/events/redis.go:25-27` speaks of roughly a minute of broker unavailability; the delays
  before giving up add up to 30.75 seconds (`ConsumeLoop.GivingUpTakes`), beside the time the reads
  themselves take.
- `internal/middleware/ratelimit_store.go:51-52` says a counter cannot be dropped early. Replicas
  whose clocks differ by more than that leaves room for get a second allowance
  (`SharedLimiter.SecondAllowance`), and a window under half a millisecond gets no time to live at
  all (`SharedLimiter.TinyWindowNeverLimits`).
- `internal/middleware/clientip.go:62-68` says that what stands further left was supplied by the client
  and is not trusted. `Header.Get` (line 76) reads the first line of a header only, so behind proxies
  that each add a line of their own the client's line is the one that is read
  (`ClientAddress.ForgedHeaderIgnoredExactly`).
- `internal/metadata/repository.go:189-191` says the backslash has to be escaped first. In a
  `strings.Replacer`, which makes a single pass, the order does not matter; it would for separate
  passes (`LikeEscape.EscapeInPasses`, `LikeEscape.WrongOrder`).

- `internal/storage/service.go:253-258` keeps a download from being silently truncated by checking the
  status first. The chunk list is read by a later statement, so a file that is deleted between the two
  is served as an empty one, without an error (`Downloads.DeletedInBetween`; `Downloads.Fetch` gives
  the exact condition).

## Model

| member | source | states |
|---|---|---|
| Chunking.SplitIsWellChunked | internal/storage/service.go:163-193 | chunks of any stream, empty ones and exact multiples included, are never empty, all but the last are full, and joined they are the stream |
| Chunking.SplitCharacterised | internal/storage/service.go:163-193 | there is no other way to cut the stream like that |
| Chunking.StoreChunks | internal/storage/service.go:163-193 | the loop over a reused buffer stores exactly those chunks in order and counts every byte, and fails just when the stream breaks or a chunk is refused |
| Chunking.Stream.ReadFull | internal/storage/service.go:117-121 | a full buffer, or what is left with the reason why not |
| StoreInvariant.StepKeeps | internal/storage/service.go:108-392 | every step of uploads, deletes, sweeps and collectors, failures and crashes included, keeps the whole invariant |
| StoreInvariant.RunKeeps | internal/storage/service.go:108-392 | and so does every run |
| StoreInvariant.CommitKeeps | internal/storage/service.go:202-228 | committing a chunk transaction keeps it: the row's object is there, its digest is unique, the link is the file's next |
| StoreInvariant.CollectKeeps | internal/storage/service.go:367-392 | committing a collection keeps it: no link, upload or other collector loses its row |
| StoreInvariant.EraseKeeps | internal/storage/service.go:380-382 | deleting the object keeps it: only the locked chunk is affected, and it is marked as spoiled |
| StoreInvariant.GrantKeeps | internal/storage/repository.go:192-218 | an upload granted the shared lock finds a row that no collector holds |
| StoreTheorems.ReachableInv | internal/storage/service.go:108-392 | the invariant holds in every reachable state |
| StoreTheorems.LinksAndObjectsSound | migrations/00003_create_chunks.sql:3-16 | in every reachable state links point at existing file and chunk rows and objects hash to their keys |
| StoreTheorems.DanglesExactly | internal/storage/service.go:357-392 | a linked object is missing exactly while a collection has deleted it and not committed |
| StoreTheorems.DanglesOnlyByFailure | internal/storage/service.go:357-392 | given the atomic check, a link dangles if and only if a collection of the run failed on its chunk after deleting the object |
| StoreTheorems.NoFailureNoDangling | internal/storage/service.go:357-392 | in a run without such a failure no link ever dangles |
| StoreTheorems.FailedExactly | internal/storage/service.go:367-392 | the chunks on record as failed are exactly those some collection of the run failed on between delete and commit |
| StoreTheorems.FailuresLast | internal/storage/service.go:380-391 | what such a failure leaves stays without its object for as long as its row exists |
| StoreTheorems.DanglesUnderSnapshot | internal/storage/repository.go:226-249 | with or without the atomic check, a link dangles if and only if a collection failed like that or has just deleted the object |
| StoreTheorems.ErasedCanOnlyFail | migrations/00003_create_chunks.sql:12 | the foreign key stops the latter from deleting the row, so all it can do is fail |
| StoreTheorems.ErasedWhileLinked | migrations/00003_create_chunks.sql:12 | that way needs the snapshot check and a collector that has just deleted the object |
| StoreTheorems.StepRefines | internal/storage/service.go:108-161 | every step is a step of a map from file id to bytes: finish publishes, removal removes, nothing else shows |
| StoreTheorems.UploadedByRun | internal/storage/service.go:108-161 | the owner and the bytes on record for a file are those some CreateFile of the run was given |
| StoreTheorems.FileBelongsToUploader | internal/storage/repository.go:94-112 | a file row belongs to the user for whom the run created the file, and once ready it shows the bytes given then |
| StoreTheorems.ReadyFileShape | internal/storage/repository.go:260-283 | a ready file has links 0 .. k-1 without gaps to rows with the digests of its chunks, and the right size |
| StoreTheorems.ReadyFileReadsBack | internal/storage/service.go:260-273 | its chunks in index order join to the uploaded bytes, if digests do not collide |
| StoreTheorems.ReadyFileFetchable | internal/storage/service.go:265-273 | unless one of its chunks is spoiled, every object is there to be fetched |
| StoreTheorems.OrderedIsRange | internal/storage/repository.go:260-283 | ordered indices that are exactly those below n are 0 .. n-1 |
| StoreTheorems.EventFilesComplete | internal/storage/service.go:144-159 | a file with an event is gone or ready, then and ever after, so the worker's unchecked download is safe |
| StoreLosses.FailedCollectionLosesBytes | internal/storage/service.go:365-388 | a run in which a failed collection costs a ready file its bytes |
| StoreLosses.SnapshotCheckLosesBytes | internal/storage/repository.go:226-249 | a run without failures in which the snapshot check does |
| ChunkRaces.StepRaces | internal/storage/repository.go:203-223 | every step keeps: each lost attempt was paid for by a row of that digest collected since the call began |
| ChunkRaces.RunRaces | internal/storage/repository.go:203-223 | and so does every run |
| ChunkRaces.GivingUpTakesThreeCollections | internal/storage/repository.go:203-223 | giving up takes three different collected rows of the digest, and more than twice the minimum age |
| LostRaces.ThreeRacesLost | internal/storage/repository.go:203-223 | and that can happen, for every configuration |
| StoreWaits.NoDeadlock | internal/storage/repository.go:192-201 | in every reachable state whoever is waited for over a chunk row waits for no chunk row and has a next step that brings it closer to letting go |
| StoreWaits.HolderMoves | internal/storage/repository.go:192-201 | that step, for every phase in which something is held |
| StoreWaits.OthersDoNotDelay | internal/storage/service.go:197-201 | and no step of anybody else puts it back |
| StoreWaits.NobodyStuck | internal/storage/repository.go:204-222 | whoever stands at a statement that can wait, and waits for nobody, can go on |
| StorageService.Service.UploadFile | internal/storage/service.go:108-193 | with nobody else active and a failure at any statement or read: it succeeds when every step but the event does, and then adds one ready file row of its owner, with its bytes and size; otherwise users see what they saw, and a clean-up that works takes row and links back |
| StorageService.Service.StoreChunk | internal/storage/service.go:202-228 | links one more chunk to a row with its digest, at the cost of no row and no object for a known digest and, for a new one, one row with its size and time and one object; a failure anywhere leaves the tables as they were and at most one object more |
| ConcurrentUpload.GetOrCreateChunk | internal/storage/repository.go:185-224 | between any steps of others: a new row has no committed rival, an existing one is share-locked and nobody holds it exclusively, and giving up takes three collections during the call |
| ConcurrentUpload.StoreChunk | internal/storage/service.go:202-228 | between any steps of others: on success one more chunk is linked to a row with its digest; it fails only through a statement of its own, a deleted file row or three lost races |
| ConcurrentUpload.UploadFile | internal/storage/service.go:108-161 | between any steps of others: on success the file shows with its bytes unless its row is deleted by then, otherwise it shows and is announced nowhere; its row is its owner's throughout; it fails only through a statement or read of its own, a deleted row or three lost races |
| StorageService.Service.Abandon | internal/storage/service.go:230-240 | takes back the file row and its links, or, if that fails, leaves only an unfinished row; nothing of anyone else's changes |
| StorageService.Service.CollectChunk | internal/storage/service.go:357-392 | removes exactly one row and its object, passes over a chunk in use, or fails before or after the object is deleted, and what each leaves |
| ConcurrentCollector.CollectChunk | internal/storage/service.go:357-392 | between any steps of others: ends with row and links gone, with the chunk in use, or failed, which under the atomic check takes a failing statement of its own |
| StorageService.Service.RunGarbageCollection | internal/storage/service.go:316-355 | with nobody else active and any failures, row by row: a file row goes, with its links, exactly when the sweep works and it is an upload last touched more than the minimum age ago; a chunk row goes only if nothing links it, it is older than that and its collection works, its object with it, and if the run finishes all such rows go and are counted; every other chunk keeps row and object |
| StorageService.Service.SweepAndScan | internal/storage/repository.go:285-323 | removes exactly the uploads last touched more than the minimum age ago, with their links, and lists exactly the unlinked chunk rows older than that |
| StorageService.CollectedRows | internal/storage/service.go:330-355 | what the loop over the candidates leaves of each chunk row and object |
| StorageService.ReclaimsOne | internal/storage/service.go:367-392 | one collection, whatever fails, touches no other row and no object of another row |
| StorageService.OrphanRows | internal/storage/repository.go:285-308 | the candidates are exactly the unlinked rows older than the minimum age |
| StorageService.OneLess | internal/storage/service.go:338-351 | each collection takes one orphan off and disturbs no linked chunk |
| StorageService.NoneLess | internal/storage/service.go:348-350 | a failed one takes none off and disturbs none |
| StorageService.SweepHidesNothing | internal/storage/repository.go:310-323 | sweeping hides no visible file and leaves nothing to sweep |
| VerifiedReader.Load | internal/storage/service.go:83-106 | gives bytes exactly when the answer is whole, not oversized and has the expected digest, and otherwise which of the four errors for which answer |
| VerifiedReader.VerifiedChunkReader.Read | internal/storage/service.go:70-81 | hands out a checked chunk piece by piece, or the same error for ever |
| VerifiedReader.FileReader.Read | internal/storage/service.go:265-273 | each read adds to a correct prefix of the file |
| VerifiedReader.Download | internal/storage/service.go:265-273 | any sequence of reads delivers the whole file and EOF, or stops for good at the start of the first bad chunk, and room for one byte per read always gets there |
| VerifiedReader.ReadyFileDownloads | internal/storage/service.go:242-274 | in every reachable state a ready file without spoiled chunks passes every check with its own chunks |
| VerifiedReader.DownloadReady | internal/storage/service.go:242-274 | and reading it, with room for a byte each time, delivers the uploaded bytes followed by EOF |
| Downloads.DownloadFile | internal/storage/service.go:242-274 | between any steps of others: denied exactly to those who do not own the file, refused exactly if it is gone or unfinished when its status is read; granted are the digests of all its chunks in order if it still exists when they are listed, and none if not |
| Downloads.Fetch | internal/storage/service.go:242-274 | with the reads that follow, whatever the object store answers short of a collision: the owner gets a prefix of the bytes uploaded, and on a clean end all of them, or nothing if the file was gone when its chunks were listed |
| Downloads.DeletedInBetween | internal/storage/service.go:248-263 | and the latter can happen to every ready file whose row no transaction locks |
| Downloads.DownloadFileInternal | internal/storage/service.go:297-314 | without the checks: an existing file's status and, between any steps of others, the digests of its first chunks, all of them once it is ready |
| Downloads.GetFileChunks | internal/storage/repository.go:260-283 | the digests of exactly the chunks linked to the file, by increasing index |
| Downloads.ListFacts | internal/storage/repository.go:260-283 | in every reachable state such a list is the digests of the first chunks of the file's stream, of all of them for a ready file, and empty for one that is gone |
| ConsumeLoop.BackoffIsCappedDoubling | internal/events/redis.go:171-191 | the delay is min(15 s, 250 ms * 2^(n-1)) and positive, for every n from 1 |
| ConsumeLoop.ShiftFits | internal/events/redis.go:178-189 | below the shift bound nothing overflows 64 bits, so the guard against a non-positive delay never fires |
| ConsumeLoop.BackoffMonotone | internal/events/redis.go:171-191 | the delay never shrinks with the attempt |
| ConsumeLoop.Consume | internal/events/redis.go:107-169 | a read error is returned exactly at the first eighth failure in a row, unless the context ended before |
| ConsumeLoop.GivingUpTakes | internal/events/redis.go:25-31 | the delays before giving up, one by one, and their sum |
| EventDelivery.StepKeeps | internal/events/redis.go:193-286 | every step of any worker keeps the delivery invariant |
| EventDelivery.InExactlyOnePlace | internal/events/redis.go:125-169 | each published event is undelivered, pending, or acknowledged by an acknowledgement Redis took, and only one of them |
| EventDelivery.AcknowledgedForGood | internal/events/redis.go:193-253 | an acknowledged event stays acknowledged and never becomes pending again |
| EventDelivery.AcknowledgedIsAccountedFor | internal/events/redis.go:215-253 | an acknowledged well-formed event was handled, or failed three times and a dead-letter append was tried |
| EventDelivery.HandledOrDeadLettered | internal/events/redis.go:215-253 | if appends succeed, it was handled or is in the dead-letter stream |
| EventDelivery.DropsExactly | internal/events/redis.go:193-253 | a delivery of a pending event that nothing has served drops it if and only if its three tries fail, the dead-letter append fails and the acknowledgement goes through |
| EventDelivery.AckAccounts | internal/events/redis.go:193-253 | any event leaves the pending list only by an acknowledgement that reaches Redis, after it was skipped as malformed, handled or filed |
| EventDelivery.DroppedEvent | internal/events/redis.go:240-252 | and that can happen |
| EventDelivery.Consumer.HandleMessageWithRetry | internal/events/redis.go:193-253 | what becomes of the next message for every pattern of handler results, cancellation and refused writes |
| EventDelivery.Consumer.TryHandler | internal/events/redis.go:215-235 | the retry loop ends in the first success, in three failures, or with the context |
| EventDelivery.Consumer.ProcessBatch | internal/events/redis.go:162-167 | each message of a batch is acknowledged unless the context ended or an acknowledgement was refused, each well-formed one is handled or dead-lettered unless the context ended or an append failed, and no other leaves the pending list |
| EventDelivery.Consumer.PublishFileUploaded | internal/events/redis.go:77-85 | one event more at the end of the stream, and nothing else |
| EventDelivery.Consumer.Read | internal/events/redis.go:125-131 | the next entries, at most ten, become pending and are queued for the worker in stream order, none left out |
| EventDelivery.Consumer.ReadAndProcess | internal/events/redis.go:125-167 | every entry a read takes is then acknowledged, and handled or dead-lettered, under the same conditions |
| EventDelivery.Consumer.Claim | internal/events/redis.go:261-268 | the pending entries it names are queued for the worker and stay pending |
| EventDelivery.Consumer.ClaimAndProcess | internal/events/redis.go:261-279 | every claimed entry is then acknowledged, and handled or dead-lettered, under the same conditions |
| EventDelivery.Consumer.ClaimAndProcessStaleMessages | internal/events/redis.go:255-286 | page after page, what the pages visited name is no longer pending afterwards, given time and accepted acknowledgements; it stops at the last page or at one with nothing left to claim |
| EventDelivery.CrashedWorkRecoverable | internal/events/redis.go:255-268 | a crash takes nothing off the pending list, and any free worker can claim what is on it |
| MemoryLimiter.MemoryCounterStore.Allow | internal/middleware/ratelimit_store.go:99-115 | the answer and the new map, for every key, limit and time |
| MemoryLimiter.MemoryCounterStore.Cleanup | internal/middleware/ratelimit_store.go:83-91 | deletes exactly the entries that have expired |
| MemoryLimiter.CleanupInvisible | internal/middleware/ratelimit_store.go:83-115 | cleanup passes anywhere in a run change no answer |
| MemoryLimiter.AdmittedBound | internal/middleware/ratelimit_store.go:99-115 | at most max(1, limit) * (ceil(L / window) + 1) admissions of a key in a closed interval of length L |
| MemoryLimiter.WindowAdmitsExactly | internal/middleware/ratelimit_store.go:103-114 | of the calls for a key in one window exactly the first max(1, limit) get through, whatever other keys and the cleanup do |
| MemoryLimiter.WindowAdmitsRest | internal/middleware/ratelimit_store.go:103-114 | from the middle of a window, exactly as many as the allowance has left |
| MemoryLimiter.AllowanceReturns | internal/middleware/ratelimit_store.go:103-114 | after a window that a call opened has ended, whatever else runs, the first call for the key gets through and exactly max(1, limit) do from it on |
| RateLimitKey.TextInjective | internal/middleware/ratelimit_store.go:41-49 | different limiters, clients or windows never share a key, for names without a colon and any client |
| RateLimitKey.DecimalInjective | internal/middleware/ratelimit_store.go:49 | different window indices print differently |
| RateLimitKey.DecimalReads | internal/middleware/ratelimit_store.go:49 | a number prints as the decimal digits that stand for it, without a leading zero |
| RateLimitKey.NamesShareKeysExactly | internal/middleware/ratelimit_store.go:41-49 | two limiter names can share a key if and only if one is the other followed by a colon and something |
| SharedLimiter.RedisServer.RunScript | internal/middleware/ratelimit_store.go:23-29 | increments the counter, and sets its deadline on the first use only |
| SharedLimiter.RedisCounterStore.Allow | internal/middleware/ratelimit_store.go:47-60 | the reply and the new counters, also when the answer is lost after the script ran |
| SharedLimiter.CallTracks | internal/middleware/ratelimit_store.go:23-60 | a call in time finds its own counter and touches no other; a late one starts again from one |
| SharedLimiter.SharedCountsExactly | internal/middleware/ratelimit_store.go:20-60 | the counters count as everlasting ones would if and only if no call comes after the deadline of its counter |
| SharedLimiter.ClocksCloseEnough | internal/middleware/ratelimit_store.go:51-55 | while clocks stay close every call is in time, so the doubled time to live is enough |
| SharedLimiter.WholeMilliseconds | internal/middleware/ratelimit_store.go:51-55 | for a window of whole milliseconds, close means within one window |
| SharedLimiter.SecondAllowance | internal/middleware/ratelimit_store.go:51-52 | with clocks further apart than the time to live, the next call in the same window counts as a first one again, for every limiter, client and time |
| SharedLimiter.TinyWindowNeverLimits | internal/middleware/ratelimit_store.go:53-55 | a window under half a millisecond limits nobody |
| RateLimiter.AdmittedExactlyFirst | internal/middleware/ratelimit_store.go:47-60 | while calls come in time, a call gets through exactly when fewer than limit scripts ran before it for its limiter, client and window |
| RateLimiter.PassedExactly | internal/middleware/ratelimit_store.go:31-60 | while calls come in time, of n answered calls, by any replicas, min(n, limit) get through |
| RateLimiter.PassedExactlyByClocks | internal/middleware/ratelimit_store.go:31-60 | the same from how far apart the clocks are |
| RateLimiter.RateLimiter.Allow | internal/middleware/ratelimit.go:53-68 | asks the shared store and, just when that fails, the local one |
| RateLimiter.ServedByEither | internal/middleware/ratelimit.go:53-68 | what a replica serves is what either store let through, and nothing else |
| RateLimiter.WindowsTouched | internal/middleware/ratelimit_store.go:48 | an interval of length L touches at most ceil(L / window) + 1 windows |
| RateLimiter.SharedPart | internal/middleware/ratelimit_store.go:47-60 | the shared store lets through at most limit for each window an interval touches |
| RateLimiter.ServedBound | internal/middleware/ratelimit.go:54-68 | with any pattern of failures of the shared store, and calls that reach it in time, one replica serves at most 2 * limit * (ceil(L / window) + 1), so it never fails open |
| RateLimiter.ServedBoundByClocks | internal/middleware/ratelimit.go:54-68 | the same from how far apart the clocks are |
| LikeEscape.SearchIsSubstring | internal/metadata/repository.go:189-210 | a match against the escaped term between two wildcards holds exactly when the text contains the term |
| LikeEscape.SearchIgnoresCase | internal/metadata/repository.go:192-210 | and under ILIKE exactly when it does up to case |
| LikeEscape.EscapedMatchesItself | internal/metadata/repository.go:189-192 | an escaped text at the head of a pattern matches itself and nothing else |
| LikeEscape.EscapeKeepsWellFormed | internal/metadata/repository.go:189-192 | the pattern never ends in a lone escape character |
| LikeEscape.SearchTellsTermsApart | internal/metadata/repository.go:192-210 | different terms do not find the same texts |
| LikeEscape.EscapeInPasses | internal/metadata/repository.go:189-192 | one pass does what three would, the backslash first |
| LikeEscape.WrongOrder | internal/metadata/repository.go:189-192 | with the backslash last, the passes give the right pattern if and only if the term has no wildcard |
| LikeEscape.BareWildcards | internal/metadata/repository.go:189-191 | unescaped, the term "%" would find every text and "_" every text but the empty one |
| FolderForest.StepKeeps | internal/metadata/repository.go:57-147 | every statement of any request keeps keys, owners, names and ranks in order |
| FolderForest.InsertFolderKeeps | internal/metadata/service.go:27-36 | an insert long after its ownership check still goes under a folder of the same user, or fails |
| FolderForest.InsertFileKeeps | internal/storage/service.go:111-115 | so does the insert of a file row by an upload |
| FolderForest.CascadeKeeps | migrations/00002_create_folders_and_files.sql:3-26 | a cascade leaves no row whose parent is gone |
| FolderForest.OneOwnerToTheRoot | internal/metadata/service.go:27-36 | every folder has a way up to a root folder through existing rows of its own owner |
| FolderForest.FileUnderOneOwner | internal/storage/service.go:111-115 | every folder above a file exists and belongs to the file's owner |
| FolderForest.NoCycle | migrations/00002_create_folders_and_files.sql:6 | no two folders lie beneath each other |
| FolderForest.CascadeStaysWithin | internal/metadata/service.go:38-47 | deleting a folder takes a folder if and only if it is beneath it, a file if and only if its folder is, a link if and only if its file goes; all of it is the owner's, and no chunk row goes |
| FolderForest.PathIdentifiesFolder | migrations/00007_fix_root_level_uniqueness.sql:21-27 | a user and a path identify at most one folder |
| FolderForest.PathNamesChain | migrations/00002_create_folders_and_files.sql:3-10 | a path is the names of the folders from the root down |
| FolderForest.PathsNeedRootIndex | migrations/00007_fix_root_level_uniqueness.sql:3-27 | that holds if and only if root names are unique |
| FolderForest.OlderConstraintLetsPass | migrations/00007_fix_root_level_uniqueness.sql:3-6 | which the older constraint does not ensure: a table it lets pass has two root folders on one path |
| FolderForest.PathIdentifiesFile | migrations/00007_fix_root_level_uniqueness.sql:31-37 | a user and a path identify at most one file |
| FolderTables.Tables.CreateFolder | internal/metadata/service.go:27-36 | whatever other requests do between the check and the insert, a created folder stands in a tree that is all its owner's |
| FolderTables.Tables.DeleteFolder | internal/metadata/repository.go:121-131 | a folder that is missing or another user's is not found and no row changes; otherwise, row after row and children after parents, exactly the subtree goes with its files and links |
| FolderTables.Tables.DeleteFile | internal/storage/repository.go:142-152 | a file that is missing or another user's is refused and no row changes; otherwise exactly its row and its links go |
| FolderTables.Tables.VerifyFolderOwnership | internal/metadata/repository.go:133-149 | succeeds exactly for an existing folder of that user |
| FolderTables.Tables.InsertFolder | internal/metadata/repository.go:57-85 | a name taken in that place is refused, a parent that is gone fails, and anything else is inserted as given |
| FolderTables.Tables.InsertFile | internal/storage/repository.go:94-112 | the same for a file row |
| FolderTables.Tables.DeleteChunk | migrations/00003_create_chunks.sql:12 | a linked chunk row stays, any other goes alone |
| FolderTables.HoldsSubtree | migrations/00002_create_folders_and_files.sql:6 | a cascade that has run out of children has reached the whole subtree |
| ClientAddress.TrustedProxies.ClientIP | internal/middleware/clientip.go:69-96 | the peer itself if no block holds it or it does not parse, for all header lines, and if the first line is missing, empty or nothing but trusted hops; otherwise the rightmost entry of that line that is no trusted hop decides |
| ClientAddress.TrustedProxies.FromRight | internal/middleware/clientip.go:81-95 | from the right, an address outside the blocks is the answer, a malformed entry makes it the peer, and so do trusted hops alone |
| ClientAddress.TrustedProxies.Contains | internal/middleware/clientip.go:50-60 | an address is trusted exactly when some block holds it |
| ClientAddress.SplitJoined | internal/middleware/clientip.go:81 | splitting at commas takes a joined header apart again |
| ClientAddress.PrefixIgnored | internal/middleware/clientip.go:62-96 | behind a trusted peer, what stands left of a malformed or untrusted entry has no say |
| ClientAddress.RightmostDecides | internal/middleware/clientip.go:82-92 | the rightmost malformed or untrusted entry decides |
| ClientAddress.NeverATrustedHop | internal/middleware/clientip.go:69-96 | the answer is the peer or an address outside the trusted blocks |
| ClientAddress.ForgedHeaderIgnoredExactly | internal/middleware/clientip.go:62-96 | a client behind trusted proxies is counted under its own address whatever header lines it sends, if and only if some proxy joins the lines |
| ClientAddress.PlainClientCounted | internal/middleware/clientip.go:62-96 | a client that sends none is counted under its own address in any case |

## Left out

- HTTP handlers, JSON, tokens, passwords, configuration, tracing, health checks: plumbing around the logic modelled here.
- The AI client and its embeddings: a handler result is an arbitrary success or failure.
- MinIO, pgx, go-redis and the two servers themselves: a map, tables with locks, and a stream with a pending list stand for them. Redis keys are never evicted before they expire.
- Search by tag, the join with embeddings, result order and the limit of 200 rows: database features. Case folding is per character, and lower-casing is taken to keep the three pattern characters apart.
- CIDR parsing, address parsing and printing, trimming, `SplitHostPort`: an abstract notation and a list of predicates; a nil `TrustedProxies` is one without blocks.
- Content type detection, UTF-8 repair and the 100 KB cut in the worker.
- Deleting users: no code of the service does it.
- Quotas of 64-bit time: rate limiter times are unbounded integers from 1970 on; one clock reading stands for both the wall clock and Go's monotonic clock of a replica.
- Which pending entries are old enough to claim, and in which pages XAUTOCLAIM names them: the pages are parameters of `ClaimAndProcessStaleMessages`, and a worker may claim any pending entries, so full coverage of stale ones is not claimed, nor is exactly-once handling.
- Deletes and sweeps in the concurrent protocol are one step that removes any set of file rows, so the wait of a link's foreign key for an uncommitted delete of its file row is not among the waits of `StoreWaits`; their own guards appear in `StorageService` and `FolderForest`.
- StorageService.Service.UploadFile: runs with nobody else active, which is why it can say exactly what changes; `ConcurrentUpload.UploadFile` has everybody else active. Both iterate over the chunks that `Chunking.StoreChunks` cuts from the stream; the folder check and the name check are the flags `permitted` and `created` here and statements of `FolderForest` there.
- StorageService.Service.RunGarbageCollection: runs with nobody else active; `ConcurrentCollector.CollectChunk` is one turn of its loop with everybody else active.
- VerifiedReader.FileReader.Read: creates each chunk reader when the one before it ends; the source creates them all at once, but a reader does nothing before its first read.
- Every chunk row's `size` is set on insert and read by no theorem.
