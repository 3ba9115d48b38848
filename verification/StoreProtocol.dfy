// The content-addressed store as a concurrent protocol: uploads, deletes, sweeps and any number
// of garbage collectors, interleaved step by step (internal/storage/service.go, repository.go).
//
// Committed tables are the maps `files`, `chunks` and `links`; what an open transaction has
// written but not committed lives in the phase of the upload or collector that opened it, and so
// do the row locks it holds. A step that the database would make wait is simply not enabled.
module StoreProtocol {
  import opened Chunking

  type FileId = nat
  type ChunkId = nat
  type CollectorId = nat
  type UserId = nat
  type Time = nat

  /** A SHA-256 digest in hex. The hash function itself stays a parameter. */
  datatype Digest = Digest(hex: string)

  /**
   * What LockOrphanedChunk guarantees. AtomicCheck is what its comment promises: the row is
   * unreferenced at the moment the lock is granted. SnapshotCheck is what Read Committed gives
   * (section 13.2.1 of the PostgreSQL manual): the reference check is made on the statement's
   * snapshot and is not repeated after waiting for a row that was only share-locked.
   */
  datatype LockMode = AtomicCheck | SnapshotCheck

  datatype Config = Config(sha: Bytes -> Digest, minAge: nat, mode: LockMode)

  datatype Status = Uploading | Ready
  datatype FileRow = FileRow(owner: UserId, size: nat, status: Status, updatedAt: Time)
  datatype ChunkRow = ChunkRow(hash: Digest, size: nat, createdAt: Time)

  /** Where an UploadFile call stands. Inserting .. Linked are inside a chunk transaction. */
  datatype Phase =
    | Idle                                   // between two chunks, no transaction open
    | Inserting(attempt: nat)                // GetOrCreateChunk: about to INSERT
    | Selecting(attempt: nat)                // the INSERT lost to an existing row
    | Waiting(attempt: nat, seen: ChunkId)   // SELECT ... FOR SHARE saw a row, may have to wait for it
    | Created(chunk: ChunkId)                // inserted a new row (uncommitted), object not uploaded
    | Held(chunk: ChunkId, isNew: bool)      // new row and object uploaded, or shared lock on an old row
    | Linked(chunk: ChunkId, isNew: bool)    // file_chunks row inserted (uncommitted)
    | Done                                   // UpdateFileSizeAndStatus(ready) returned
    | Dead                                   // failed or crashed; any open transaction rolled back

  datatype Upload = Upload(owner: UserId, data: Bytes, parts: seq<Bytes>, next: nat, phase: Phase, begun: Time,
                           mark: nat)

  /** Where a collector stands with the candidate it is working on. */
  datatype GcPhase =
    | Scanned
    | Checked(id: ChunkId)   // found unreferenced on the statement's snapshot
    | Locked(id: ChunkId)    // FOR UPDATE granted
    | Erased(id: ChunkId)    // object deleted from the object store
    | Removed(id: ChunkId)   // chunk row deleted, not committed

  datatype Collector = Collector(candidates: map<ChunkId, Digest>, phase: GcPhase)

  datatype Collected = Collected(id: ChunkId, hash: Digest, at: Time)

  datatype State = State(
    files: map<FileId, FileRow>,
    chunks: map<ChunkId, ChunkRow>,
    links: map<(FileId, nat), ChunkId>,
    objects: map<Digest, Bytes>,
    uploads: map<FileId, Upload>,         // every UploadFile call ever made, by the file id it was given
    collectors: map<CollectorId, Collector>,
    events: set<FileId>,                  // file_uploaded events in the stream
    now: Time,
    // History, read by no step:
    used: set<ChunkId>,                   // chunk ids ever issued
    known: set<ChunkId>,                  // chunk ids ever committed
    spoiled: set<ChunkId>,                // object deleted by a collection that has not committed
    failed: set<ChunkId>,                 // object deleted by a collection that then failed
    log: seq<Collected>,                  // rows collected, in commit order
    lag: nat)                             // greatest age of a transaction when its INSERT won

  const MAX_ATTEMPTS := 3

  function Init(): State
  {
    State(map[], map[], map[], map[], map[], map[], {}, 0, {}, {}, {}, {}, [], 0)
  }

  // ---- Observations ----

  predicate InTx(p: Phase)
  {
    p.Inserting? || p.Selecting? || p.Waiting? || p.Created? || p.Held? || p.Linked?
  }

  /** The transaction has an uncommitted row of its own in `chunks`. */
  predicate HasPending(p: Phase)
  {
    p.Created? || ((p.Held? || p.Linked?) && p.isNew)
  }

  predicate HoldsShare(p: Phase, c: ChunkId)
  {
    p == Held(c, false) || p == Linked(c, false)
  }

  predicate HoldsExclusive(p: GcPhase, c: ChunkId)
  {
    p == Locked(c) || p == Erased(c) || p == Removed(c)
  }

  /** The digest of the chunk an upload is working on. */
  function Target(cfg: Config, u: Upload): Digest
  {
    if u.next < |u.parts| then cfg.sha(u.parts[u.next]) else Digest("")
  }

  predicate HasRow(chunks: map<ChunkId, ChunkRow>, h: Digest)
  {
    exists c :: c in chunks && chunks[c].hash == h
  }

  predicate PendingElsewhere(cfg: Config, uploads: map<FileId, Upload>, h: Digest)
  {
    exists f :: f in uploads && HasPending(uploads[f].phase) && Target(cfg, uploads[f]) == h
  }

  predicate Unlinked(links: map<(FileId, nat), ChunkId>, c: ChunkId)
  {
    forall k :: k in links ==> links[k] != c
  }

  predicate ExclusivelyLocked(collectors: map<CollectorId, Collector>, c: ChunkId)
  {
    exists g :: g in collectors && HoldsExclusive(collectors[g].phase, c)
  }

  predicate ShareLocked(uploads: map<FileId, Upload>, c: ChunkId)
  {
    exists f :: f in uploads && HoldsShare(uploads[f].phase, c)
  }

  /** What GetOrphanedChunks returns, with the hash it read. */
  function Orphans(cfg: Config, s: State): map<ChunkId, Digest>
  {
    map c | c in s.chunks && Unlinked(s.links, c) && s.chunks[c].createdAt + cfg.minAge < s.now :: s.chunks[c].hash
  }

  // ---- Steps ----

  datatype Step =
    | Tick(elapsed: nat)
    | CreateFile(f: FileId, owner: UserId, data: Bytes)
    | Begin(f: FileId)
    | InsertWins(f: FileId, chunk: ChunkId)
    | InsertLoses(f: FileId)
    | SelectSees(f: FileId, chunk: ChunkId)
    | SelectMisses(f: FileId)
    | LockGranted(f: FileId)
    | LockMisses(f: FileId)
    | PutObject(f: FileId)
    | Link(f: FileId)
    | Commit(f: FileId)
    | Finish(f: FileId)
    | Publish(f: FileId)
    | Crash(f: FileId)                  // an error return, a rollback or a process crash, at any point
    | RemoveFiles(gone: set<FileId>)    // DeleteFile, DeleteFolder's cascade, DeleteStaleUploads, abandonUpload
    | Scan(g: CollectorId)
    | Check(g: CollectorId, chunk: ChunkId)
    | Skip(g: CollectorId, chunk: ChunkId)   // ErrChunkInUse
    | Lock(g: CollectorId)
    | Erase(g: CollectorId)
    | DeleteRow(g: CollectorId)
    | GcCommit(g: CollectorId)
    | GcFail(g: CollectorId)            // an error return, a rollback or a crash, at any point

  predicate Enabled(cfg: Config, s: State, step: Step)
  {
    match step
    case Tick(_) => true
    case CreateFile(f, _, _) => f !in s.uploads
    case Begin(f) => f in s.uploads && s.uploads[f].phase.Idle? && s.uploads[f].next < |s.uploads[f].parts|
    case InsertWins(f, c) =>
      // The unique index on hash: no committed row, and a rival's uncommitted row makes us wait.
      && f in s.uploads && s.uploads[f].phase.Inserting? && s.uploads[f].phase.attempt < MAX_ATTEMPTS
      && c !in s.used
      && !HasRow(s.chunks, Target(cfg, s.uploads[f])) && !PendingElsewhere(cfg, s.uploads, Target(cfg, s.uploads[f]))
    case InsertLoses(f) =>
      && f in s.uploads && s.uploads[f].phase.Inserting? && s.uploads[f].phase.attempt < MAX_ATTEMPTS
      && HasRow(s.chunks, Target(cfg, s.uploads[f]))
    case SelectSees(f, c) =>
      && f in s.uploads && s.uploads[f].phase.Selecting?
      && c in s.chunks && s.chunks[c].hash == Target(cfg, s.uploads[f])
    case SelectMisses(f) =>
      f in s.uploads && s.uploads[f].phase.Selecting? && !HasRow(s.chunks, Target(cfg, s.uploads[f]))
    case LockGranted(f) =>
      && f in s.uploads && s.uploads[f].phase.Waiting?
      && s.uploads[f].phase.seen in s.chunks && !ExclusivelyLocked(s.collectors, s.uploads[f].phase.seen)
    case LockMisses(f) =>
      f in s.uploads && s.uploads[f].phase.Waiting? && s.uploads[f].phase.seen !in s.chunks
    case PutObject(f) => f in s.uploads && s.uploads[f].phase.Created?
    case Link(f) =>
      // The foreign key and the primary key of file_chunks.
      f in s.uploads && s.uploads[f].phase.Held? && f in s.files && (f, s.uploads[f].next) !in s.links
    case Commit(f) => f in s.uploads && s.uploads[f].phase.Linked?
    case Finish(f) => f in s.uploads && s.uploads[f].phase.Idle? && s.uploads[f].next == |s.uploads[f].parts|
    case Publish(f) => f in s.uploads && s.uploads[f].phase.Done?
    case Crash(f) => f in s.uploads
    case RemoveFiles(gone) =>
      // An uncommitted link holds a key-share lock on its file row, so the DELETE waits for it.
      forall f :: f in gone && f in s.uploads ==> !s.uploads[f].phase.Linked?
    case Scan(g) => g in s.collectors ==> s.collectors[g].phase.Scanned?
    case Check(g, c) =>
      && g in s.collectors && s.collectors[g].phase.Scanned? && c in s.collectors[g].candidates
      && c in s.chunks && Unlinked(s.links, c)
    case Skip(g, c) =>
      && g in s.collectors && s.collectors[g].phase.Scanned? && c in s.collectors[g].candidates
      && !(c in s.chunks && Unlinked(s.links, c))
    case Lock(g) =>
      && g in s.collectors && s.collectors[g].phase.Checked?
      && var c := s.collectors[g].phase.id;
      && c in s.chunks && !ShareLocked(s.uploads, c) && !ExclusivelyLocked(s.collectors, c)
      && (cfg.mode.AtomicCheck? ==> Unlinked(s.links, c))
    case Erase(g) => g in s.collectors && s.collectors[g].phase.Locked?
    case DeleteRow(g) =>
      // file_chunks.chunk_id is ON DELETE RESTRICT.
      g in s.collectors && s.collectors[g].phase.Erased? && Unlinked(s.links, s.collectors[g].phase.id)
    case GcCommit(g) => g in s.collectors && s.collectors[g].phase.Removed?
    case GcFail(g) => g in s.collectors && !s.collectors[g].phase.Scanned?
  }

  function WithPhase(s: State, f: FileId, p: Phase): State
    requires f in s.uploads
  {
    s.(uploads := s.uploads[f := s.uploads[f].(phase := p)])
  }

  function WithGc(s: State, g: CollectorId, p: GcPhase): State
    requires g in s.collectors
  {
    s.(collectors := s.collectors[g := s.collectors[g].(phase := p)])
  }

  /** The collector gives up its candidate c and is ready for the next one. */
  function Dismiss(s: State, g: CollectorId, c: ChunkId): State
    requires g in s.collectors
  {
    s.(collectors := s.collectors[g := Collector(s.collectors[g].candidates - {c}, Scanned)])
  }

  function StoreObject(cfg: Config, s: State, f: FileId): State
    requires f in s.uploads && s.uploads[f].phase.Created?
  {
    var u := s.uploads[f];
    var body := if u.next < |u.parts| then u.parts[u.next] else [];
    WithPhase(s, f, Held(u.phase.chunk, true)).(objects := s.objects[Target(cfg, u) := body])
  }

  /** created_at defaults to NOW(), which is when the transaction began. */
  function NewRow(cfg: Config, u: Upload): ChunkRow
  {
    ChunkRow(Target(cfg, u), if u.next < |u.parts| then |u.parts[u.next]| else 0, u.begun)
  }

  function CommitChunk(cfg: Config, s: State, f: FileId): State
    requires f in s.uploads && s.uploads[f].phase.Linked?
  {
    var u := s.uploads[f];
    var c := u.phase.chunk;
    s.(chunks := if u.phase.isNew then s.chunks[c := NewRow(cfg, u)] else s.chunks,
       known := s.known + {c},
       links := s.links[(f, u.next) := c],
       uploads := s.uploads[f := u.(next := u.next + 1, phase := Idle)])
  }

  function InsertRow(s: State, f: FileId, c: ChunkId): State
    requires f in s.uploads
  {
    var age := if s.uploads[f].begun <= s.now then s.now - s.uploads[f].begun else 0;
    WithPhase(s, f, Created(c)).(used := s.used + {c}, lag := if s.lag < age then age else s.lag)
  }

  /** UpdateFileSizeAndStatus, which does not look at how many rows it touched. */
  function FinishUpload(s: State, f: FileId): State
    requires f in s.uploads
  {
    var files' := if f in s.files
      then s.files[f := s.files[f].(size := |s.uploads[f].data|, status := Ready, updatedAt := s.now)]
      else s.files;
    WithPhase(s, f, Done).(files := files')
  }

  /** Deleting file rows cascades to their links and to nothing else. */
  function DropFiles(s: State, gone: set<FileId>): State
  {
    s.(files := s.files - gone, links := map k | k in s.links && k.0 !in gone :: s.links[k])
  }

  function CandidateHash(k: Collector, c: ChunkId): Digest
  {
    if c in k.candidates then k.candidates[c] else Digest("")
  }

  function EraseObject(s: State, g: CollectorId): State
    requires g in s.collectors && s.collectors[g].phase.Locked?
  {
    var c := s.collectors[g].phase.id;
    WithGc(s, g, Erased(c)).(objects := s.objects - {CandidateHash(s.collectors[g], c)}, spoiled := s.spoiled + {c})
  }

  function CommitCollection(s: State, g: CollectorId): State
    requires g in s.collectors && s.collectors[g].phase.Removed?
  {
    var c := s.collectors[g].phase.id;
    var entry := Collected(c, CandidateHash(s.collectors[g], c), s.now);
    Dismiss(s, g, c).(chunks := s.chunks - {c}, spoiled := s.spoiled - {c}, log := s.log + [entry])
  }

  function FailCollection(s: State, g: CollectorId): State
    requires g in s.collectors && !s.collectors[g].phase.Scanned?
  {
    var p := s.collectors[g].phase;
    Dismiss(s, g, p.id).(failed := if p.Erased? || p.Removed? then s.failed + {p.id} else s.failed)
  }

  function Apply(cfg: Config, s: State, step: Step): State
    requires Enabled(cfg, s, step)
  {
    match step
    case Tick(d) => s.(now := s.now + d)
    case CreateFile(f, owner, data) =>
      s.(files := s.files[f := FileRow(owner, 0, Uploading, s.now)],
         uploads := s.uploads[f := Upload(owner, data, Split(data), 0, Idle, s.now, 0)])
    case Begin(f) =>
      s.(uploads := s.uploads[f := s.uploads[f].(phase := Inserting(0), begun := s.now, mark := |s.log|)])
    case InsertWins(f, c) => InsertRow(s, f, c)
    case InsertLoses(f) => WithPhase(s, f, Selecting(s.uploads[f].phase.attempt))
    case SelectSees(f, c) => WithPhase(s, f, Waiting(s.uploads[f].phase.attempt, c))
    case SelectMisses(f) => WithPhase(s, f, Inserting(s.uploads[f].phase.attempt + 1))
    case LockGranted(f) => WithPhase(s, f, Held(s.uploads[f].phase.seen, false))
    case LockMisses(f) => WithPhase(s, f, Inserting(s.uploads[f].phase.attempt + 1))
    case PutObject(f) => StoreObject(cfg, s, f)
    case Link(f) => WithPhase(s, f, Linked(s.uploads[f].phase.chunk, s.uploads[f].phase.isNew))
    case Commit(f) => CommitChunk(cfg, s, f)
    case Finish(f) => FinishUpload(s, f)
    case Publish(f) => s.(events := s.events + {f})
    case Crash(f) => WithPhase(s, f, Dead)
    case RemoveFiles(gone) => DropFiles(s, gone)
    case Scan(g) => s.(collectors := s.collectors[g := Collector(Orphans(cfg, s), Scanned)])
    case Check(g, c) => WithGc(s, g, Checked(c))
    case Skip(g, c) => Dismiss(s, g, c)
    case Lock(g) => WithGc(s, g, Locked(s.collectors[g].phase.id))
    case Erase(g) => EraseObject(s, g)
    case DeleteRow(g) => WithGc(s, g, Removed(s.collectors[g].phase.id))
    case GcCommit(g) => CommitCollection(s, g)
    case GcFail(g) => FailCollection(s, g)
  }

  // ---- Runs ----

  /** Every step of the run is enabled where it is taken. */
  predicate IsRun(cfg: Config, s: State, run: seq<Step>)
    decreases |run|
  {
    run != [] ==> Enabled(cfg, s, run[0]) && IsRun(cfg, Apply(cfg, s, run[0]), run[1..])
  }

  function After(cfg: Config, s: State, run: seq<Step>): State
    requires IsRun(cfg, s, run)
    decreases |run|
  {
    if run == [] then s else After(cfg, Apply(cfg, s, run[0]), run[1..])
  }

  lemma {:induction false} RunAppend(cfg: Config, s: State, run: seq<Step>, step: Step)
    requires IsRun(cfg, s, run) && Enabled(cfg, After(cfg, s, run), step)
    ensures IsRun(cfg, s, run + [step])
    ensures After(cfg, s, run + [step]) == Apply(cfg, After(cfg, s, run), step)
    decreases |run|
  {
    var more := run + [step];
    if run == [] {
      assert more[0] == step && more[1..] == [];
    } else {
      assert more[0] == run[0] && more[1..] == run[1..] + [step];
      RunAppend(cfg, Apply(cfg, s, run[0]), run[1..], step);
    }
  }
}
