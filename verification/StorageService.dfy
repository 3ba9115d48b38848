// The service's operations run one after another with nobody else active. Every method takes
// protocol steps, so each call is also a run of the protocol and inherits its invariants.
module StorageService {
  import opened Chunking
  import opened StoreProtocol
  import opened StoreInvariant
  import opened StoreTheorems

  /** Nobody holds a lock or has an uncommitted row. */
  predicate Quiet(s: State)
  {
    && (forall f :: f in s.uploads ==> !InTx(s.uploads[f].phase))
    && (forall g :: g in s.collectors ==> s.collectors[g].phase.Scanned?)
  }

  /** The rows DeleteStaleUploads removes. */
  function Stale(cfg: Config, s: State): set<FileId>
  {
    set f | f in s.files && s.files[f].status.Uploading? && s.files[f].updatedAt + cfg.minAge < s.now
  }

  /** The state after one chunk was collected: its row and its object are gone, nothing else. */
  ghost function AfterCollect(s: State, g: CollectorId, c: ChunkId): State
    requires g in s.collectors && c in s.chunks
  {
    Dismiss(s, g, c).(
      chunks := s.chunks - {c}, objects := s.objects - {s.chunks[c].hash},
      spoiled := s.spoiled - {c}, log := s.log + [Collected(c, s.chunks[c].hash, s.now)])
  }

  /** How far collectChunk gets: through, or to a failure before or after the object is deleted. */
  datatype Trouble = NoTrouble | BeforeErase | AfterErase

  datatype Collection = Gone | InUse | Kept

  ghost function AfterTrouble(s: State, g: CollectorId, c: ChunkId, trouble: Trouble): State
    requires g in s.collectors && c in s.chunks
  {
    match trouble
    case NoTrouble => AfterCollect(s, g, c)
    case BeforeErase => Dismiss(s, g, c)
    case AfterErase =>
      Dismiss(s, g, c).(objects := s.objects - {s.chunks[c].hash}, spoiled := s.spoiled + {c}, failed := s.failed + {c})
  }

  /** What befalls a whole run of the collector. */
  datatype GcLuck = GcLuck(sweeps: bool, scans: bool, endsAfter: nat, trouble: ChunkId -> Trouble)

  datatype GcExit = Finished | ScanFailed | Cancelled

  /** How far storing one chunk gets: through, or to a failure on the way. */
  datatype ChunkLuck = Stored | NotBegun | NotUploaded | NotLinked | NotCommitted

  /**
   * What befalls a whole upload: the folder check, the first read, CreateFile, each chunk, the read
   * after so many chunks, and so on.
   */
  datatype UploadLuck = UploadLuck(
    permitted: bool, firstRead: bool, created: bool, chunk: nat -> ChunkLuck, more: nat -> bool,
    updated: bool, published: bool, cleaned: bool)
  {
    /** The folder is the user's, the stream starts and the name is free. */
    predicate Starts()
    {
      permitted && firstRead && created
    }

    /** Every chunk is read and stored, and the stream ends without an error. */
    ghost predicate Streams(parts: seq<Bytes>)
    {
      AllStored(chunk, |parts|) && AllRead(more, parts, |parts|)
    }
  }

  /** Behind each of the first k chunks that filled the buffer, the next read succeeds; a short chunk was the last. */
  ghost predicate AllRead(more: nat -> bool, parts: seq<Bytes>, k: nat)
  {
    forall i :: 0 <= i < k && i < |parts| && |parts[i]| == CHUNK_SIZE ==> more(i + 1)
  }

  ghost predicate AllStored(luck: nat -> ChunkLuck, k: nat)
  {
    forall i :: 0 <= i < k ==> luck(i).Stored?
  }

  /** The candidates whose collection fails. */
  function Troubled(candidates: set<ChunkId>, trouble: ChunkId -> Trouble): set<ChunkId>
  {
    set c | c in candidates && !trouble(c).NoTrouble?
  }

  /**
   * The stale sweep, over the rows: a file row goes, and its links with it, exactly when the sweep
   * works and the row is an upload last touched more than minAge ago.
   */
  ghost predicate SweptExactly(cfg: Config, before: State, after: State, sweeps: bool, swept: set<FileId>)
  {
    && (forall f :: f in swept <==>
          && sweeps && f in before.files && before.files[f].status == Uploading
          && before.files[f].updatedAt + cfg.minAge < before.now)
    && (forall f :: f in after.files <==> f in before.files && f !in swept)
    && (forall f :: f in after.files ==> after.files[f] == before.files[f])
    && (forall k :: k in after.links <==> k in before.links && k.0 !in swept)
    && (forall k :: k in after.links ==> after.links[k] == before.links[k])
  }

  /** Nothing links the chunk any more, and its row is older than minAge. */
  ghost predicate MayGo(cfg: Config, before: State, after: State, c: ChunkId)
  {
    c in before.chunks && c !in after.links.Values && before.chunks[c].createdAt + cfg.minAge < before.now
  }

  /**
   * Rows are only removed, and only rows that may go and whose collection worked, each with its
   * object; a chunk that may not go keeps its row and its object.
   */
  ghost predicate CollectedOnly(cfg: Config, before: State, after: State, trouble: ChunkId -> Trouble)
  {
    && (forall c :: c in after.chunks ==> c in before.chunks && after.chunks[c] == before.chunks[c])
    && (forall c :: c in before.chunks && c !in after.chunks ==>
          MayGo(cfg, before, after, c) && trouble(c) == NoTrouble && before.chunks[c].hash !in after.objects)
    && (forall c :: c in before.chunks && !MayGo(cfg, before, after, c) ==> SameChunk(before, after, c))
  }

  ghost predicate CollectedAll(cfg: Config, before: State, after: State, trouble: ChunkId -> Trouble)
  {
    forall c :: MayGo(cfg, before, after, c) && trouble(c) == NoTrouble ==> c !in after.chunks
  }

  class Service {
    const cfg: Config
    var s: State
    ghost var run: seq<Step>

    ghost predicate Valid()
      reads this
    {
      IsRun(cfg, Init(), run) && After(cfg, Init(), run) == s && Inv(cfg, s)
    }

    constructor (cfg: Config)
      ensures Valid() && this.cfg == cfg && s == Init()
    {
      this.cfg := cfg;
      s := Init();
      run := [];
    }

    method Take(step: Step)
      requires Valid() && Enabled(cfg, s, step)
      modifies this
      ensures Valid() && s == Apply(cfg, old(s), step) && run == old(run) + [step]
    {
      RunAppend(cfg, Init(), run, step);
      StepKeeps(cfg, s, step);
      s := Apply(cfg, s, step);
      run := run + [step];
    }

    /** collectChunk up to the point where the row is locked. */
    method LockOrphanedChunk(g: CollectorId, c: ChunkId)
      requires Valid() && Quiet(s) && g in s.collectors && c in s.collectors[g].candidates
      requires c in s.chunks && Unlinked(s.links, c)
      modifies this
      ensures Valid() && s == WithGc(old(s), g, Locked(c))
    {
      hide Inv, IsRun, After;
      Take(Check(g, c));
      Take(Lock(g));
    }

    method DeleteObjectAndRow(g: CollectorId, c: ChunkId)
      requires Valid() && g in s.collectors && s.collectors[g].phase == Locked(c) && Unlinked(s.links, c)
      requires c in s.chunks && c in s.collectors[g].candidates && s.collectors[g].candidates[c] == s.chunks[c].hash
      modifies this
      ensures Valid() && s == WithGc(old(s), g, Removed(c)).(
        objects := old(s).objects - {old(s).chunks[c].hash}, spoiled := old(s).spoiled + {c})
    {
      hide Inv, IsRun, After;
      Take(Erase(g));
      Take(DeleteRow(g));
    }

    /** collectChunk: remove one orphaned chunk, its object first, or fail on the way. */
    method CollectChunk(g: CollectorId, c: ChunkId, trouble: Trouble) returns (result: Collection)
      requires Valid() && Quiet(s) && g in s.collectors && c in s.collectors[g].candidates
      modifies this
      ensures Valid() && Quiet(s)
      ensures result.InUse? <==> !(c in old(s).chunks && Unlinked(old(s).links, c))
      ensures result.InUse? ==> s == Dismiss(old(s), g, c)
      ensures !result.InUse? ==> s == AfterTrouble(old(s), g, c, trouble) && (result.Gone? <==> trouble.NoTrouble?)
    {
      CollectorFacts(cfg, s, g);
      hide Inv, IsRun, After, Quiet, AfterTrouble, Unlinked, Dismiss, Valid, CollectorOk;
      if !(c in s.chunks && Unlinked(s.links, c)) {
        PassOver(g, c);
        return InUse;
      }
      match trouble
      case NoTrouble =>
        CollectWhole(g, c);
        return Gone;
      case BeforeErase =>
        FailEarly(g, c);
        return Kept;
      case AfterErase =>
        FailLate(g, c);
        return Kept;
    }

    /** ErrChunkInUse: correct to leave it. */
    method PassOver(g: CollectorId, c: ChunkId)
      requires Valid() && Quiet(s) && g in s.collectors && c in s.collectors[g].candidates
      requires !(c in s.chunks && Unlinked(s.links, c))
      modifies this
      ensures Valid() && Quiet(s) && s == Dismiss(old(s), g, c)
    {
      hide Inv, IsRun, After;
      Take(Skip(g, c));
    }

    method CollectWhole(g: CollectorId, c: ChunkId)
      requires Valid() && Quiet(s) && g in s.collectors && c in s.collectors[g].candidates
      requires c in s.chunks && Unlinked(s.links, c) && s.collectors[g].candidates[c] == s.chunks[c].hash
      modifies this
      ensures Valid() && Quiet(s) && s == AfterTrouble(old(s), g, c, NoTrouble)
    {
      hide Inv, IsRun, After, Quiet;
      ghost var before := s;
      LockOrphanedChunk(g, c);
      DeleteObjectAndRow(g, c);
      ghost var removed := s;
      CollectSteps(before, removed, g, c);
      Take(GcCommit(g));
    }

    /** The transaction, the lock or the delete of the object fails, and nothing has happened yet. */
    method FailEarly(g: CollectorId, c: ChunkId)
      requires Valid() && Quiet(s) && g in s.collectors && c in s.collectors[g].candidates
      requires c in s.chunks && Unlinked(s.links, c)
      modifies this
      ensures Valid() && Quiet(s) && s == AfterTrouble(old(s), g, c, BeforeErase)
    {
      hide Inv, IsRun, After;
      ghost var before := s;
      LockOrphanedChunk(g, c);
      Take(GcFail(g));
      assert s.collectors == Dismiss(before, g, c).collectors;
    }

    /** The object is gone when deleting the row, or the commit, fails: the row stays. */
    method FailLate(g: CollectorId, c: ChunkId)
      requires Valid() && Quiet(s) && g in s.collectors && c in s.collectors[g].candidates
      requires c in s.chunks && Unlinked(s.links, c) && s.collectors[g].candidates[c] == s.chunks[c].hash
      modifies this
      ensures Valid() && Quiet(s) && s == AfterTrouble(old(s), g, c, AfterErase)
    {
      hide Inv, IsRun, After;
      ghost var before := s;
      LockOrphanedChunk(g, c);
      DeleteObjectAndRow(g, c);
      Take(GcFail(g));
      assert s.collectors == Dismiss(before, g, c).collectors;
    }

    /** DeleteStaleUploads, when it works. */
    method DeleteStaleUploads() returns (swept: set<FileId>)
      requires Valid() && Quiet(s)
      modifies this
      ensures Valid() && Quiet(s) && swept == Stale(cfg, old(s)) && s == DropFiles(old(s), swept)
      ensures SweptExactly(cfg, old(s), s, true, swept)
    {
      hide Inv, IsRun, After, SweptExactly;
      swept := Stale(cfg, s);
      SweptRows(cfg, s, true, swept);
      Take(RemoveFiles(swept));
    }

    /** GetOrphanedChunks: the unlinked rows that are older than minAge. */
    method GetOrphanedChunks(g: CollectorId)
      requires Valid() && Quiet(s)
      modifies this
      ensures Valid() && Quiet(s)
      ensures s == old(s).(collectors := old(s).collectors[g := Collector(Orphans(cfg, old(s)), Scanned)])
      ensures forall c :: c in s.collectors[g].candidates <==>
        c in s.chunks && c !in s.links.Values && s.chunks[c].createdAt + cfg.minAge < s.now
    {
      hide Inv, IsRun, After, Orphans;
      OrphanRows(cfg, s);
      Take(Scan(g));
    }

    /** DeleteStaleUploads and then GetOrphanedChunks. */
    method SweepAndScan(g: CollectorId, sweeps: bool, scans: bool) returns (swept: set<FileId>)
      requires Valid() && Quiet(s)
      modifies this
      ensures Valid() && Quiet(s) && swept == (if sweeps then Stale(cfg, old(s)) else {})
      ensures SweptExactly(cfg, old(s), s, sweeps, swept)
      ensures scans ==> g in s.collectors && forall c :: c in s.collectors[g].candidates <==>
        c in s.chunks && c !in s.links.Values && s.chunks[c].createdAt + cfg.minAge < s.now
      ensures var t := DropFiles(old(s), swept);
        s == if scans then t.(collectors := t.collectors[g := Collector(Orphans(cfg, t), Scanned)]) else t
    {
      hide Inv, IsRun, After, Quiet, SweptExactly, Orphans, Stale, Valid;
      ghost var before := s;
      DropNothing(s);
      swept := {};
      if sweeps {
        swept := DeleteStaleUploads();
      } else {
        SweptRows(cfg, s, false, {});
      }
      if scans {
        ghost var r := s;
        GetOrphanedChunks(g);
        SweptSame(cfg, before, r, s, sweeps, swept);
      }
    }

    /** One turn of the loop below. */
    method CollectNext(g: CollectorId, c: ChunkId, trouble: Trouble) returns (result: Collection)
      requires Valid() && Quiet(s) && g in s.collectors && c in s.collectors[g].candidates && c in Orphans(cfg, s)
      modifies this
      ensures Valid() && Quiet(s) && LinkedUnchanged(old(s), s)
      ensures result == if trouble.NoTrouble? then Gone else Kept
      ensures Orphans(cfg, s) == if trouble.NoTrouble? then Orphans(cfg, old(s)) - {c} else Orphans(cfg, old(s))
      ensures s.files == old(s).files && s.links == old(s).links && s.uploads == old(s).uploads && s.now == old(s).now
      ensures g in s.collectors && s.collectors[g].candidates == old(s).collectors[g].candidates - {c}
      ensures Reclaims(old(s), s, {c}, if trouble.NoTrouble? then {c} else {})
    {
      hide Inv, IsRun, After, Quiet, Orphans, LinkedUnchanged, AfterTrouble, Reclaims;
      ghost var r := s;
      OrphanFacts(cfg, r, c);
      result := CollectChunk(g, c, trouble);
      ReclaimsOne(cfg, r, g, c, trouble);
      if trouble.NoTrouble? {
        OneLess(cfg, r, g, c);
      } else {
        NoneLess(cfg, r, g, c, trouble);
      }
    }

    /** The loop over the candidates, until the context ends. */
    method CollectAll(g: CollectorId, endsAfter: nat, trouble: ChunkId -> Trouble)
      returns (collected: nat, skipped: nat, cancelled: bool)
      requires Valid() && Quiet(s) && g in s.collectors && s.collectors[g].candidates == Orphans(cfg, s)
      modifies this
      ensures Valid() && Quiet(s) && skipped == 0 && (cancelled <==> endsAfter < |Orphans(cfg, old(s))|)
      ensures collected + |Orphans(cfg, s)| == |Orphans(cfg, old(s))|
      ensures Troubled(Orphans(cfg, old(s)).Keys, trouble) <= Orphans(cfg, s).Keys <= Orphans(cfg, old(s)).Keys
      ensures !cancelled ==> Orphans(cfg, s).Keys == Troubled(Orphans(cfg, old(s)).Keys, trouble)
      ensures s.files == old(s).files && s.links == old(s).links && s.uploads == old(s).uploads && s.now == old(s).now
      ensures LinkedUnchanged(old(s), s)
      ensures Reclaims(old(s), s, Orphans(cfg, old(s)).Keys, Orphans(cfg, old(s)).Keys - Orphans(cfg, s).Keys)
    {
      hide Inv, IsRun, After, Quiet, Orphans, LinkedUnchanged, Troubled, Valid, Reclaims;
      ghost var before := s;
      ghost var all := Orphans(cfg, s).Keys;
      var todo := s.collectors[g].candidates;
      var turns := 0;
      collected, skipped := 0, 0;
      LinkedReflexive(s);
      TroubledNone(trouble);
      assert all - todo.Keys == {};
      ReclaimsNothing(s, all);
      while todo != map[]
        invariant Valid() && Quiet(s) && skipped == 0 && LinkedUnchanged(before, s)
        invariant turns + |todo| == |all| && turns <= endsAfter && collected + |Orphans(cfg, s)| == |all|
        invariant g in s.collectors && s.collectors[g].candidates == todo && todo.Keys <= all
        invariant Orphans(cfg, s).Keys == todo.Keys + Troubled(all - todo.Keys, trouble)
        invariant s.files == before.files && s.links == before.links && s.uploads == before.uploads
        invariant s.now == before.now && Reclaims(before, s, all, all - Orphans(cfg, s).Keys)
        decreases |todo|
      {
        TroubledWithin(all, todo.Keys, trouble);
        if turns == endsAfter {
          return collected, skipped, true;
        }
        var c :| c in todo;
        ghost var r := s;
        var result := CollectNext(g, c, trouble(c));
        OneTurn(all, todo, c, trouble, Orphans(cfg, r), Orphans(cfg, s));
        collected := collected + if result.Gone? then 1 else 0;
        skipped := skipped + if result.InUse? then 1 else 0;
        LinkedTransitive(before, r, s);
        ReclaimsMore(before, r, s, all, Orphans(cfg, r), Orphans(cfg, s), c, trouble(c));
        todo := todo - {c};
        turns := turns + 1;
      }
      TroubledWithin(all, {}, trouble);
      assert all - todo.Keys == all;
      return collected, skipped, false;
    }

    /**
     * RunGarbageCollection with nobody else active, whatever fails. It leaves no abandoned upload,
     * and of the unreferenced rows past the cutoff those whose collection failed; if the context
     * ends, also those it did not come to. No row or object that a link uses is touched.
     *
     * Row by row: a file row goes, with its links, exactly when the sweep works and it is an upload
     * that nothing touched for minAge; a chunk row goes only if nothing links it, it is older than
     * minAge and its collection works, and then its object is gone too; every other chunk keeps
     * its row and its object. A run that finishes takes all rows that may go.
     */
    method RunGarbageCollection(g: CollectorId, luck: GcLuck) returns (swept: set<FileId>, collected: nat, exit: GcExit)
      requires Valid() && Quiet(s)
      modifies this
      ensures Valid() && Quiet(s)
      ensures swept == (if luck.sweeps then Stale(cfg, old(s)) else {}) && (luck.sweeps ==> Stale(cfg, s) == {})
      ensures Visible(s) == Visible(old(s)) && s.files == old(s).files - swept
      ensures s.links == DropFiles(old(s), swept).links && LinkedUnchanged(old(s), s)
      ensures exit.ScanFailed? <==> !luck.scans
      ensures exit.Cancelled? <==> luck.scans && luck.endsAfter < |Orphans(cfg, DropFiles(old(s), swept))|
      ensures collected + |Orphans(cfg, s)| == |Orphans(cfg, DropFiles(old(s), swept))|
      ensures exit.Finished? ==>
        Orphans(cfg, s).Keys == Troubled(Orphans(cfg, DropFiles(old(s), swept)).Keys, luck.trouble)
      ensures SweptExactly(cfg, old(s), s, luck.sweeps, swept)
      ensures CollectedOnly(cfg, old(s), s, luck.trouble)
      ensures collected + |s.chunks| == |old(s).chunks|
      ensures exit.ScanFailed? ==> s.chunks == old(s).chunks && s.objects == old(s).objects
      ensures exit.Finished? ==> CollectedAll(cfg, old(s), s, luck.trouble)
    {
      hide Inv, IsRun, After, Quiet, SweptExactly, CollectedOnly, CollectedAll, Reclaims, Troubled, LinkedUnchanged;
      hide Orphans, Visible, Stale;
      SweepHidesNothing(cfg, s);
      DropNothing(s);
      ghost var before := s;
      swept := SweepAndScan(g, luck.sweeps, luck.scans);
      ghost var scanned := s;
      SameOrphans(cfg, DropFiles(before, swept), scanned);
      LinkedAfterSweep(before, scanned);
      SameView(cfg, DropFiles(before, swept), scanned);
      if !luck.scans {
        UntouchedRows(cfg, before, s, luck.trouble);
        return swept, 0, ScanFailed;
      }
      var skipped, cancelled;
      collected, skipped, cancelled := CollectAll(g, luck.endsAfter, luck.trouble);
      CollectedRows(cfg, before, scanned, s, luck.trouble);
      SweptSame(cfg, before, scanned, s, luck.sweeps, swept);
      LinkedTransitive(before, scanned, s);
      SameView(cfg, scanned, s);
      exit := if cancelled then Cancelled else Finished;
    }

    /** GetOrCreateChunk when the row exists: its lock is granted and nothing is uploaded. */
    method AdoptChunk(f: FileId, c: ChunkId)
      requires Valid() && Quiet(s) && Storing(s, f) && c in s.chunks && s.chunks[c].hash == Target(cfg, s.uploads[f])
      modifies this
      ensures Valid() && s == WithUpload(old(s), f, Held(c, false))
    {
      hide Inv, IsRun, After;
      ghost var before := s;
      NobodyElse(cfg, s, f);
      SeeRow(f, c);
      Take(LockGranted(f));
      assert s.uploads == WithUpload(before, f, Held(c, false)).uploads;
    }

    method SeeRow(f: FileId, c: ChunkId)
      requires Valid() && Quiet(s) && Storing(s, f) && c in s.chunks && s.chunks[c].hash == Target(cfg, s.uploads[f])
      modifies this
      ensures Valid() && s == WithUpload(old(s), f, Waiting(0, c))
    {
      hide Inv, IsRun, After;
      ghost var before := s;
      Take(Begin(f));
      Take(InsertLoses(f));
      Take(SelectSees(f, c));
      assert s.uploads == WithUpload(before, f, Waiting(0, c)).uploads;
    }

    /** GetOrCreateChunk when there is no row: a row is inserted and its object uploaded. */
    method CreateChunk(f: FileId, c: ChunkId)
      requires Valid() && Quiet(s) && Storing(s, f) && !HasRow(s.chunks, Target(cfg, s.uploads[f])) && c !in s.used
      modifies this
      ensures Valid() && s == WithUpload(old(s), f, Held(c, true)).(
        used := old(s).used + {c},
          objects := old(s).objects[Target(cfg, old(s).uploads[f]) := old(s).uploads[f].parts[old(s).uploads[f].next]])
    {
      hide Inv, IsRun, After;
      ghost var before := s;
      NobodyElse(cfg, s, f);
      Take(Begin(f));
      Take(InsertWins(f, c));
      Take(PutObject(f));
      assert s.uploads == WithUpload(before, f, Held(c, true)).uploads;
    }

    /** GetOrCreateChunk and, for a new row, UploadChunk. */
    method AcquireChunk(f: FileId, newId: set<ChunkId> -> ChunkId) returns (c: ChunkId)
      requires Valid() && Quiet(s) && Storing(s, f)
      requires forall taken :: newId(taken) !in taken
      modifies this
      ensures Valid() && Acquired(cfg, old(s), s, f, c)
    {
      RowsKnown(cfg, s);
      hide Inv, IsRun, After, Valid, Quiet, WithUpload;
      var h := Target(cfg, s.uploads[f]);
      if id :| id in s.chunks && s.chunks[id].hash == h {
        AdoptChunk(f, id);
        c := id;
      } else {
        c := newId(s.used);
        CreateChunk(f, c);
      }
    }

    /** storeChunk: deduplicate, upload if new, link, commit, or fail on the way and roll back. */
    method StoreChunk(f: FileId, newId: set<ChunkId> -> ChunkId, luck: ChunkLuck) returns (ok: bool)
      requires Valid() && Quiet(s) && Storing(s, f)
      requires forall taken :: newId(taken) !in taken
      modifies this
      ensures Valid() && Quiet(s) && (ok <==> luck.Stored?)
      ensures ok ==> StoredNext(cfg, old(s), s, f)
      ensures !ok ==> RolledBack(cfg, old(s), s, f)
    {
      hide Inv, IsRun, After, Quiet, StoredNext, RolledBack, Storing;
      ok := luck.Stored?;
      match luck
      case Stored => StoreWhole(f, newId);
      case NotBegun => FailUnbegun(f);
      case NotUploaded => FailInserted(f, newId);
      case NotLinked => FailAcquired(f, newId, false);
      case NotCommitted => FailAcquired(f, newId, true);
    }

    method StoreWhole(f: FileId, newId: set<ChunkId> -> ChunkId)
      requires Valid() && Quiet(s) && Storing(s, f)
      requires forall taken :: newId(taken) !in taken
      modifies this
      ensures Valid() && Quiet(s) && StoredNext(cfg, old(s), s, f)
    {
      NextLinkFree(cfg, s, f);
      hide Inv, IsRun, After, Quiet, StoredNext, CommitChunk;
      ghost var before := s;
      var c := AcquireChunk(f, newId);
      StoredSteps(cfg, before, s, f, c);
      LinkAndCommit(f);
    }

    method FailUnbegun(f: FileId)
      requires Valid() && Quiet(s) && Storing(s, f)
      modifies this
      ensures Valid() && Quiet(s) && RolledBack(cfg, old(s), s, f)
    {
      hide Inv, IsRun, After;
      Take(Crash(f));
    }

    /** The transaction fails before or while a new row's object is uploaded. */
    method FailInserted(f: FileId, newId: set<ChunkId> -> ChunkId)
      requires Valid() && Quiet(s) && Storing(s, f)
      requires forall taken :: newId(taken) !in taken
      modifies this
      ensures Valid() && Quiet(s) && RolledBack(cfg, old(s), s, f)
    {
      hide Inv, IsRun, After;
      ghost var before := s;
      NobodyElse(cfg, s, f);
      Take(Begin(f));
      if HasRow(s.chunks, Target(cfg, s.uploads[f])) {
        Take(InsertLoses(f));
      } else {
        Take(InsertWins(f, newId(s.used)));
      }
      Take(Crash(f));
      assert s.uploads == s.uploads[f := s.uploads[f]];
    }

    /** It fails once the chunk is held, before or after the link is inserted. */
    method FailAcquired(f: FileId, newId: set<ChunkId> -> ChunkId, linked: bool)
      requires Valid() && Quiet(s) && Storing(s, f)
      requires forall taken :: newId(taken) !in taken
      modifies this
      ensures Valid() && Quiet(s) && RolledBack(cfg, old(s), s, f)
    {
      NextLinkFree(cfg, s, f);
      hide Inv, IsRun, After, Quiet, RolledBack, Acquired, WithPhase;
      ghost var before := s;
      var c := AcquireChunk(f, newId);
      AcquiredFacts(cfg, before, s, f, c);
      CrashHeld(f, linked);
    }

    method CrashHeld(f: FileId, linked: bool)
      requires Valid() && f in s.uploads && s.uploads[f].phase.Held? && f in s.files
      requires (f, s.uploads[f].next) !in s.links
      modifies this
      ensures Valid() && s == WithPhase(old(s), f, Dead)
    {
      hide Inv, IsRun, After;
      ghost var held := s;
      if linked {
        Take(Link(f));
      }
      Take(Crash(f));
      assert s.uploads == WithPhase(held, f, Dead).uploads;
    }

    method LinkAndCommit(f: FileId)
      requires Valid() && f in s.uploads && s.uploads[f].phase.Held? && f in s.files
      requires (f, s.uploads[f].next) !in s.links
      modifies this
      ensures Valid()
      ensures s == CommitChunk(cfg,
        WithPhase(old(s), f, Linked(old(s).uploads[f].phase.chunk, old(s).uploads[f].phase.isNew)), f)
    {
      hide Inv, IsRun, After;
      Take(Link(f));
      Take(Commit(f));
    }

    /**
     * UploadFile, whatever fails on the way. It succeeds when every step but the event does, and
     * then one file more is visible, with the bytes given. Otherwise users see what they saw, and
     * if the clean-up works, the file row and its links are gone; only chunk rows and objects may
     * stay, for the collector.
     */
    method UploadFile(f: FileId, owner: UserId, data: Bytes, newId: set<ChunkId> -> ChunkId, luck: UploadLuck)
      returns (ok: bool)
      requires Valid() && Quiet(s) && f !in s.uploads
      requires forall taken :: newId(taken) !in taken
      modifies this
      ensures Valid() && Quiet(s)
      ensures ok <==>
        luck.Starts() && luck.Streams(Split(data)) && luck.updated
      ensures ok ==> Visible(s) == Visible(old(s))[f := data]
      ensures ok ==> s.files == old(s).files[f := FileRow(owner, |data|, Ready, old(s).now)]
      ensures ok ==> s.events == old(s).events + if luck.published then {f} else {}
      ensures !ok ==> Visible(s) == Visible(old(s)) && s.events == old(s).events
      ensures !ok && luck.cleaned ==> s.files == old(s).files && s.links == old(s).links
      ensures !ok && !luck.cleaned ==> s.files - {f} == old(s).files && LeftOver(old(s), s, f)
      ensures !ok && !luck.cleaned ==>
        s.files == if luck.Starts() then old(s).files[f := FileRow(owner, 0, Uploading, old(s).now)] else old(s).files
    {
      ghost var before := s;
      NoLinkYet(cfg, s, f);
      hide Inv, IsRun, After, Split, Quiet, UploadingTo, Visible, Apply, Enabled, FinishUpload;
      if !luck.Starts() {
        NothingLeft(s, f);
        return false;
      }
      var n := OpenUpload(f, owner, data);
      ok := StoreAll(f, n, newId, luck, before, owner, data);
      if ok && !luck.updated {
        StopUpload(before, f, owner, data);
        ok := false;
      }
      if ok {
        ghost var stored := s;
        UploadShows(before, stored, f, owner, data);
        Publishes(f, luck.published);
        Shown(before, stored, s, f, data);
      } else {
        Abandon(before, f, owner, data, luck.cleaned);
      }
    }

    /** A read, or the final status update, fails. */
    method StopUpload(ghost before: State, f: FileId, ghost owner: UserId, ghost data: Bytes)
      requires Valid() && Quiet(s) && UploadingTo(before, s, f, owner, data)
      modifies this
      ensures Valid() && Quiet(s) && UploadingTo(before, s, f, owner, data)
      ensures f in s.uploads && s.uploads[f].phase.Dead?
      ensures f in old(s).uploads && s.uploads[f].parts == old(s).uploads[f].parts
    {
      hide Inv, IsRun, After;
      Take(Crash(f));
    }

    /** The storeChunks loop, up to the first chunk that cannot be stored. */
    method StoreAll(f: FileId, n: nat, newId: set<ChunkId> -> ChunkId, luck: UploadLuck,
                    ghost before: State, ghost owner: UserId, ghost data: Bytes)
      returns (ok: bool)
      requires Valid() && Quiet(s) && UploadingTo(before, s, f, owner, data)
      requires f in s.uploads && s.uploads[f].phase.Idle? && s.uploads[f].next == 0 && |s.uploads[f].parts| == n
      requires forall taken :: newId(taken) !in taken
      modifies this
      ensures Valid() && Quiet(s) && UploadingTo(before, s, f, owner, data)
      ensures ok <==> luck.Streams(old(s).uploads[f].parts)
      ensures f in s.uploads && |s.uploads[f].parts| == n
      ensures if ok then s.uploads[f].phase.Idle? && s.uploads[f].next == n else s.uploads[f].phase.Dead?
    {
      hide Inv, IsRun, After, StoredNext, RolledBack, Quiet, UploadingTo, Valid;
      ghost var parts := s.uploads[f].parts;
      var i := 0;
      while i < n
        invariant Valid() && Quiet(s) && 0 <= i <= n && AllStored(luck.chunk, i) && AllRead(luck.more, parts, i)
        invariant UploadingTo(before, s, f, owner, data)
        invariant f in s.uploads && s.uploads[f].parts == parts && |parts| == n
        invariant s.uploads[f].phase.Idle? && s.uploads[f].next == i
      {
        ghost var r := s;
        BetweenChunks(before, s, f, owner, data);
        ok := StoreChunk(f, newId, luck.chunk(i));
        if !ok {
          RolledBackKeeps(cfg, before, r, s, f, owner, data);
          return;
        }
        StoredKeeps(cfg, before, r, s, f, owner, data);
        if |s.uploads[f].parts[i]| == CHUNK_SIZE && !luck.more(i + 1) {
          StopUpload(before, f, owner, data);
          return false;
        }
        i := i + 1;
      }
      return true;
    }

    /** CreateFile: the row is committed as uploading before any byte is stored. */
    method OpenUpload(f: FileId, owner: UserId, data: Bytes) returns (n: nat)
      requires Valid() && Quiet(s) && f !in s.uploads
      modifies this
      ensures Valid() && Quiet(s) && UploadingTo(old(s), s, f, owner, data)
      ensures f in s.uploads && s.uploads[f].phase.Idle? && s.uploads[f].next == 0
      ensures s.uploads[f].parts == Split(data) && |s.uploads[f].parts| == n
    {
      hide Inv, IsRun, After, Quiet, UploadingTo, Split;
      CreatedFacts(cfg, s, f, owner, data);
      Take(CreateFile(f, owner, data));
      n := |s.uploads[f].parts|;
    }

    /** The last status update and, if Redis takes it, the event. */
    method Publishes(f: FileId, published: bool)
      requires Valid() && Quiet(s) && f in s.uploads && s.uploads[f].phase.Idle?
      requires s.uploads[f].next == |s.uploads[f].parts|
      modifies this
      ensures Valid() && Quiet(s)
      ensures s == FinishUpload(old(s), f).(events := old(s).events + if published then {f} else {})
    {
      hide Inv, IsRun, After;
      Take(Finish(f));
      if published {
        Take(Publish(f));
      }
    }

    /** The failure path: abandonUpload deletes the file row, if it can. */
    method Abandon(ghost before: State, f: FileId, ghost owner: UserId, ghost data: Bytes, cleaned: bool)
      requires Valid() && Quiet(s) && UploadingTo(before, s, f, owner, data)
      requires f !in before.files && f !in before.uploads
      requires f in s.uploads && s.uploads[f].phase.Dead? && forall k :: k in before.links ==> k.0 != f
      modifies this
      ensures Valid() && Quiet(s) && s.events == before.events && Visible(s) == Visible(before)
      ensures cleaned ==> s.files == before.files && s.links == before.links
      ensures !cleaned ==> s.files - {f} == before.files && LeftOver(before, s, f)
      ensures !cleaned ==> s.files == before.files[f := FileRow(owner, 0, Uploading, before.now)]
    {
      AbandonRestores(before, s, f, owner, data);
      hide Inv, IsRun, After, Quiet, UploadingTo, Visible;
      if cleaned {
        Take(RemoveFiles({f}));
      }
    }
  }

  /** At most an unfinished row of f, with links of its own, is left over. */
  predicate LeftOver(before: State, s: State, f: FileId)
  {
    && (f in s.files ==> s.files[f].status.Uploading?)
    && (forall k :: k in s.links && k.0 != f ==> k in before.links && s.links[k] == before.links[k])
    && (forall k :: k in before.links ==> k in s.links && s.links[k] == before.links[k])
  }

  lemma NothingLeft(s: State, f: FileId)
    requires f !in s.files
    ensures s.files - {f} == s.files && LeftOver(s, s, f)
  {
  }

  /** A chunk transaction failed: the tables are as before, and at most the object of a new chunk was stored. */
  ghost predicate RolledBack(cfg: Config, s: State, t: State, f: FileId)
    requires Storing(s, f)
  {
    var u := s.uploads[f];
    var h := Target(cfg, u);
    && t.files == s.files && t.links == s.links && t.chunks == s.chunks && t.events == s.events
    && t.now == s.now && t.uploads.Keys == s.uploads.Keys
    && (forall g :: g in s.uploads && g != f ==> t.uploads[g] == s.uploads[g])
    && t.uploads[f].phase.Dead? && t.uploads[f].data == u.data
    && t.uploads[f].parts == u.parts && t.uploads[f].next == u.next
    && (t.objects == s.objects || (!HasRow(s.chunks, h) && t.objects == s.objects[h := u.parts[u.next]]))
  }

  lemma AcquiredFacts(cfg: Config, s: State, held: State, f: FileId, c: ChunkId)
    requires Quiet(s) && Storing(s, f) && Acquired(cfg, s, held, f, c)
    ensures f in held.uploads && held.uploads[f].phase.Held?
    ensures held.files == s.files && held.links == s.links && held.uploads[f].next == s.uploads[f].next
    ensures var t := WithPhase(held, f, Dead); Quiet(t) && RolledBack(cfg, s, t, f)
  {
    hide HasRow, Quiet, RolledBack;
    if HasRow(s.chunks, Target(cfg, s.uploads[f])) {
      DroppedChunk(cfg, s, f, Held(c, false));
    } else {
      DroppedChunk(cfg, s, f, Held(c, true));
      DroppedObject(cfg, s, f, held, c);
    }
  }

  lemma DroppedChunk(cfg: Config, s: State, f: FileId, p: Phase)
    requires Quiet(s) && Storing(s, f)
    ensures var t := WithPhase(WithUpload(s, f, p), f, Dead); Quiet(t) && RolledBack(cfg, s, t, f)
  {
    hide HasRow;
  }

  lemma DroppedObject(cfg: Config, s: State, f: FileId, held: State, c: ChunkId)
    requires Storing(s, f) && !HasRow(s.chunks, Target(cfg, s.uploads[f])) && f in held.uploads
    requires held == WithUpload(s, f, Held(c, true)).(
        used := s.used + {c}, objects := s.objects[Target(cfg, s.uploads[f]) := s.uploads[f].parts[s.uploads[f].next]])
    requires Quiet(WithPhase(WithUpload(s, f, Held(c, true)), f, Dead))
    requires RolledBack(cfg, s, WithPhase(WithUpload(s, f, Held(c, true)), f, Dead), f)
    ensures Quiet(WithPhase(held, f, Dead)) && RolledBack(cfg, s, WithPhase(held, f, Dead), f)
  {
    hide HasRow;
  }

  /** An upload between two chunks with its file row in place. */
  predicate Storing(s: State, f: FileId)
  {
    f in s.uploads && f in s.files && s.uploads[f].phase.Idle? && s.uploads[f].next < |s.uploads[f].parts|
  }

  ghost function WithUpload(s: State, f: FileId, p: Phase): State
    requires f in s.uploads
  {
    s.(uploads := s.uploads[f := s.uploads[f].(phase := p, begun := s.now, mark := |s.log|)])
  }

  lemma NobodyElse(cfg: Config, s: State, f: FileId)
    requires Quiet(s)
    ensures forall c :: !ExclusivelyLocked(s.collectors, c)
    ensures forall h :: !PendingElsewhere(cfg, s.uploads, h)
  {
  }

  /**
   * One more chunk is linked, to a row with its digest. A digest that had a row costs no row and
   * no object; otherwise exactly one row and its object are added.
   */
  ghost predicate StoredNext(cfg: Config, s: State, t: State, f: FileId)
    requires Storing(s, f)
  {
    var u := s.uploads[f];
    var h, key := Target(cfg, u), (f, u.next);
    && t.files == s.files && t.events == s.events && t.now == s.now && t.uploads.Keys == s.uploads.Keys
    && (forall g :: g in s.uploads && g != f ==> t.uploads[g] == s.uploads[g])
    && t.uploads[f] == u.(next := u.next + 1, begun := s.now, mark := |s.log|)
    && key in t.links && t.links == s.links[key := t.links[key]]
    && t.links[key] in t.chunks && t.chunks[t.links[key]].hash == h
    && (HasRow(s.chunks, h) ==> t.chunks == s.chunks && t.objects == s.objects)
    && (!HasRow(s.chunks, h) ==>
          && t.links[key] !in s.chunks && t.chunks == s.chunks[t.links[key] := ChunkRow(h, |u.parts[u.next]|, s.now)]
          && t.objects == s.objects[h := u.parts[u.next]])
  }

  /** The chunk row is held: an old one under a shared lock, or a new one with its object uploaded. */
  ghost predicate Acquired(cfg: Config, s: State, held: State, f: FileId, c: ChunkId)
    requires Storing(s, f)
  {
    var h := Target(cfg, s.uploads[f]);
    if HasRow(s.chunks, h) then
      c in s.chunks && s.chunks[c].hash == h && held == WithUpload(s, f, Held(c, false))
    else
      c !in s.chunks && held == WithUpload(s, f, Held(c, true)).(
        used := s.used + {c}, objects := s.objects[h := s.uploads[f].parts[s.uploads[f].next]])
  }

  lemma RowsKnown(cfg: Config, s: State)
    requires Inv(cfg, s)
    ensures forall c :: c in s.chunks ==> c in s.used
  {
  }

  lemma AdoptedSteps(cfg: Config, s: State, f: FileId, c: ChunkId)
    requires Quiet(s) && Storing(s, f) && c in s.chunks && s.chunks[c].hash == Target(cfg, s.uploads[f])
    ensures var t := CommitChunk(cfg, WithPhase(WithUpload(s, f, Held(c, false)), f, Linked(c, false)), f);
      Quiet(t) && StoredNext(cfg, s, t, f)
  {
    var t := CommitChunk(cfg, WithPhase(WithUpload(s, f, Held(c, false)), f, Linked(c, false)), f);
    assert t.links == s.links[(f, s.uploads[f].next) := c];
    assert HasRow(s.chunks, Target(cfg, s.uploads[f]));
  }

  lemma CreatedSteps(cfg: Config, s: State, held: State, f: FileId, c: ChunkId)
    requires Quiet(s) && Storing(s, f) && !HasRow(s.chunks, Target(cfg, s.uploads[f])) && Acquired(cfg, s, held, f, c)
    ensures var t := CommitChunk(cfg, WithPhase(held, f, Linked(c, true)), f);
      Quiet(t) && StoredNext(cfg, s, t, f)
  {
    var t := CommitChunk(cfg, WithPhase(held, f, Linked(c, true)), f);
    assert t.links == s.links[(f, s.uploads[f].next) := c];
  }

  lemma StoredSteps(cfg: Config, s: State, held: State, f: FileId, c: ChunkId)
    requires Quiet(s) && Storing(s, f) && Acquired(cfg, s, held, f, c)
    ensures f in held.uploads && held.uploads[f].phase == Held(c, !HasRow(s.chunks, Target(cfg, s.uploads[f])))
    ensures held.files == s.files && held.links == s.links && held.uploads[f].next == s.uploads[f].next
    ensures var t := CommitChunk(cfg, WithPhase(held, f, Linked(c, held.uploads[f].phase.isNew)), f);
      Quiet(t) && StoredNext(cfg, s, t, f)
  {
    hide Quiet, StoredNext, CommitChunk, HasRow;
    if HasRow(s.chunks, Target(cfg, s.uploads[f])) {
      AdoptedSteps(cfg, s, f, c);
    } else {
      CreatedSteps(cfg, s, held, f, c);
    }
  }

  lemma NoLinkYet(cfg: Config, s: State, f: FileId)
    requires Inv(cfg, s) && f !in s.uploads
    ensures f !in s.files && forall k :: k in s.links ==> k.0 != f
  {
    NoRowYet(cfg, s, f);
  }

  /** Between two chunks of a new upload: beside its own row and links, the tables are as before it. */
  ghost predicate UploadingTo(before: State, s: State, f: FileId, owner: UserId, data: Bytes)
  {
    && f in s.uploads && (s.uploads[f].phase.Idle? || s.uploads[f].phase.Dead?) && s.uploads[f].data == data
    && f in s.files && s.files == before.files[f := FileRow(owner, 0, Uploading, before.now)] && s.now == before.now
    && s.events == before.events && s.uploads.Keys == before.uploads.Keys + {f}
    && (forall g :: g in before.uploads && g != f ==> s.uploads[g] == before.uploads[g])
    && (forall k: (FileId, nat) :: k.0 != f ==> (k in s.links <==> k in before.links))
    && (forall k: (FileId, nat) :: k.0 != f && k in s.links ==> s.links[k] == before.links[k])
  }

  lemma CreatedFacts(cfg: Config, s: State, f: FileId, owner: UserId, data: Bytes)
    requires Quiet(s) && f !in s.uploads
    ensures var t := Apply(cfg, s, CreateFile(f, owner, data));
      Quiet(t) && UploadingTo(s, t, f, owner, data) && t.uploads[f].parts == Split(data) && t.uploads[f].next == 0
  {
  }

  lemma StoredKeeps(cfg: Config, before: State, s: State, t: State, f: FileId, owner: UserId, data: Bytes)
    requires UploadingTo(before, s, f, owner, data) && Storing(s, f) && StoredNext(cfg, s, t, f)
    ensures f in t.uploads && UploadingTo(before, t, f, owner, data) && t.uploads[f].phase.Idle?
    ensures t.uploads[f].next == s.uploads[f].next + 1 && t.uploads[f].parts == s.uploads[f].parts
  {
  }

  lemma RolledBackKeeps(cfg: Config, before: State, s: State, t: State, f: FileId, owner: UserId, data: Bytes)
    requires UploadingTo(before, s, f, owner, data) && Storing(s, f) && RolledBack(cfg, s, t, f)
    ensures f in t.uploads && UploadingTo(before, t, f, owner, data) && t.uploads[f].phase.Dead?
    ensures t.uploads[f].parts == s.uploads[f].parts
  {
  }

  lemma BetweenChunks(before: State, s: State, f: FileId, owner: UserId, data: Bytes)
    requires UploadingTo(before, s, f, owner, data)
    ensures f in s.uploads && (s.uploads[f].phase.Idle? && s.uploads[f].next < |s.uploads[f].parts| ==> Storing(s, f))
  {
  }

  lemma AbandonRestores(before: State, s: State, f: FileId, owner: UserId, data: Bytes)
    requires UploadingTo(before, s, f, owner, data) && Quiet(s) && f !in before.files && f !in before.uploads
    requires forall k :: k in before.links ==> k.0 != f
    ensures f in s.uploads
    ensures s.events == before.events && s.files - {f} == before.files && LeftOver(before, s, f)
    ensures s.files == before.files[f := FileRow(owner, 0, Uploading, before.now)]
    ensures Visible(s) == Visible(before)
    ensures var t := DropFiles(s, {f});
      && t.files == before.files && t.links == before.links && t.events == before.events && Quiet(t)
      && (forall g :: g in before.files && g in before.uploads ==> g in t.uploads && t.uploads[g] == before.uploads[g])
      && t.uploads.Keys == before.uploads.Keys + {f} && Visible(t) == Visible(before)
  {
    var t := DropFiles(s, {f});
    assert t.files == before.files;
    assert forall g :: g in s.files && g != f ==> g in before.files;
    HiddenRow(before, s, f);
    assert t.links == before.links;
    SameVisible(before, t);
    hide Visible;
  }

  /** A file row that is still uploading hides nothing and shows nothing. */
  lemma HiddenRow(before: State, s: State, f: FileId)
    requires f in s.files && s.files[f].status.Uploading? && s.files == before.files[f := s.files[f]]
    requires f !in before.files
    requires s.uploads.Keys == before.uploads.Keys + {f}
    requires forall g :: g in before.uploads && g != f ==> s.uploads[g] == before.uploads[g]
    ensures Visible(s) == Visible(before)
  {
  }

  lemma SameVisible(s: State, t: State)
    requires t.files == s.files
    requires forall g :: g in s.files && g in s.uploads ==> g in t.uploads && t.uploads[g] == s.uploads[g]
    requires forall g :: g in s.files && g in t.uploads ==> g in s.uploads
    ensures Visible(t) == Visible(s)
  {
  }

  lemma FinishedRow(before: State, s: State, f: FileId, owner: UserId, data: Bytes)
    requires UploadingTo(before, s, f, owner, data)
    ensures FinishUpload(s, f).files == before.files[f := FileRow(owner, |data|, Ready, before.now)]
  {
  }

  lemma UploadShows(before: State, s: State, f: FileId, owner: UserId, data: Bytes)
    requires UploadingTo(before, s, f, owner, data) && f !in before.uploads && f !in before.files
    ensures Visible(FinishUpload(s, f)) == Visible(before)[f := data]
    ensures FinishUpload(s, f).files == before.files[f := FileRow(owner, |data|, Ready, before.now)]
    ensures s.events == before.events
  {
    FinishedRow(before, s, f, owner, data);
    FinishRefines(s, f);
    HiddenRow(before, s, f);
    hide Visible, FinishUpload;
  }

  lemma Shown(before: State, stored: State, s: State, f: FileId, data: Bytes)
    requires f in stored.uploads && s.files == FinishUpload(stored, f).files
    requires s.uploads == FinishUpload(stored, f).uploads
    requires Visible(FinishUpload(stored, f)) == Visible(before)[f := data]
    ensures Visible(s) == Visible(before)[f := data]
  {
    hide FinishUpload;
  }

  /** The row and the object of a chunk are as they were. */
  ghost predicate SameChunk(s: State, t: State, c: ChunkId)
  {
    && (c in t.chunks <==> c in s.chunks)
    && (c in s.chunks && c in t.chunks ==>
          && t.chunks[c] == s.chunks[c]
          && (s.chunks[c].hash in t.objects <==> s.chunks[c].hash in s.objects)
          && (s.chunks[c].hash in s.objects && s.chunks[c].hash in t.objects ==>
                t.objects[s.chunks[c].hash] == s.objects[s.chunks[c].hash]))
  }

  /** Every chunk a link of t points to is in t as it was in s. */
  ghost predicate LinkedUnchanged(s: State, t: State)
  {
    forall k :: k in t.links ==> SameChunk(s, t, t.links[k])
  }

  /** The rows in gone are removed with their objects, and no row or object beside those of cs is touched. */
  ghost predicate Reclaims(s: State, t: State, cs: set<ChunkId>, gone: set<ChunkId>)
  {
    && t.chunks == s.chunks - gone && t.objects.Keys <= s.objects.Keys
    && (forall c :: c in gone && c in s.chunks ==> s.chunks[c].hash !in t.objects)
    && (forall c :: c in s.chunks && c !in cs ==> SameChunk(s, t, c))
  }

  lemma ReclaimsNothing(s: State, cs: set<ChunkId>)
    ensures Reclaims(s, s, cs, cs - cs)
  {
    assert s.chunks - (cs - cs) == s.chunks;
  }

  lemma ReclaimsOne(cfg: Config, s: State, g: CollectorId, c: ChunkId, trouble: Trouble)
    requires Inv(cfg, s) && g in s.collectors && c in s.chunks
    ensures Reclaims(s, AfterTrouble(s, g, c, trouble), {c}, if trouble.NoTrouble? then {c} else {})
  {
    hide ShapesOk, TxsOk, PendingApart, CollectorsOk, LocksApart, LocksExclude, ObjectsOk, PresenceOk, SpoiledOk,
      FilesOk, PhasesOk, EventsOk;
    assert s.chunks - {} == s.chunks;
  }

  lemma ReclaimsMore(before: State, s: State, t: State, all: set<ChunkId>, was: map<ChunkId, Digest>,
                     now: map<ChunkId, Digest>, c: ChunkId, trouble: Trouble)
    requires Reclaims(before, s, all, all - was.Keys) && c in all && c in was && was.Keys <= all
    requires Reclaims(s, t, {c}, if trouble.NoTrouble? then {c} else {})
    requires now == if trouble.NoTrouble? then was - {c} else was
    ensures Reclaims(before, t, all, all - now.Keys)
  {
    var left, rest := was.Keys, now.Keys;
    assert left - rest == if trouble.NoTrouble? then {c} else {};
    assert before.chunks - (all - left) - (left - rest) == before.chunks - (all - rest);
    forall d | d in before.chunks && d !in all ensures SameChunk(before, t, d) {
      assert SameChunk(before, s, d) && SameChunk(s, t, d);
    }
    forall d | d in all - rest && d in before.chunks ensures before.chunks[d].hash !in t.objects {
      if d in left {
        assert d in s.chunks && s.chunks[d] == before.chunks[d];
      }
    }
  }

  lemma SweptRows(cfg: Config, s: State, sweeps: bool, swept: set<FileId>)
    requires swept == if sweeps then Stale(cfg, s) else {}
    ensures SweptExactly(cfg, s, DropFiles(s, swept), sweeps, swept)
  {
  }

  lemma SweptSame(cfg: Config, before: State, s: State, t: State, sweeps: bool, swept: set<FileId>)
    requires SweptExactly(cfg, before, s, sweeps, swept) && t.files == s.files && t.links == s.links
    ensures SweptExactly(cfg, before, t, sweeps, swept)
  {
  }

  /** The orphans, over the rows: nothing links them and they are older than minAge. */
  lemma OrphanRows(cfg: Config, s: State)
    ensures forall c :: c in Orphans(cfg, s) <==>
      c in s.chunks && c !in s.links.Values && s.chunks[c].createdAt + cfg.minAge < s.now
  {
    forall c ensures c !in s.links.Values <==> Unlinked(s.links, c) {
      LinkValues(s.links, c);
    }
  }

  lemma UntouchedRows(cfg: Config, before: State, after: State, trouble: ChunkId -> Trouble)
    requires after.chunks == before.chunks && after.objects == before.objects
    ensures CollectedOnly(cfg, before, after, trouble)
  {
  }

  /** What the collector's loop did, over the rows. */
  lemma CollectedRows(cfg: Config, before: State, scanned: State, after: State, trouble: ChunkId -> Trouble)
    requires scanned.chunks == before.chunks && scanned.objects == before.objects && scanned.now == before.now
    requires after.links == scanned.links
    requires var all, left := Orphans(cfg, scanned).Keys, Orphans(cfg, after).Keys;
      Troubled(all, trouble) <= left <= all && Reclaims(scanned, after, all, all - left)
    ensures CollectedOnly(cfg, before, after, trouble)
    ensures Orphans(cfg, after).Keys == Troubled(Orphans(cfg, scanned).Keys, trouble) ==>
      CollectedAll(cfg, before, after, trouble)
    ensures |after.chunks| + |Orphans(cfg, scanned)| == |before.chunks| + |Orphans(cfg, after)|
  {
    RowsLess(before.chunks, after.chunks, Orphans(cfg, scanned), Orphans(cfg, after));
    var all, left := Orphans(cfg, scanned).Keys, Orphans(cfg, after).Keys;
    forall c | c in before.chunks ensures MayGo(cfg, before, after, c) <==> c in all {
      LinkValues(after.links, c);
    }
    forall c | c in before.chunks && c !in after.chunks
      ensures MayGo(cfg, before, after, c) && trouble(c) == NoTrouble && before.chunks[c].hash !in after.objects
    {
      assert c in all - left;
    }
    forall c | c in before.chunks && !MayGo(cfg, before, after, c) ensures SameChunk(before, after, c) {
      assert SameChunk(scanned, after, c);
    }
  }

  lemma RowsLess(was: map<ChunkId, ChunkRow>, rows: map<ChunkId, ChunkRow>,
                 all: map<ChunkId, Digest>, left: map<ChunkId, Digest>)
    requires left.Keys <= all.Keys <= was.Keys && rows == was - (all.Keys - left.Keys)
    ensures |rows| + |all| == |was| + |left|
  {
    assert rows.Keys == was.Keys - (all.Keys - left.Keys);
    assert |rows.Keys| == |was.Keys| - |all.Keys - left.Keys| && |all.Keys - left.Keys| == |all.Keys| - |left.Keys|;
  }

  lemma LinkValues(links: map<(FileId, nat), ChunkId>, c: ChunkId)
    ensures c !in links.Values <==> Unlinked(links, c)
  {
  }

  lemma LinkedReflexive(s: State)
    ensures LinkedUnchanged(s, s)
  {
  }

  lemma LinkedTransitive(r: State, s: State, t: State)
    requires LinkedUnchanged(r, s) && LinkedUnchanged(s, t) && t.links == s.links
    ensures LinkedUnchanged(r, t)
  {
    forall k | k in t.links ensures SameChunk(r, t, t.links[k]) {
      assert SameChunk(r, s, s.links[k]) && SameChunk(s, t, t.links[k]);
    }
  }

  lemma LinkedAfterSweep(s: State, t: State)
    requires t.chunks == s.chunks && t.objects == s.objects
    ensures LinkedUnchanged(s, t)
  {
  }

  lemma SameOrphans(cfg: Config, s: State, t: State)
    requires t.chunks == s.chunks && t.links == s.links && t.now == s.now
    ensures Orphans(cfg, t) == Orphans(cfg, s)
  {
  }

  lemma SameView(cfg: Config, s: State, t: State)
    requires t.files == s.files && t.uploads == s.uploads && t.now == s.now
    ensures Visible(t) == Visible(s) && Stale(cfg, t) == Stale(cfg, s)
  {
  }

  lemma OrphanFacts(cfg: Config, s: State, c: ChunkId)
    requires c in Orphans(cfg, s)
    ensures c in s.chunks && Unlinked(s.links, c)
  {
  }

  /** Lock, erase, delete and commit come to AfterCollect. */
  lemma CollectSteps(s: State, removed: State, g: CollectorId, c: ChunkId)
    requires Quiet(s) && g in s.collectors && c in s.chunks
    requires c in s.collectors[g].candidates && s.collectors[g].candidates[c] == s.chunks[c].hash
    requires removed == WithGc(WithGc(s, g, Locked(c)), g, Removed(c)).(
      objects := s.objects - {s.chunks[c].hash}, spoiled := s.spoiled + {c})
    ensures CommitCollection(removed, g) == AfterCollect(s, g, c)
    ensures Quiet(AfterCollect(s, g, c))
  {
    var t := CommitCollection(removed, g);
    var u := AfterCollect(s, g, c);
    assert t.spoiled == u.spoiled;
    assert t.collectors == u.collectors;
  }

  /** Sweeping abandoned uploads removes no visible file, and leaves none to sweep. */
  lemma SweepHidesNothing(cfg: Config, s: State)
    ensures Visible(DropFiles(s, Stale(cfg, s))) == Visible(s)
    ensures Stale(cfg, DropFiles(s, Stale(cfg, s))) == {}
  {
  }

  lemma DropNothing(s: State)
    ensures DropFiles(s, {}) == s
  {
    assert DropFiles(s, {}).files == s.files && DropFiles(s, {}).links == s.links;
  }

  lemma TroubledNone(trouble: ChunkId -> Trouble)
    ensures Troubled({}, trouble) == {}
  {
  }

  lemma TroubledWithin(all: set<ChunkId>, todo: set<ChunkId>, trouble: ChunkId -> Trouble)
    requires todo <= all
    ensures Troubled(all, trouble) <= todo + Troubled(all - todo, trouble) <= all
  {
  }

  /** What one turn of the collector's loop does to the candidates and the orphans. */
  lemma OneTurn(all: set<ChunkId>, todo: map<ChunkId, Digest>, c: ChunkId, trouble: ChunkId -> Trouble,
                before: map<ChunkId, Digest>, after: map<ChunkId, Digest>)
    requires c in todo && todo.Keys <= all && before.Keys == todo.Keys + Troubled(all - todo.Keys, trouble)
    requires after == if trouble(c).NoTrouble? then before - {c} else before
    ensures |todo - {c}| == |todo| - 1 && (todo - {c}).Keys <= all
    ensures |after| == if trouble(c).NoTrouble? then |before| - 1 else |before|
    ensures after.Keys == (todo - {c}).Keys + Troubled(all - (todo - {c}).Keys, trouble)
  {
    OneKeyLess(todo, c);
    OneLessTroubled(all, todo.Keys, c, trouble);
    Regroup(todo.Keys, Troubled(all - todo.Keys, trouble), c);
    hide Troubled;
    if trouble(c).NoTrouble? {
      OneKeyLess(before, c);
    }
  }

  lemma Regroup(todo: set<ChunkId>, left: set<ChunkId>, c: ChunkId)
    requires c in todo && c !in left
    ensures todo + left - {c} == todo - {c} + left && todo + left == todo - {c} + (left + {c})
  {
  }

  lemma OneKeyLess(m: map<ChunkId, Digest>, c: ChunkId)
    requires c in m
    ensures (m - {c}).Keys == m.Keys - {c} && |m - {c}| == |m| - 1
  {
    assert |m - {c}| == |(m - {c}).Keys| && |m| == |m.Keys|;
  }

  lemma OneLessTroubled(all: set<ChunkId>, todo: set<ChunkId>, c: ChunkId, trouble: ChunkId -> Trouble)
    requires c in todo && todo <= all
    ensures Troubled(all - (todo - {c}), trouble)
      == Troubled(all - todo, trouble) + if trouble(c).NoTrouble? then {} else {c}
    ensures c !in Troubled(all - todo, trouble)
  {
  }

  /** A failed collection leaves the orphans as they were and disturbs no linked chunk. */
  lemma NoneLess(cfg: Config, s: State, g: CollectorId, c: ChunkId, trouble: Trouble)
    requires Inv(cfg, s) && g in s.collectors && c in s.chunks && Unlinked(s.links, c) && !trouble.NoTrouble?
    ensures var t := AfterTrouble(s, g, c, trouble);
      && Orphans(cfg, t) == Orphans(cfg, s) && LinkedUnchanged(s, t) && t.links == s.links
      && t.files == s.files && t.uploads == s.uploads && t.now == s.now
      && g in t.collectors && t.collectors[g].candidates == s.collectors[g].candidates - {c}
  {
    hide ShapesOk, TxsOk, PendingApart, CollectorsOk, LocksApart, LocksExclude, ObjectsOk, PresenceOk, SpoiledOk,
      FilesOk, PhasesOk, EventsOk;
    var t := AfterTrouble(s, g, c, trouble);
    SameOrphans(cfg, s, t);
    forall k | k in t.links ensures SameChunk(s, t, t.links[k]) {
      assert s.links[k] in s.chunks && s.chunks[s.links[k]].hash != s.chunks[c].hash;
    }
  }

  /** Collecting c takes exactly c off the orphans and disturbs no linked chunk. */
  lemma OneLess(cfg: Config, s: State, g: CollectorId, c: ChunkId)
    requires Inv(cfg, s) && g in s.collectors && c in s.chunks && Unlinked(s.links, c)
    ensures var t := AfterTrouble(s, g, c, NoTrouble);
      && Orphans(cfg, t) == Orphans(cfg, s) - {c} && LinkedUnchanged(s, t) && t.links == s.links
      && t.files == s.files && t.uploads == s.uploads && t.now == s.now
      && g in t.collectors && t.collectors[g].candidates == s.collectors[g].candidates - {c}
  {
    hide ShapesOk, TxsOk, PendingApart, CollectorsOk, LocksApart, LocksExclude, ObjectsOk, PresenceOk, SpoiledOk,
      FilesOk, PhasesOk, EventsOk;
    var t := AfterCollect(s, g, c);
    forall k | k in t.links ensures SameChunk(s, t, t.links[k]) {
      assert s.links[k] in s.chunks && s.chunks[s.links[k]].hash != s.chunks[c].hash;
    }
  }
}
