// What every step of the store protocol keeps. Each predicate takes only the parts of the state
// it speaks about, so a step that leaves those parts alone keeps it without proof.
module StoreInvariant {
  import opened Chunking
  import opened StoreProtocol

  type Uploads = map<FileId, Upload>
  type Chunks = map<ChunkId, ChunkRow>
  type Links = map<(FileId, nat), ChunkId>
  type Collectors = map<CollectorId, Collector>

  /** What an upload knows about itself. */
  ghost predicate ShapeOk(u: Upload)
  {
    && u.parts == Split(u.data) && u.next <= |u.parts|
    && (InTx(u.phase) ==> u.next < |u.parts|)
    && (u.phase.Done? ==> u.next == |u.parts|)
  }

  ghost predicate ShapesOk(uploads: Uploads, now: Time)
  {
    forall f :: f in uploads ==> ShapeOk(uploads[f]) && uploads[f].begun <= now
  }

  /** An upload's transaction agrees with the committed chunk rows and the objects. */
  ghost predicate TxOk(cfg: Config, u: Upload, chunks: Chunks, objects: map<Digest, Bytes>, used: set<ChunkId>,
                       known: set<ChunkId>)
  {
    var h := Target(cfg, u);
    && (u.phase.Waiting? ==> u.phase.seen in known && (u.phase.seen in chunks ==> chunks[u.phase.seen].hash == h))
    && (HasPending(u.phase) ==> u.phase.chunk in used && u.phase.chunk !in known && !HasRow(chunks, h))
    && ((u.phase.Held? || u.phase.Linked?) && u.phase.isNew ==> h in objects)
    && ((u.phase.Held? || u.phase.Linked?) && !u.phase.isNew ==>
          u.phase.chunk in chunks && chunks[u.phase.chunk].hash == h)
  }

  ghost predicate TxsOk(cfg: Config, uploads: Uploads, chunks: Chunks, objects: map<Digest, Bytes>, used: set<ChunkId>,
                        known: set<ChunkId>)
  {
    forall f :: f in uploads ==> TxOk(cfg, uploads[f], chunks, objects, used, known)
  }

  /** Uncommitted rows of different uploads never collide. */
  ghost predicate PendingApart(cfg: Config, uploads: Uploads)
  {
    forall f, g ::
      (f in uploads && g in uploads && f != g && HasPending(uploads[f].phase) && HasPending(uploads[g].phase)) ==>
        Target(cfg, uploads[f]) != Target(cfg, uploads[g]) && uploads[f].phase.chunk != uploads[g].phase.chunk
  }

  ghost predicate CollectorOk(cfg: Config, k: Collector, chunks: Chunks, links: Links, known: set<ChunkId>,
                              spoiled: set<ChunkId>, now: Time)
  {
    && (forall c :: c in k.candidates ==> c in known)
    && (forall c :: c in k.candidates && c in chunks ==>
          chunks[c].hash == k.candidates[c] && chunks[c].createdAt + cfg.minAge < now)
    && (!k.phase.Scanned? ==> k.phase.id in k.candidates)
    && (!k.phase.Scanned? && !k.phase.Checked? ==> k.phase.id in chunks)
    && (k.phase.Erased? || k.phase.Removed? ==> k.phase.id in spoiled)
    && (k.phase.Removed? ==> Unlinked(links, k.phase.id))
    && (cfg.mode.AtomicCheck? && !k.phase.Scanned? && !k.phase.Checked? ==> Unlinked(links, k.phase.id))
  }

  ghost predicate CollectorsOk(cfg: Config, collectors: Collectors, chunks: Chunks, links: Links, known: set<ChunkId>,
                               spoiled: set<ChunkId>, now: Time)
  {
    forall g :: g in collectors ==> CollectorOk(cfg, collectors[g], chunks, links, known, spoiled, now)
  }

  /** A chunk row is exclusively locked by at most one collector. */
  ghost predicate LocksApart(collectors: Collectors)
  {
    forall g, k, c ::
      (&& g in collectors && k in collectors
       && HoldsExclusive(collectors[g].phase, c) && HoldsExclusive(collectors[k].phase, c)) ==>
        g == k
  }

  /** A row is never share-locked and exclusively locked at once. */
  ghost predicate LocksExclude(uploads: Uploads, collectors: Collectors)
  {
    forall f, g, c ::
      f in uploads && g in collectors && HoldsShare(uploads[f].phase, c) ==> !HoldsExclusive(collectors[g].phase, c)
  }

  /** The unique index on hash; ids are never issued twice. */
  ghost predicate RowsOk(chunks: Chunks, used: set<ChunkId>, known: set<ChunkId>)
  {
    && (forall c :: c in chunks ==> c in known)
    && known <= used
    && (forall c, d :: c in chunks && d in chunks && chunks[c].hash == chunks[d].hash ==> c == d)
  }

  /** Both foreign keys of file_chunks, and the lock an uncommitted link holds on its file. */
  ghost predicate LinksOk(links: Links, files: map<FileId, FileRow>, chunks: Chunks)
  {
    forall k :: k in links ==> k.0 in files && links[k] in chunks
  }

  ghost predicate Occurs(uploads: Uploads, body: Bytes)
  {
    exists f, i :: f in uploads && 0 <= i < |uploads[f].parts| && uploads[f].parts[i] == body
  }

  /** Every stored object hashes to its key and is a chunk somebody uploaded. */
  ghost predicate ObjectsOk(cfg: Config, objects: map<Digest, Bytes>, uploads: Uploads)
  {
    forall h :: h in objects ==> cfg.sha(objects[h]) == h && Occurs(uploads, objects[h])
  }

  /** A committed row's object is present exactly when no unfinished collection deleted it. */
  ghost predicate PresenceOk(chunks: Chunks, objects: map<Digest, Bytes>, spoiled: set<ChunkId>)
  {
    && (forall c :: c in chunks ==> (chunks[c].hash in objects <==> c !in spoiled))
    && (forall c :: c in spoiled ==> c in chunks)
  }

  ghost predicate HasErased(p: GcPhase, c: ChunkId)
  {
    p == Erased(c) || p == Removed(c)
  }

  ghost predicate Erasing(collectors: Collectors, c: ChunkId)
  {
    exists g :: g in collectors && HasErased(collectors[g].phase, c)
  }

  /** An unfinished collection is either still under way or has failed. */
  ghost predicate SpoiledOk(spoiled: set<ChunkId>, failed: set<ChunkId>, collectors: Collectors)
  {
    forall c :: c in spoiled && c !in failed ==> Erasing(collectors, c)
  }

  /** The links of a file are those of its first `next` chunks; a ready file has them all. */
  ghost predicate FileOk(cfg: Config, f: FileId, row: FileRow, parts: seq<Bytes>, next: nat, size: nat, links: Links,
                         chunks: Chunks)
  {
    && (forall i: nat :: (f, i) in links <==> i < next)
    && (forall i: nat :: i < |parts| && (f, i) in links && links[(f, i)] in chunks ==>
          chunks[links[(f, i)]].hash == cfg.sha(parts[i]))
    && (row.status.Ready? ==> next == |parts| && row.size == size)
  }

  ghost predicate FilesOk(cfg: Config, files: map<FileId, FileRow>, uploads: Uploads, links: Links, chunks: Chunks)
  {
    forall f :: f in files ==>
      f in uploads && FileOk(cfg, f, files[f], uploads[f].parts, uploads[f].next, |uploads[f].data|, links, chunks)
  }

  /** An uncommitted link locks its file row; a finished upload's row, if it is still there, is ready. */
  ghost predicate PhaseOk(f: FileId, p: Phase, files: map<FileId, FileRow>)
  {
    && (p.Linked? ==> f in files)
    && (p.Done? && f in files ==> files[f].status.Ready?)
  }

  ghost predicate PhasesOk(uploads: Uploads, files: map<FileId, FileRow>)
  {
    forall f :: f in uploads ==> PhaseOk(f, uploads[f].phase, files)
  }

  /** Events are published only for uploads that finished. */
  ghost predicate EventsOk(events: set<FileId>, uploads: Uploads, files: map<FileId, FileRow>)
  {
    forall f :: f in events ==> f in uploads && (f in files ==> files[f].status.Ready?)
  }

  ghost predicate Inv(cfg: Config, s: State)
  {
    && ShapesOk(s.uploads, s.now)
    && TxsOk(cfg, s.uploads, s.chunks, s.objects, s.used, s.known)
    && PendingApart(cfg, s.uploads)
    && CollectorsOk(cfg, s.collectors, s.chunks, s.links, s.known, s.spoiled, s.now)
    && LocksApart(s.collectors)
    && LocksExclude(s.uploads, s.collectors)
    && RowsOk(s.chunks, s.used, s.known)
    && LinksOk(s.links, s.files, s.chunks)
    && ObjectsOk(cfg, s.objects, s.uploads)
    && PresenceOk(s.chunks, s.objects, s.spoiled)
    && SpoiledOk(s.spoiled, s.failed, s.collectors)
    && FilesOk(cfg, s.files, s.uploads, s.links, s.chunks)
    && PhasesOk(s.uploads, s.files)
    && EventsOk(s.events, s.uploads, s.files)
  }

  /** Chunks that occurred keep occurring while no upload is forgotten. */
  lemma OccursStays(s: Uploads, t: Uploads, body: Bytes)
    requires forall f :: f in s ==> f in t && t[f].parts == s[f].parts
    requires Occurs(s, body)
    ensures Occurs(t, body)
  {
    var f, i :| f in s && 0 <= i < |s[f].parts| && s[f].parts[i] == body;
    assert t[f].parts[i] == body;
  }

  lemma ObjectsStay(cfg: Config, objects: map<Digest, Bytes>, s: Uploads, t: Uploads)
    requires ObjectsOk(cfg, objects, s)
    requires forall f :: f in s ==> f in t && t[f].parts == s[f].parts
    ensures ObjectsOk(cfg, objects, t)
  {
    forall h | h in objects ensures Occurs(t, objects[h]) {
      OccursStays(s, t, objects[h]);
    }
  }

  /** What the invariant says about one upload. */
  lemma UploadFacts(cfg: Config, s: State, f: FileId)
    requires Inv(cfg, s) && f in s.uploads
    ensures ShapeOk(s.uploads[f]) && s.uploads[f].begun <= s.now && PhaseOk(f, s.uploads[f].phase, s.files)
    ensures TxOk(cfg, s.uploads[f], s.chunks, s.objects, s.used, s.known)
    ensures forall c :: HoldsShare(s.uploads[f].phase, c) ==> !ExclusivelyLocked(s.collectors, c)
  {
  }

  // ---- One upload changes ----

  lemma UploadShapes(uploads: Uploads, f: FileId, u: Upload, now: Time)
    requires ShapesOk(uploads, now) && ShapeOk(u) && u.begun <= now
    ensures ShapesOk(uploads[f := u], now)
  {
  }

  lemma UploadTxs(cfg: Config, uploads: Uploads, f: FileId, u: Upload, chunks: Chunks, objects: map<Digest, Bytes>,
                  used: set<ChunkId>, known: set<ChunkId>)
    requires TxsOk(cfg, uploads, chunks, objects, used, known) && TxOk(cfg, u, chunks, objects, used, known)
    ensures TxsOk(cfg, uploads[f := u], chunks, objects, used, known)
  {
  }

  lemma UploadPending(cfg: Config, uploads: Uploads, f: FileId, u: Upload)
    requires PendingApart(cfg, uploads)
    requires HasPending(u.phase) ==>
      (f in uploads && HasPending(uploads[f].phase)
      && u.phase.chunk == uploads[f].phase.chunk && Target(cfg, u) == Target(cfg, uploads[f]))
    ensures PendingApart(cfg, uploads[f := u])
  {
  }

  lemma UploadLocks(uploads: Uploads, f: FileId, u: Upload, collectors: Collectors)
    requires LocksExclude(uploads, collectors)
    requires forall c :: HoldsShare(u.phase, c) ==> !ExclusivelyLocked(collectors, c)
    ensures LocksExclude(uploads[f := u], collectors)
  {
  }

  lemma UploadFiles(cfg: Config, files: map<FileId, FileRow>, uploads: Uploads, f: FileId, u: Upload, links: Links,
                    chunks: Chunks)
    requires FilesOk(cfg, files, uploads, links, chunks)
    requires f in uploads && u.parts == uploads[f].parts && u.next == uploads[f].next && u.data == uploads[f].data
    ensures FilesOk(cfg, files, uploads[f := u], links, chunks)
  {
  }

  lemma UploadPhases(uploads: Uploads, f: FileId, u: Upload, files: map<FileId, FileRow>)
    requires PhasesOk(uploads, files) && PhaseOk(f, u.phase, files)
    ensures PhasesOk(uploads[f := u], files)
  {
  }

  /** One upload moves to another phase; it may keep its pending row, drop it, or take a free shared lock. */
  lemma UploadMoves(cfg: Config, s: State, f: FileId, u: Upload)
    requires Inv(cfg, s) && f in s.uploads
    requires u.parts == s.uploads[f].parts && u.next == s.uploads[f].next && u.data == s.uploads[f].data
    requires ShapeOk(u) && u.begun <= s.now
    requires TxOk(cfg, u, s.chunks, s.objects, s.used, s.known)
    requires PendingApart(cfg, s.uploads[f := u])
    requires forall c :: HoldsShare(u.phase, c) ==> !ExclusivelyLocked(s.collectors, c)
    requires PhaseOk(f, u.phase, s.files)
    ensures Inv(cfg, s.(uploads := s.uploads[f := u]))
  {
    hide ShapesOk, TxsOk, PendingApart, CollectorsOk, LocksApart, LocksExclude, RowsOk, LinksOk, ObjectsOk, PresenceOk,
      SpoiledOk, FilesOk, PhasesOk;
    UploadShapes(s.uploads, f, u, s.now);
    UploadTxs(cfg, s.uploads, f, u, s.chunks, s.objects, s.used, s.known);
    UploadLocks(s.uploads, f, u, s.collectors);
    UploadFiles(cfg, s.files, s.uploads, f, u, s.links, s.chunks);
    UploadPhases(s.uploads, f, u, s.files);
    ObjectsStay(cfg, s.objects, s.uploads, s.uploads[f := u]);
  }

  /** Moves to a phase with no pending row and no lock: nothing but the phase to check. */
  lemma UploadRests(cfg: Config, s: State, f: FileId, u: Upload)
    requires Inv(cfg, s) && f in s.uploads
    requires u.parts == s.uploads[f].parts && u.next == s.uploads[f].next && u.data == s.uploads[f].data
    requires !HasPending(u.phase) && !u.phase.Held? && !u.phase.Linked? && !u.phase.Done?
    requires u.begun <= s.now && (InTx(u.phase) ==> u.next < |u.parts|)
    requires u.phase.Waiting? ==>
      u.phase.seen in s.known && (u.phase.seen in s.chunks ==> s.chunks[u.phase.seen].hash == Target(cfg, u))
    ensures Inv(cfg, s.(uploads := s.uploads[f := u]))
  {
    hide ShapesOk, TxsOk, PendingApart, CollectorsOk, LocksApart, LocksExclude, RowsOk, LinksOk, ObjectsOk, PresenceOk,
      SpoiledOk, FilesOk, PhasesOk;
    UploadFacts(cfg, s, f);
    UploadPending(cfg, s.uploads, f, u);
    UploadMoves(cfg, s, f, u);
  }

  lemma InsertKeeps(cfg: Config, s: State, f: FileId, c: ChunkId)
    requires Inv(cfg, s) && f in s.uploads && s.uploads[f].phase.Inserting? && c !in s.used
    requires !HasRow(s.chunks, Target(cfg, s.uploads[f]))
    requires !PendingElsewhere(cfg, s.uploads, Target(cfg, s.uploads[f]))
    ensures Inv(cfg, InsertRow(s, f, c))
  {
    var t := InsertRow(s, f, c);
    var r := s.(used := t.used, lag := t.lag);
    assert Inv(cfg, r);
    var u := r.uploads[f].(phase := Created(c));
    forall g | g in s.uploads && g != f && HasPending(s.uploads[g].phase)
      ensures Target(cfg, s.uploads[g]) != Target(cfg, u) && s.uploads[g].phase.chunk != c
    {
      assert TxOk(cfg, s.uploads[g], s.chunks, s.objects, s.used, s.known);
    }
    assert PendingApart(cfg, r.uploads[f := u]);
    UploadMoves(cfg, r, f, u);
    assert t == r.(uploads := r.uploads[f := u]);
  }

  /** Uploading the object of a digest no committed row has. */
  lemma ObjectArrives(cfg: Config, s: State, h: Digest, body: Bytes)
    requires Inv(cfg, s) && !HasRow(s.chunks, h) && cfg.sha(body) == h && Occurs(s.uploads, body)
    ensures Inv(cfg, s.(objects := s.objects[h := body]))
  {
  }

  lemma PutKeeps(cfg: Config, s: State, f: FileId)
    requires Inv(cfg, s) && f in s.uploads && s.uploads[f].phase.Created?
    ensures Inv(cfg, StoreObject(cfg, s, f))
  {
    hide ShapesOk, TxsOk, PendingApart, CollectorsOk, LocksApart, LocksExclude, RowsOk, LinksOk, ObjectsOk, PresenceOk,
      SpoiledOk, FilesOk, PhasesOk;
    var u := s.uploads[f];
    UploadFacts(cfg, s, f);
    var body, h := u.parts[u.next], Target(cfg, u);
    assert Occurs(s.uploads, body);
    ObjectArrives(cfg, s, h, body);
    var r := s.(objects := s.objects[h := body]);
    var v := u.(phase := Held(u.phase.chunk, true));
    assert TxOk(cfg, v, r.chunks, r.objects, r.used, r.known);
    UploadPending(cfg, r.uploads, f, v);
    UploadMoves(cfg, r, f, v);
    assert StoreObject(cfg, s, f) == r.(uploads := r.uploads[f := v]);
  }

  lemma LinkKeeps(cfg: Config, s: State, f: FileId)
    requires Inv(cfg, s) && f in s.uploads && s.uploads[f].phase.Held? && f in s.files
    ensures Inv(cfg, WithPhase(s, f, Linked(s.uploads[f].phase.chunk, s.uploads[f].phase.isNew)))
  {
    hide ShapesOk, TxsOk, PendingApart, CollectorsOk, LocksApart, LocksExclude, RowsOk, LinksOk, ObjectsOk, PresenceOk,
      SpoiledOk, FilesOk, PhasesOk;
    var u := s.uploads[f];
    var v := u.(phase := Linked(u.phase.chunk, u.phase.isNew));
    UploadFacts(cfg, s, f);
    UploadPending(cfg, s.uploads, f, v);
    assert forall c :: HoldsShare(v.phase, c) ==> HoldsShare(u.phase, c);
    UploadMoves(cfg, s, f, v);
  }

  lemma GrantKeeps(cfg: Config, s: State, f: FileId)
    requires Inv(cfg, s) && f in s.uploads && s.uploads[f].phase.Waiting?
    requires s.uploads[f].phase.seen in s.chunks && !ExclusivelyLocked(s.collectors, s.uploads[f].phase.seen)
    ensures Inv(cfg, WithPhase(s, f, Held(s.uploads[f].phase.seen, false)))
  {
    hide ShapesOk, TxsOk, PendingApart, CollectorsOk, LocksApart, LocksExclude, RowsOk, LinksOk, ObjectsOk, PresenceOk,
      SpoiledOk, FilesOk, PhasesOk;
    var u := s.uploads[f];
    var v := u.(phase := Held(u.phase.seen, false));
    UploadFacts(cfg, s, f);
    UploadPending(cfg, s.uploads, f, v);
    UploadMoves(cfg, s, f, v);
  }

  // ---- Committing a chunk: its new row appears, then its link ----

  /** Rows arriving disturb no other transaction: their digests and ids differ. */
  lemma RowTxs(cfg: Config, uploads: Uploads, f: FileId, row: ChunkRow, chunks: Chunks, objects: map<Digest, Bytes>,
               used: set<ChunkId>, known: set<ChunkId>)
    requires TxsOk(cfg, uploads, chunks, objects, used, known) && PendingApart(cfg, uploads)
    requires f in uploads && uploads[f].phase.Linked? && uploads[f].phase.isNew && row.hash == Target(cfg, uploads[f])
    requires uploads[f].phase.chunk !in chunks
    ensures var c := uploads[f].phase.chunk;
      TxsOk(cfg, uploads[f := uploads[f].(phase := Linked(c, false))], chunks[c := row], objects, used, known + {c})
  {
    var c := uploads[f].phase.chunk;
    var chunks' := chunks[c := row];
    assert TxOk(cfg, uploads[f], chunks, objects, used, known);
    forall g | g in uploads && g != f ensures TxOk(cfg, uploads[g], chunks', objects, used, known + {c}) {
      var u := uploads[g];
      assert TxOk(cfg, u, chunks, objects, used, known);
    }
  }

  lemma RowTables(cfg: Config, s: State, c: ChunkId, row: ChunkRow)
    requires RowsOk(s.chunks, s.used, s.known) && LinksOk(s.links, s.files, s.chunks)
    requires PresenceOk(s.chunks, s.objects, s.spoiled)
    requires c in s.used && c !in s.known && !HasRow(s.chunks, row.hash) && row.hash in s.objects
    ensures c !in s.chunks && RowsOk(s.chunks[c := row], s.used, s.known + {c})
    ensures LinksOk(s.links, s.files, s.chunks[c := row]) && PresenceOk(s.chunks[c := row], s.objects, s.spoiled)
  {
  }

  lemma LinkTable(links: Links, files: map<FileId, FileRow>, chunks: Chunks, key: (FileId, nat), c: ChunkId)
    requires LinksOk(links, files, chunks) && key.0 in files && c in chunks
    ensures LinksOk(links[key := c], files, chunks)
  {
  }

  lemma RowCollectors(cfg: Config, collectors: Collectors, c: ChunkId, row: ChunkRow, chunks: Chunks, links: Links,
                      known: set<ChunkId>, spoiled: set<ChunkId>, now: Time)
    requires CollectorsOk(cfg, collectors, chunks, links, known, spoiled, now) && c !in known
    ensures CollectorsOk(cfg, collectors, chunks[c := row], links, known + {c}, spoiled, now)
  {
    forall g | g in collectors
      ensures CollectorOk(cfg, collectors[g], chunks[c := row], links, known + {c}, spoiled, now)
    {
      assert CollectorOk(cfg, collectors[g], chunks, links, known, spoiled, now);
    }
  }

  lemma RowFiles(cfg: Config, files: map<FileId, FileRow>, uploads: Uploads, links: Links, chunks: Chunks, c: ChunkId,
                 row: ChunkRow)
    requires FilesOk(cfg, files, uploads, links, chunks) && LinksOk(links, files, chunks) && c !in chunks
    ensures FilesOk(cfg, files, uploads, links, chunks[c := row])
  {
    forall f | f in files
      ensures FileOk(cfg, f, files[f], uploads[f].parts, uploads[f].next, |uploads[f].data|, links, chunks[c := row])
    {
      assert FileOk(cfg, f, files[f], uploads[f].parts, uploads[f].next, |uploads[f].data|, links, chunks);
    }
  }

  /** The state once the pending row of f is committed, before its link is. */
  ghost function RowCommitted(cfg: Config, s: State, f: FileId): State
    requires f in s.uploads && s.uploads[f].phase.Linked?
  {
    var u := s.uploads[f];
    var c := u.phase.chunk;
    s.(chunks := s.chunks[c := NewRow(cfg, u)], known := s.known + {c},
       uploads := s.uploads[f := u.(phase := Linked(c, false))])
  }

  lemma RowArrives(cfg: Config, s: State, f: FileId)
    requires Inv(cfg, s) && f in s.uploads && s.uploads[f].phase.Linked? && s.uploads[f].phase.isNew
    ensures Inv(cfg, RowCommitted(cfg, s, f))
  {
    hide ShapesOk, TxsOk, PendingApart, CollectorsOk, LocksApart, LocksExclude, RowsOk, LinksOk, ObjectsOk, PresenceOk,
      SpoiledOk, FilesOk, PhasesOk;
    var u := s.uploads[f];
    var c := u.phase.chunk;
    var v := u.(phase := Linked(c, false));
    var row := NewRow(cfg, u);
    UploadFacts(cfg, s, f);
    RowTables(cfg, s, c, row);
    RowTxs(cfg, s.uploads, f, row, s.chunks, s.objects, s.used, s.known);
    RowCollectors(cfg, s.collectors, c, row, s.chunks, s.links, s.known, s.spoiled, s.now);
    RowFiles(cfg, s.files, s.uploads, s.links, s.chunks, c, row);
    UploadShapes(s.uploads, f, v, s.now);
    UploadPending(cfg, s.uploads, f, v);
    FreshUnlocked(cfg, s, c);
    UploadLocks(s.uploads, f, v, s.collectors);
    UploadFiles(cfg, s.files, s.uploads, f, v, s.links, s.chunks[c := row]);
    UploadPhases(s.uploads, f, v, s.files);
    ObjectsStay(cfg, s.objects, s.uploads, s.uploads[f := v]);
  }

  lemma FreshUnlocked(cfg: Config, s: State, c: ChunkId)
    requires CollectorsOk(cfg, s.collectors, s.chunks, s.links, s.known, s.spoiled, s.now) && c !in s.known
    ensures !ExclusivelyLocked(s.collectors, c)
  {
    forall g | g in s.collectors ensures !HoldsExclusive(s.collectors[g].phase, c) {
      assert CollectorOk(cfg, s.collectors[g], s.chunks, s.links, s.known, s.spoiled, s.now);
    }
  }

  /** A link to a row nobody holds exclusively. */
  lemma LinkCollectors(cfg: Config, collectors: Collectors, chunks: Chunks, links: Links, known: set<ChunkId>,
                       spoiled: set<ChunkId>, now: Time, key: (FileId, nat), c: ChunkId)
    requires CollectorsOk(cfg, collectors, chunks, links, known, spoiled, now) && !ExclusivelyLocked(collectors, c)
    ensures CollectorsOk(cfg, collectors, chunks, links[key := c], known, spoiled, now)
  {
    forall g | g in collectors ensures CollectorOk(cfg, collectors[g], chunks, links[key := c], known, spoiled, now) {
      var k := collectors[g];
      assert CollectorOk(cfg, k, chunks, links, known, spoiled, now);
      assert !HoldsExclusive(k.phase, c);
    }
  }

  lemma LinkFiles(cfg: Config, files: map<FileId, FileRow>, uploads: Uploads, links: Links, chunks: Chunks, f: FileId,
                  c: ChunkId)
    requires FilesOk(cfg, files, uploads, links, chunks)
    requires f in uploads && uploads[f].next < |uploads[f].parts|
    requires c in chunks && chunks[c].hash == Target(cfg, uploads[f])
    ensures var u := uploads[f];
      FilesOk(cfg, files, uploads[f := u.(next := u.next + 1, phase := Idle)], links[(f, u.next) := c], chunks)
  {
    var u := uploads[f];
    var key, links' := (f, u.next), links[(f, u.next) := c];
    forall g | g in files && g != f
      ensures FileOk(cfg, g, files[g], uploads[g].parts, uploads[g].next, |uploads[g].data|, links', chunks)
    {
      assert FileOk(cfg, g, files[g], uploads[g].parts, uploads[g].next, |uploads[g].data|, links, chunks);
    }
    if f in files {
      assert FileOk(cfg, f, files[f], u.parts, u.next, |u.data|, links, chunks);
      assert FileOk(cfg, f, files[f], u.parts, u.next + 1, |u.data|, links', chunks);
    }
  }

  lemma LinkArrives(cfg: Config, s: State, f: FileId)
    requires Inv(cfg, s) && f in s.uploads && s.uploads[f].phase.Linked? && !s.uploads[f].phase.isNew
    ensures var u := s.uploads[f];
      Inv(cfg,
        s.(links := s.links[(f, u.next) := u.phase.chunk],
          uploads := s.uploads[f := u.(next := u.next + 1, phase := Idle)]))
  {
    hide ShapesOk, TxsOk, PendingApart, CollectorsOk, LocksApart, LocksExclude, RowsOk, LinksOk, ObjectsOk, PresenceOk,
      SpoiledOk, FilesOk, PhasesOk;
    var u := s.uploads[f];
    var c := u.phase.chunk;
    var v := u.(next := u.next + 1, phase := Idle);
    UploadFacts(cfg, s, f);
    assert HoldsShare(u.phase, c);
    LinkTable(s.links, s.files, s.chunks, (f, u.next), c);
    LinkCollectors(cfg, s.collectors, s.chunks, s.links, s.known, s.spoiled, s.now, (f, u.next), c);
    LinkFiles(cfg, s.files, s.uploads, s.links, s.chunks, f, c);
    UploadShapes(s.uploads, f, v, s.now);
    UploadTxs(cfg, s.uploads, f, v, s.chunks, s.objects, s.used, s.known);
    UploadPending(cfg, s.uploads, f, v);
    UploadLocks(s.uploads, f, v, s.collectors);
    UploadPhases(s.uploads, f, v, s.files);
    ObjectsStay(cfg, s.objects, s.uploads, s.uploads[f := v]);
  }

  lemma RowKnown(s: State, c: ChunkId)
    requires RowsOk(s.chunks, s.used, s.known) && c in s.chunks
    ensures c in s.known
  {
  }

  lemma CommitKeeps(cfg: Config, s: State, f: FileId)
    requires Inv(cfg, s) && f in s.uploads && s.uploads[f].phase.Linked?
    ensures Inv(cfg, CommitChunk(cfg, s, f))
  {
    hide ShapesOk, TxsOk, PendingApart, CollectorsOk, LocksApart, LocksExclude, RowsOk, LinksOk, ObjectsOk, PresenceOk,
      SpoiledOk, FilesOk, PhasesOk;
    var u := s.uploads[f];
    if u.phase.isNew {
      var r := RowCommitted(cfg, s, f);
      RowArrives(cfg, s, f);
      LinkArrives(cfg, r, f);
      assert CommitChunk(cfg, s, f).uploads == r.uploads[f := r.uploads[f].(next := u.next + 1, phase := Idle)];
    } else {
      LinkArrives(cfg, s, f);
      UploadFacts(cfg, s, f);
      RowKnown(s, u.phase.chunk);
      assert s.known + {u.phase.chunk} == s.known;
    }
  }

  // ---- Clock, file rows and events ----

  lemma TickKeeps(cfg: Config, s: State, d: nat)
    requires Inv(cfg, s)
    ensures Inv(cfg, s.(now := s.now + d))
  {
    forall g | g in s.collectors
      ensures CollectorOk(cfg, s.collectors[g], s.chunks, s.links, s.known, s.spoiled, s.now + d)
    {
      assert CollectorOk(cfg, s.collectors[g], s.chunks, s.links, s.known, s.spoiled, s.now);
    }
  }

  lemma NewFile(cfg: Config, files: map<FileId, FileRow>, uploads: Uploads, links: Links, chunks: Chunks, f: FileId,
                row: FileRow, u: Upload)
    requires FilesOk(cfg, files, uploads, links, chunks) && LinksOk(links, files, chunks)
    requires f !in uploads && row.status.Uploading? && u.next == 0
    ensures FilesOk(cfg, files[f := row], uploads[f := u], links, chunks) && LinksOk(links, files[f := row], chunks)
  {
    assert f !in files;
    assert FileOk(cfg, f, row, u.parts, 0, |u.data|, links, chunks) by {
      assert forall k :: k in links ==> k.0 != f;
    }
  }

  lemma NewFilePhases(uploads: Uploads, files: map<FileId, FileRow>, f: FileId, row: FileRow, u: Upload)
    requires PhasesOk(uploads, files) && f !in uploads && u.phase.Idle?
    ensures PhasesOk(uploads[f := u], files[f := row])
  {
  }

  lemma CreateKeeps(cfg: Config, s: State, f: FileId, owner: UserId, data: Bytes)
    requires Inv(cfg, s) && f !in s.uploads
    ensures Inv(cfg, Apply(cfg, s, CreateFile(f, owner, data)))
  {
    hide ShapesOk, TxsOk, PendingApart, CollectorsOk, LocksApart, LocksExclude, RowsOk, LinksOk, ObjectsOk, PresenceOk,
      SpoiledOk, FilesOk, PhasesOk;
    var row, u := FileRow(owner, 0, Uploading, s.now), Upload(owner, data, Split(data), 0, Idle, s.now, 0);
    NewFile(cfg, s.files, s.uploads, s.links, s.chunks, f, row, u);
    NewFilePhases(s.uploads, s.files, f, row, u);
    UploadShapes(s.uploads, f, u, s.now);
    UploadTxs(cfg, s.uploads, f, u, s.chunks, s.objects, s.used, s.known);
    UploadPending(cfg, s.uploads, f, u);
    UploadLocks(s.uploads, f, u, s.collectors);
    ObjectsStay(cfg, s.objects, s.uploads, s.uploads[f := u]);
  }

  lemma RowReady(cfg: Config, s: State, f: FileId, row: FileRow)
    requires Inv(cfg, s) && f in s.files && f in s.uploads && s.uploads[f].next == |s.uploads[f].parts|
    requires row.status.Ready? && row.size == |s.uploads[f].data|
    ensures Inv(cfg, s.(files := s.files[f := row]))
  {
    assert FilesOk(cfg, s.files[f := row], s.uploads, s.links, s.chunks) by {
      var u := s.uploads[f];
      assert FileOk(cfg, f, s.files[f], u.parts, u.next, |u.data|, s.links, s.chunks);
      assert FileOk(cfg, f, row, u.parts, u.next, |u.data|, s.links, s.chunks);
    }
  }

  lemma FinishKeeps(cfg: Config, s: State, f: FileId)
    requires Inv(cfg, s) && f in s.uploads && s.uploads[f].phase.Idle? && s.uploads[f].next == |s.uploads[f].parts|
    ensures Inv(cfg, FinishUpload(s, f))
  {
    hide ShapesOk, TxsOk, PendingApart, CollectorsOk, LocksApart, LocksExclude, RowsOk, LinksOk, ObjectsOk, PresenceOk,
      SpoiledOk, FilesOk, PhasesOk;
    var t := FinishUpload(s, f);
    var r := s.(files := t.files);
    if f in s.files {
      RowReady(cfg, s, f, t.files[f]);
    }
    var v := r.uploads[f].(phase := Done);
    UploadFacts(cfg, r, f);
    UploadPending(cfg, r.uploads, f, v);
    UploadMoves(cfg, r, f, v);
    assert t == r.(uploads := r.uploads[f := v]);
  }

  lemma PublishKeeps(cfg: Config, s: State, f: FileId)
    requires Inv(cfg, s) && f in s.uploads && s.uploads[f].phase.Done?
    ensures Inv(cfg, s.(events := s.events + {f}))
  {
    hide ShapesOk, TxsOk, PendingApart, CollectorsOk, LocksApart, LocksExclude, RowsOk, LinksOk, ObjectsOk, PresenceOk,
      SpoiledOk, FilesOk, PhasesOk;
    UploadFacts(cfg, s, f);
  }

  lemma DropCollectors(cfg: Config, s: State, links: Links)
    requires CollectorsOk(cfg, s.collectors, s.chunks, s.links, s.known, s.spoiled, s.now)
    requires forall k :: k in links ==> k in s.links && links[k] == s.links[k]
    ensures CollectorsOk(cfg, s.collectors, s.chunks, links, s.known, s.spoiled, s.now)
  {
    forall g | g in s.collectors ensures CollectorOk(cfg, s.collectors[g], s.chunks, links, s.known, s.spoiled, s.now) {
      assert CollectorOk(cfg, s.collectors[g], s.chunks, s.links, s.known, s.spoiled, s.now);
    }
  }

  lemma DropTables(cfg: Config, s: State, gone: set<FileId>)
    requires FilesOk(cfg, s.files, s.uploads, s.links, s.chunks) && LinksOk(s.links, s.files, s.chunks)
    ensures var t := DropFiles(s, gone);
      FilesOk(cfg, t.files, t.uploads, t.links, t.chunks) && LinksOk(t.links, t.files, t.chunks)
  {
    var t := DropFiles(s, gone);
    forall f | f in t.files
      ensures FileOk(cfg, f, t.files[f], s.uploads[f].parts, s.uploads[f].next, |s.uploads[f].data|, t.links, t.chunks)
    {
      assert FileOk(cfg, f, s.files[f], s.uploads[f].parts, s.uploads[f].next, |s.uploads[f].data|, s.links, s.chunks);
      assert forall i: nat :: (f, i) in t.links <==> (f, i) in s.links;
    }
  }

  lemma DropPhases(s: State, gone: set<FileId>)
    requires PhasesOk(s.uploads, s.files)
    requires forall f :: f in gone && f in s.uploads ==> !s.uploads[f].phase.Linked?
    ensures PhasesOk(s.uploads, s.files - gone)
  {
  }

  lemma DropKeeps(cfg: Config, s: State, gone: set<FileId>)
    requires Inv(cfg, s)
    requires forall f :: f in gone && f in s.uploads ==> !s.uploads[f].phase.Linked?
    ensures Inv(cfg, DropFiles(s, gone))
  {
    hide ShapesOk, TxsOk, PendingApart, CollectorsOk, LocksApart, LocksExclude, RowsOk, LinksOk, ObjectsOk, PresenceOk,
      SpoiledOk, FilesOk, PhasesOk;
    DropCollectors(cfg, s, DropFiles(s, gone).links);
    DropTables(cfg, s, gone);
    DropPhases(s, gone);
  }

  // ---- One collector changes ----

  lemma CollectorFacts(cfg: Config, s: State, g: CollectorId)
    requires Inv(cfg, s) && g in s.collectors
    ensures CollectorOk(cfg, s.collectors[g], s.chunks, s.links, s.known, s.spoiled, s.now)
  {
  }

  lemma CollectorUpdated(cfg: Config, s: State, g: CollectorId, k: Collector)
    requires CollectorsOk(cfg, s.collectors, s.chunks, s.links, s.known, s.spoiled, s.now)
    requires CollectorOk(cfg, k, s.chunks, s.links, s.known, s.spoiled, s.now)
    ensures CollectorsOk(cfg, s.collectors[g := k], s.chunks, s.links, s.known, s.spoiled, s.now)
  {
  }

  /** A collector that ends up with no lock it did not have. */
  lemma CollectorLocks(uploads: Uploads, collectors: Collectors, g: CollectorId, k: Collector)
    requires LocksApart(collectors) && LocksExclude(uploads, collectors)
    requires forall c :: HoldsExclusive(k.phase, c) ==> g in collectors && HoldsExclusive(collectors[g].phase, c)
    ensures LocksApart(collectors[g := k]) && LocksExclude(uploads, collectors[g := k])
  {
  }

  lemma CollectorErasing(spoiled: set<ChunkId>, failed: set<ChunkId>, collectors: Collectors, g: CollectorId,
                         k: Collector)
    requires SpoiledOk(spoiled, failed, collectors)
    requires forall c :: c in spoiled && c !in failed && g in collectors && HasErased(collectors[g].phase, c) ==>
      HasErased(k.phase, c)
    ensures SpoiledOk(spoiled, failed, collectors[g := k])
  {
    forall c | c in spoiled && c !in failed ensures Erasing(collectors[g := k], c) {
      var j :| j in collectors && HasErased(collectors[j].phase, c);
      assert j in collectors[g := k];
    }
  }

  lemma CollectorMoves(cfg: Config, s: State, g: CollectorId, k: Collector)
    requires Inv(cfg, s)
    requires CollectorOk(cfg, k, s.chunks, s.links, s.known, s.spoiled, s.now)
    requires forall c :: HoldsExclusive(k.phase, c) ==> g in s.collectors && HoldsExclusive(s.collectors[g].phase, c)
    requires forall c ::
      c in s.spoiled && c !in s.failed && g in s.collectors && HasErased(s.collectors[g].phase, c) ==>
        HasErased(k.phase, c)
    ensures Inv(cfg, s.(collectors := s.collectors[g := k]))
  {
    hide ShapesOk, TxsOk, PendingApart, CollectorsOk, LocksApart, LocksExclude, RowsOk, LinksOk, ObjectsOk, PresenceOk,
      SpoiledOk, FilesOk, PhasesOk;
    CollectorUpdated(cfg, s, g, k);
    CollectorLocks(s.uploads, s.collectors, g, k);
    CollectorErasing(s.spoiled, s.failed, s.collectors, g, k);
  }

  lemma ScanKeeps(cfg: Config, s: State, g: CollectorId)
    requires Inv(cfg, s) && (g in s.collectors ==> s.collectors[g].phase.Scanned?)
    ensures Inv(cfg, s.(collectors := s.collectors[g := Collector(Orphans(cfg, s), Scanned)]))
  {
    hide ShapesOk, TxsOk, PendingApart, LocksApart, LocksExclude, LinksOk, ObjectsOk, PresenceOk, SpoiledOk, FilesOk,
      PhasesOk, CollectorsOk;
    CollectorMoves(cfg, s, g, Collector(Orphans(cfg, s), Scanned));
  }

  /** Check, Skip and a failure before the object was touched: the candidate set may shrink, no lock is taken. */
  lemma CollectorRests(cfg: Config, s: State, g: CollectorId, k: Collector)
    requires Inv(cfg, s) && g in s.collectors && !s.collectors[g].phase.Erased? && !s.collectors[g].phase.Removed?
    requires k.phase.Scanned? || (k.phase.Checked? && k.phase.id in k.candidates)
    requires forall c :: c in k.candidates ==>
      c in s.collectors[g].candidates && k.candidates[c] == s.collectors[g].candidates[c]
    ensures Inv(cfg, s.(collectors := s.collectors[g := k]))
  {
    hide ShapesOk, TxsOk, PendingApart, CollectorsOk, LocksApart, LocksExclude, RowsOk, LinksOk, ObjectsOk, PresenceOk,
      SpoiledOk, FilesOk, PhasesOk;
    CollectorFacts(cfg, s, g);
    CollectorMoves(cfg, s, g, k);
  }

  lemma LockTaken(uploads: Uploads, collectors: Collectors, g: CollectorId, k: Collector, c: ChunkId)
    requires LocksApart(collectors) && LocksExclude(uploads, collectors)
    requires k.phase == Locked(c) && !ShareLocked(uploads, c) && !ExclusivelyLocked(collectors, c)
    ensures LocksApart(collectors[g := k]) && LocksExclude(uploads, collectors[g := k])
  {
  }

  lemma LockKeeps(cfg: Config, s: State, g: CollectorId)
    requires Inv(cfg, s) && g in s.collectors && s.collectors[g].phase.Checked?
    requires var c := s.collectors[g].phase.id;
      && c in s.chunks && !ShareLocked(s.uploads, c) && !ExclusivelyLocked(s.collectors, c)
      && (cfg.mode.AtomicCheck? ==> Unlinked(s.links, c))
    ensures Inv(cfg, WithGc(s, g, Locked(s.collectors[g].phase.id)))
  {
    hide ShapesOk, TxsOk, PendingApart, CollectorsOk, LocksApart, LocksExclude, RowsOk, LinksOk, ObjectsOk, PresenceOk,
      SpoiledOk, FilesOk, PhasesOk;
    var c := s.collectors[g].phase.id;
    var k := s.collectors[g].(phase := Locked(c));
    CollectorFacts(cfg, s, g);
    CollectorUpdated(cfg, s, g, k);
    LockTaken(s.uploads, s.collectors, g, k, c);
    CollectorErasing(s.spoiled, s.failed, s.collectors, g, k);
  }

  lemma DeleteRowKeeps(cfg: Config, s: State, g: CollectorId)
    requires Inv(cfg, s) && g in s.collectors && s.collectors[g].phase.Erased?
    requires Unlinked(s.links, s.collectors[g].phase.id)
    ensures Inv(cfg, WithGc(s, g, Removed(s.collectors[g].phase.id)))
  {
    hide ShapesOk, TxsOk, PendingApart, CollectorsOk, LocksApart, LocksExclude, RowsOk, LinksOk, ObjectsOk, PresenceOk,
      SpoiledOk, FilesOk, PhasesOk;
    CollectorFacts(cfg, s, g);
    CollectorMoves(cfg, s, g, s.collectors[g].(phase := Removed(s.collectors[g].phase.id)));
  }

  /** Deleting an object no uncommitted row relies on. */
  lemma ObjectLeaves(cfg: Config, s: State, c: ChunkId)
    requires Inv(cfg, s) && c in s.chunks
    ensures var h := s.chunks[c].hash;
      && TxsOk(cfg, s.uploads, s.chunks, s.objects - {h}, s.used, s.known)
      && ObjectsOk(cfg, s.objects - {h}, s.uploads)
      && PresenceOk(s.chunks, s.objects - {h}, s.spoiled + {c})
  {
    hide ShapesOk, CollectorsOk, LocksApart, LocksExclude, LinksOk, SpoiledOk, FilesOk, PhasesOk, PendingApart;
    var h := s.chunks[c].hash;
    forall f | f in s.uploads ensures TxOk(cfg, s.uploads[f], s.chunks, s.objects - {h}, s.used, s.known) {
      assert TxOk(cfg, s.uploads[f], s.chunks, s.objects, s.used, s.known);
      assert HasPending(s.uploads[f].phase) ==> Target(cfg, s.uploads[f]) != h;
    }
  }

  lemma SpoilCollectors(cfg: Config, s: State, c: ChunkId)
    requires CollectorsOk(cfg, s.collectors, s.chunks, s.links, s.known, s.spoiled, s.now)
    ensures CollectorsOk(cfg, s.collectors, s.chunks, s.links, s.known, s.spoiled + {c}, s.now)
  {
    forall g | g in s.collectors
      ensures CollectorOk(cfg, s.collectors[g], s.chunks, s.links, s.known, s.spoiled + {c}, s.now)
    {
      assert CollectorOk(cfg, s.collectors[g], s.chunks, s.links, s.known, s.spoiled, s.now);
    }
  }

  lemma SpoilErasing(spoiled: set<ChunkId>, failed: set<ChunkId>, collectors: Collectors, g: CollectorId, k: Collector,
                     c: ChunkId)
    requires SpoiledOk(spoiled, failed, collectors) && k.phase == Erased(c)
    requires g in collectors && collectors[g].phase == Locked(c)
    ensures SpoiledOk(spoiled + {c}, failed, collectors[g := k])
  {
    CollectorErasing(spoiled, failed, collectors, g, k);
    assert g in collectors[g := k] && HasErased(collectors[g := k][g].phase, c);
  }

  lemma EraseKeeps(cfg: Config, s: State, g: CollectorId)
    requires Inv(cfg, s) && g in s.collectors && s.collectors[g].phase.Locked?
    ensures Inv(cfg, EraseObject(s, g))
  {
    hide ShapesOk, TxsOk, PendingApart, CollectorsOk, LocksApart, LocksExclude, RowsOk, LinksOk, ObjectsOk, PresenceOk,
      SpoiledOk, FilesOk, PhasesOk;
    var c := s.collectors[g].phase.id;
    var k := s.collectors[g].(phase := Erased(c));
    CollectorFacts(cfg, s, g);
    ObjectLeaves(cfg, s, c);
    SpoilCollectors(cfg, s, c);
    SpoilErasing(s.spoiled, s.failed, s.collectors, g, k, c);
    var r := s.(spoiled := s.spoiled + {c});
    CollectorUpdated(cfg, r, g, k);
    CollectorLocks(s.uploads, s.collectors, g, k);
  }

  // ---- Committing or failing a collection ----

  lemma RowLeavesTxs(cfg: Config, s: State, c: ChunkId)
    requires TxsOk(cfg, s.uploads, s.chunks, s.objects, s.used, s.known) && !ShareLocked(s.uploads, c)
    ensures TxsOk(cfg, s.uploads, s.chunks - {c}, s.objects, s.used, s.known)
  {
    forall f | f in s.uploads ensures TxOk(cfg, s.uploads[f], s.chunks - {c}, s.objects, s.used, s.known) {
      assert TxOk(cfg, s.uploads[f], s.chunks, s.objects, s.used, s.known);
      assert !HoldsShare(s.uploads[f].phase, c);
    }
  }

  lemma RowLeavesTables(cfg: Config, s: State, c: ChunkId)
    requires RowsOk(s.chunks, s.used, s.known) && PresenceOk(s.chunks, s.objects, s.spoiled)
    requires LinksOk(s.links, s.files, s.chunks) && Unlinked(s.links, c)
    ensures RowsOk(s.chunks - {c}, s.used, s.known) && PresenceOk(s.chunks - {c}, s.objects, s.spoiled - {c})
    ensures LinksOk(s.links, s.files, s.chunks - {c})
  {
  }

  lemma RowLeavesFiles(cfg: Config, s: State, c: ChunkId)
    requires FilesOk(cfg, s.files, s.uploads, s.links, s.chunks)
    ensures FilesOk(cfg, s.files, s.uploads, s.links, s.chunks - {c})
  {
    forall f | f in s.files
      ensures FileOk(cfg, f, s.files[f], s.uploads[f].parts, s.uploads[f].next, |s.uploads[f].data|, s.links,
        s.chunks - {c})
    {
      assert FileOk(cfg, f, s.files[f], s.uploads[f].parts, s.uploads[f].next, |s.uploads[f].data|, s.links, s.chunks);
    }
  }

  lemma RowLeavesCollectors(cfg: Config, s: State, g: CollectorId, c: ChunkId)
    requires CollectorsOk(cfg, s.collectors, s.chunks, s.links, s.known, s.spoiled, s.now) && LocksApart(s.collectors)
    requires g in s.collectors && s.collectors[g].phase == Removed(c)
    ensures CollectorsOk(cfg, s.collectors[g := Collector(s.collectors[g].candidates - {c}, Scanned)],
      s.chunks - {c}, s.links, s.known, s.spoiled - {c}, s.now)
  {
    var after := s.collectors[g := Collector(s.collectors[g].candidates - {c}, Scanned)];
    forall j | j in after ensures CollectorOk(cfg, after[j], s.chunks - {c}, s.links, s.known, s.spoiled - {c}, s.now) {
      assert CollectorOk(cfg, s.collectors[j], s.chunks, s.links, s.known, s.spoiled, s.now);
      assert HoldsExclusive(s.collectors[g].phase, c);
      assert j != g ==> !HoldsExclusive(s.collectors[j].phase, c);
    }
  }

  lemma RowLeavesErasing(spoiled: set<ChunkId>, failed: set<ChunkId>, collectors: Collectors, g: CollectorId,
                         k: Collector, c: ChunkId)
    requires SpoiledOk(spoiled, failed, collectors) && g in collectors && !collectors[g].phase.Scanned?
    requires collectors[g].phase.id == c
    ensures SpoiledOk(spoiled - {c}, failed, collectors[g := k])
  {
    CollectorErasing(spoiled - {c}, failed, collectors, g, k);
  }

  lemma ExclusiveNotShared(s: State, g: CollectorId, c: ChunkId)
    requires LocksExclude(s.uploads, s.collectors) && g in s.collectors && HoldsExclusive(s.collectors[g].phase, c)
    ensures !ShareLocked(s.uploads, c)
  {
  }

  lemma CollectKeeps(cfg: Config, s: State, g: CollectorId)
    requires Inv(cfg, s) && g in s.collectors && s.collectors[g].phase.Removed?
    ensures Inv(cfg, CommitCollection(s, g))
  {
    hide ShapesOk, TxsOk, PendingApart, CollectorsOk, LocksApart, LocksExclude, RowsOk, LinksOk, ObjectsOk, PresenceOk,
      SpoiledOk, FilesOk, PhasesOk;
    var c := s.collectors[g].phase.id;
    var k := Collector(s.collectors[g].candidates - {c}, Scanned);
    CollectorFacts(cfg, s, g);
    ExclusiveNotShared(s, g, c);
    RowLeavesTxs(cfg, s, c);
    RowLeavesTables(cfg, s, c);
    RowLeavesFiles(cfg, s, c);
    RowLeavesCollectors(cfg, s, g, c);
    RowLeavesErasing(s.spoiled, s.failed, s.collectors, g, k, c);
    CollectorLocks(s.uploads, s.collectors, g, k);
  }

  lemma FailErasing(spoiled: set<ChunkId>, failed: set<ChunkId>, more: set<ChunkId>)
    requires failed <= more
    ensures forall collectors: Collectors :: SpoiledOk(spoiled, failed, collectors) ==>
      SpoiledOk(spoiled, more, collectors)
  {
  }

  lemma FailKeeps(cfg: Config, s: State, g: CollectorId)
    requires Inv(cfg, s) && g in s.collectors && !s.collectors[g].phase.Scanned?
    ensures Inv(cfg, FailCollection(s, g))
  {
    hide ShapesOk, TxsOk, PendingApart, CollectorsOk, LocksApart, LocksExclude, RowsOk, LinksOk, ObjectsOk, PresenceOk,
      SpoiledOk, FilesOk, PhasesOk;
    var p := s.collectors[g].phase;
    var t := FailCollection(s, g);
    var r := s.(failed := t.failed);
    CollectorFacts(cfg, s, g);
    FailErasing(s.spoiled, s.failed, r.failed);
    assert Inv(cfg, r);
    CollectorMoves(cfg, r, g, Collector(r.collectors[g].candidates - {p.id}, Scanned));
  }

  // ---- Every step, every run ----

  predicate IsCollectorStep(step: Step)
  {
    || step.Scan? || step.Check? || step.Skip? || step.Lock?
    || step.Erase? || step.DeleteRow? || step.GcCommit? || step.GcFail?
  }

  lemma UploadStepKeeps(cfg: Config, s: State, step: Step)
    requires Inv(cfg, s) && Enabled(cfg, s, step) && !IsCollectorStep(step)
    ensures Inv(cfg, Apply(cfg, s, step))
  {
    hide Inv;
    match step
    case Tick(d) => TickKeeps(cfg, s, d);
    case CreateFile(f, owner, data) => CreateKeeps(cfg, s, f, owner, data);
    case Begin(f) => BeginKeeps(cfg, s, f);
    case InsertWins(f, c) => InsertKeeps(cfg, s, f, c);
    case InsertLoses(f) => RetryKeeps(cfg, s, f, Selecting(s.uploads[f].phase.attempt));
    case SelectSees(f, c) => SeeKeeps(cfg, s, f, c);
    case SelectMisses(f) => RetryKeeps(cfg, s, f, Inserting(s.uploads[f].phase.attempt + 1));
    case LockGranted(f) => GrantKeeps(cfg, s, f);
    case LockMisses(f) => RetryKeeps(cfg, s, f, Inserting(s.uploads[f].phase.attempt + 1));
    case PutObject(f) => PutKeeps(cfg, s, f);
    case Link(f) => LinkKeeps(cfg, s, f);
    case Commit(f) => CommitKeeps(cfg, s, f);
    case Finish(f) => FinishKeeps(cfg, s, f);
    case Publish(f) => PublishKeeps(cfg, s, f);
    case Crash(f) => CrashKeeps(cfg, s, f);
    case RemoveFiles(gone) => DropKeeps(cfg, s, gone);
  }

  lemma RetryKeeps(cfg: Config, s: State, f: FileId, p: Phase)
    requires Inv(cfg, s) && f in s.uploads && InTx(s.uploads[f].phase) && (p.Inserting? || p.Selecting?)
    ensures Inv(cfg, WithPhase(s, f, p))
  {
    hide ShapesOk, TxsOk, PendingApart, CollectorsOk, LocksApart, LocksExclude, RowsOk, LinksOk, ObjectsOk, PresenceOk,
      SpoiledOk, FilesOk, PhasesOk;
    UploadFacts(cfg, s, f);
    UploadRests(cfg, s, f, s.uploads[f].(phase := p));
  }

  lemma SeeKeeps(cfg: Config, s: State, f: FileId, c: ChunkId)
    requires Inv(cfg, s) && f in s.uploads && s.uploads[f].phase.Selecting?
    requires c in s.chunks && s.chunks[c].hash == Target(cfg, s.uploads[f])
    ensures Inv(cfg, WithPhase(s, f, Waiting(s.uploads[f].phase.attempt, c)))
  {
    hide ShapesOk, TxsOk, PendingApart, CollectorsOk, LocksApart, LocksExclude, RowsOk, LinksOk, ObjectsOk, PresenceOk,
      SpoiledOk, FilesOk, PhasesOk;
    UploadFacts(cfg, s, f);
    RowKnown(s, c);
    UploadRests(cfg, s, f, s.uploads[f].(phase := Waiting(s.uploads[f].phase.attempt, c)));
  }

  lemma CrashKeeps(cfg: Config, s: State, f: FileId)
    requires Inv(cfg, s) && f in s.uploads
    ensures Inv(cfg, WithPhase(s, f, Dead))
  {
    hide ShapesOk, TxsOk, PendingApart, CollectorsOk, LocksApart, LocksExclude, RowsOk, LinksOk, ObjectsOk, PresenceOk,
      SpoiledOk, FilesOk, PhasesOk;
    UploadFacts(cfg, s, f);
    UploadRests(cfg, s, f, s.uploads[f].(phase := Dead));
  }

  lemma BeginKeeps(cfg: Config, s: State, f: FileId)
    requires Inv(cfg, s) && f in s.uploads && s.uploads[f].next < |s.uploads[f].parts|
    ensures Inv(cfg,
      s.(uploads := s.uploads[f := s.uploads[f].(phase := Inserting(0), begun := s.now, mark := |s.log|)]))
  {
    hide ShapesOk, TxsOk, PendingApart, CollectorsOk, LocksApart, LocksExclude, RowsOk, LinksOk, ObjectsOk, PresenceOk,
      SpoiledOk, FilesOk, PhasesOk;
    UploadRests(cfg, s, f, s.uploads[f].(phase := Inserting(0), begun := s.now, mark := |s.log|));
  }

  lemma CollectorStepKeeps(cfg: Config, s: State, step: Step)
    requires Inv(cfg, s) && Enabled(cfg, s, step) && IsCollectorStep(step)
    ensures Inv(cfg, Apply(cfg, s, step))
  {
    hide Inv;
    match step
    case Scan(g) => ScanKeeps(cfg, s, g);
    case Check(g, c) => CollectorRests(cfg, s, g, s.collectors[g].(phase := Checked(c)));
    case Skip(g, c) => CollectorRests(cfg, s, g, Collector(s.collectors[g].candidates - {c}, Scanned));
    case Lock(g) => LockKeeps(cfg, s, g);
    case Erase(g) => EraseKeeps(cfg, s, g);
    case DeleteRow(g) => DeleteRowKeeps(cfg, s, g);
    case GcCommit(g) => CollectKeeps(cfg, s, g);
    case GcFail(g) => FailKeeps(cfg, s, g);
  }

  lemma StepKeeps(cfg: Config, s: State, step: Step)
    requires Inv(cfg, s) && Enabled(cfg, s, step)
    ensures Inv(cfg, Apply(cfg, s, step))
  {
    hide Inv, Enabled, Apply;
    if IsCollectorStep(step) {
      CollectorStepKeeps(cfg, s, step);
    } else {
      UploadStepKeeps(cfg, s, step);
    }
  }

  lemma {:induction false} RunKeeps(cfg: Config, s: State, run: seq<Step>)
    requires Inv(cfg, s) && IsRun(cfg, s, run)
    ensures Inv(cfg, After(cfg, s, run))
    decreases |run|
  {
    hide Inv, Enabled, Apply;
    if run != [] {
      StepKeeps(cfg, s, run[0]);
      RunKeeps(cfg, Apply(cfg, s, run[0]), run[1..]);
    }
  }
}
