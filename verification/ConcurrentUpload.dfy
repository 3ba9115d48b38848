// UploadFile in the middle of everything else. Between any two of its statements the rest of the
// world (other uploads, deletes, sweeps, collectors, crashes) takes whatever steps it likes
// (internal/storage/service.go, internal/storage/repository.go).
module ConcurrentUpload {
  import opened Chunking
  import opened StoreProtocol
  import opened StoreInvariant
  import opened StoreTheorems
  import opened StoreWaits
  import opened StorageService
  import ChunkRaces

  /** What others do between the statements of one call. */
  type World = nat -> seq<Step>

  /** Nothing an upload relies on is lost when others take their steps. */
  ghost predicate LeftAlone(s: State, t: State, f: FileId)
  {
    && f in s.uploads && f in t.uploads && t.uploads[f] == s.uploads[f] && s.used <= t.used && s.now <= t.now
    && |s.log| <= |t.log| && (f in t.events <==> f in s.events)
    && (f in t.files ==> f in s.files && t.files[f] == s.files[f])
  }

  lemma OthersLeaveAlone(cfg: Config, s: State, f: FileId, step: Step)
    requires Enabled(cfg, s, step) && f in s.uploads && !OfUpload(step, f)
    ensures LeftAlone(s, Apply(cfg, s, step), f)
  {
    OtherUpload(cfg, s, f, step);
    OthersKeepRow(cfg, s, f, step);
    hide Enabled, Apply;
  }

  lemma OthersKeepRow(cfg: Config, s: State, f: FileId, step: Step)
    requires Enabled(cfg, s, step) && f in s.uploads && !OfUpload(step, f)
    ensures var t := Apply(cfg, s, step);
      && s.used <= t.used && s.now <= t.now && |s.log| <= |t.log| && (f in t.events <==> f in s.events)
      && (f in t.files ==> f in s.files && t.files[f] == s.files[f])
  {
    hide HasRow, PendingElsewhere, Unlinked, ExclusivelyLocked, ShareLocked, Orphans, Split;
  }

  /** Others take their turn; a step the database does not let happen is passed over. */
  method Others(db: Service, f: FileId, steps: seq<Step>)
    requires db.Valid() && f in db.s.uploads
    modifies db
    ensures db.Valid() && LeftAlone(old(db.s), db.s, f)
  {
    hide Inv, IsRun, After, Service.Valid, Apply, Enabled, OfUpload;
    for i := 0 to |steps|
      invariant db.Valid() && LeftAlone(old(db.s), db.s, f)
    {
      if Enabled(db.cfg, db.s, steps[i]) && !OfUpload(steps[i], f) {
        OthersLeaveAlone(db.cfg, db.s, f, steps[i]);
        db.Take(steps[i]);
      }
    }
  }

  datatype Resolution = New(chunk: ChunkId) | Existing(chunk: ChunkId) | GaveUp | StillWaiting

  /** The upload's own facts, which no step changes, and when and where its transaction began. */
  ghost predicate SameCall(u: Upload, v: Upload, begun: Time, mark: nat)
  {
    SameUpload(u, v) && v.next == u.next && v.begun == begun && v.mark == mark
  }

  /** What a resolution promises about the chunk of the digest h. */
  ghost predicate Resolved(cfg: Config, s: State, f: FileId, r: Resolution)
    requires f in s.uploads
  {
    var u, h := s.uploads[f], Target(cfg, s.uploads[f]);
    match r
    case New(c) => u.phase == Created(c) && !HasRow(s.chunks, h)
    case Existing(c) =>
      && u.phase == Held(c, false) && c in s.chunks && s.chunks[c].hash == h
      && !ExclusivelyLocked(s.collectors, c) && (h in s.objects <==> c !in s.spoiled)
    case GaveUp =>
      && ChunkRaces.GivesUp(s, f) && LostThree(s.log, u.mark, h)
      && (s.lag <= cfg.minAge ==> s.now - u.begun > 2 * (cfg.minAge - s.lag))
    case StillWaiting => exists b :: WaitsFor(cfg, s, Uploader(f), b)
  }

  /** Three different rows of that digest have been collected since the log had `mark` entries. */
  ghost predicate LostThree(log: seq<Collected>, mark: nat, h: Digest)
  {
    exists i, j, k :: && mark <= i < j < k < |log| && log[i].hash == log[j].hash == log[k].hash == h
                      && log[i].id != log[j].id && log[j].id != log[k].id && log[i].id != log[k].id
  }

  /** An uncommitted rival row makes the INSERT wait, an exclusive lock the SELECT. */
  lemma InsertWaits(cfg: Config, s: State, f: FileId)
    requires f in s.uploads && s.uploads[f].phase.Inserting? && s.uploads[f].phase.attempt < MAX_ATTEMPTS
    requires PendingElsewhere(cfg, s.uploads, Target(cfg, s.uploads[f]))
    ensures Resolved(cfg, s, f, StillWaiting)
  {
    var g :| g in s.uploads && HasPending(s.uploads[g].phase) && Target(cfg, s.uploads[g]) == Target(cfg, s.uploads[f]);
    assert WaitsFor(cfg, s, Uploader(f), Uploader(g));
  }

  lemma SelectWaits(cfg: Config, s: State, f: FileId)
    requires f in s.uploads && s.uploads[f].phase.Waiting? && s.uploads[f].phase.seen in s.chunks
    requires ExclusivelyLocked(s.collectors, s.uploads[f].phase.seen)
    ensures Resolved(cfg, s, f, StillWaiting)
  {
    var g :| g in s.collectors && HoldsExclusive(s.collectors[g].phase, s.uploads[f].phase.seen);
    assert WaitsFor(cfg, s, Uploader(f), Gc(g));
  }

  lemma GaveUpFacts(cfg: Config, run: seq<Step>, s: State, f: FileId)
    requires IsRun(cfg, Init(), run) && After(cfg, Init(), run) == s && ChunkRaces.GivesUp(s, f)
    ensures Resolved(cfg, s, f, GaveUp)
  {
    var i, j, k := ChunkRaces.GivingUpTakesThreeCollections(cfg, run, f);
    hide IsRun, After;
    assert s.log[i].hash == Target(cfg, s.uploads[f]);
  }

  lemma GrantFacts(cfg: Config, s: State, f: FileId)
    requires Inv(cfg, s) && f in s.uploads && s.uploads[f].phase.Waiting?
    requires s.uploads[f].phase.seen in s.chunks && !ExclusivelyLocked(s.collectors, s.uploads[f].phase.seen)
    ensures var c := s.uploads[f].phase.seen;
      Resolved(cfg, WithPhase(s, f, Held(c, false)), f, Existing(c))
  {
    UploadFacts(cfg, s, f);
    PresenceFacts(cfg, s);
    hide Inv;
  }

  /**
   * GetOrCreateChunk: up to three attempts to insert the row or to lock the one that is there.
   * A new row has no committed rival; an existing one is share-locked, and its object is there
   * unless a collection failed on it; giving up takes three collections during this very call.
   */
  method GetOrCreateChunk(db: Service, f: FileId, newId: set<ChunkId> -> ChunkId, world: World) returns (r: Resolution)
    requires db.Valid() && f in db.s.uploads && db.s.uploads[f].phase.Idle?
    requires db.s.uploads[f].next < |db.s.uploads[f].parts|
    requires forall taken :: newId(taken) !in taken
    modifies db
    ensures db.Valid() && f in db.s.uploads && Resolved(db.cfg, db.s, f, r)
    ensures SameCall(old(db.s).uploads[f], db.s.uploads[f], old(db.s).now, |old(db.s).log|)
    ensures Meanwhile(old(db.s), db.s, f)
  {
    hide Inv, IsRun, After, Resolved;
    ghost var u := db.s.uploads[f];
    ghost var now, mark := db.s.now, |db.s.log|;
    db.Take(Begin(f));
    var attempt := 0;
    while attempt < MAX_ATTEMPTS
      invariant db.Valid() && f in db.s.uploads && db.s.uploads[f].phase == Inserting(attempt)
      invariant attempt <= MAX_ATTEMPTS
      invariant SameCall(u, db.s.uploads[f], now, mark) && Meanwhile(old(db.s), db.s, f)
    {
      var won, c := Insert(db, f, newId, world(3 * attempt));
      if won {
        return New(c);
      }
      if db.s.uploads[f].phase.Inserting? {
        return StillWaiting;
      }
      var found := Select(db, f, world(3 * attempt + 1));
      if found {
        var granted;
        granted, c := Lock(db, f, world(3 * attempt + 2));
        if granted {
          return Existing(c);
        }
        if db.s.uploads[f].phase.Waiting? {
          return StillWaiting;
        }
      }
      attempt := attempt + 1;
    }
    GaveUpFacts(db.cfg, db.run, db.s, f);
    return GaveUp;
  }

  /** Neither published nor made ready meanwhile; what was collected stays on record. */
  ghost predicate Meanwhile(s: State, t: State, f: FileId)
  {
    && |s.log| <= |t.log| && (f in t.events <==> f in s.events)
    && (f in t.files ==> f in s.files && t.files[f] == s.files[f])
  }

  /** The INSERT: it wins, loses to a committed row, or waits for a rival that has not committed. */
  method Insert(db: Service, f: FileId, newId: set<ChunkId> -> ChunkId, meanwhile: seq<Step>)
    returns (won: bool, c: ChunkId)
    requires db.Valid() && f in db.s.uploads && db.s.uploads[f].phase.Inserting?
    requires db.s.uploads[f].phase.attempt < MAX_ATTEMPTS
    requires forall taken :: newId(taken) !in taken
    modifies db
    ensures db.Valid() && f in db.s.uploads && Meanwhile(old(db.s), db.s, f)
    ensures var u, v := old(db.s).uploads[f], db.s.uploads[f];
      && SameCall(u, v, u.begun, u.mark)
      && (won ==> Resolved(db.cfg, db.s, f, New(c)))
      && (!won ==>
        v.phase == Selecting(u.phase.attempt) || (v.phase == u.phase && Resolved(db.cfg, db.s, f, StillWaiting)))
  {
    hide Inv, IsRun, After;
    Others(db, f, meanwhile);
    c := 0;
    if HasRow(db.s.chunks, Target(db.cfg, db.s.uploads[f])) {
      db.Take(InsertLoses(f));
      won := false;
    } else if PendingElsewhere(db.cfg, db.s.uploads, Target(db.cfg, db.s.uploads[f])) {
      InsertWaits(db.cfg, db.s, f);
      won := false;
    } else {
      c := newId(db.s.used);
      db.Take(InsertWins(f, c));
      won := true;
    }
  }

  /** The SELECT sees the committed row, or finds it gone. */
  method Select(db: Service, f: FileId, meanwhile: seq<Step>) returns (found: bool)
    requires db.Valid() && f in db.s.uploads && db.s.uploads[f].phase.Selecting?
    modifies db
    ensures db.Valid() && f in db.s.uploads && Meanwhile(old(db.s), db.s, f)
    ensures var u, v := old(db.s).uploads[f], db.s.uploads[f];
      && SameCall(u, v, u.begun, u.mark)
      && if found then v.phase.Waiting? && v.phase.attempt == u.phase.attempt
         else v.phase == Inserting(u.phase.attempt + 1)
  {
    hide Inv, IsRun, After;
    Others(db, f, meanwhile);
    var h := Target(db.cfg, db.s.uploads[f]);
    if c :| c in db.s.chunks && db.s.chunks[c].hash == h {
      db.Take(SelectSees(f, c));
      found := true;
    } else {
      db.Take(SelectMisses(f));
      found := false;
    }
  }

  /** FOR SHARE: granted, still waiting for a collector, or the row is gone by then. */
  method Lock(db: Service, f: FileId, meanwhile: seq<Step>) returns (granted: bool, c: ChunkId)
    requires db.Valid() && f in db.s.uploads && db.s.uploads[f].phase.Waiting?
    modifies db
    ensures db.Valid() && f in db.s.uploads && Meanwhile(old(db.s), db.s, f)
    ensures var u, v := old(db.s).uploads[f], db.s.uploads[f];
      && SameCall(u, v, u.begun, u.mark) && c == u.phase.seen
      && (granted ==> Resolved(db.cfg, db.s, f, Existing(c)))
      && (!granted ==>
        v.phase == Inserting(u.phase.attempt + 1) || (v.phase == u.phase && Resolved(db.cfg, db.s, f, StillWaiting)))
  {
    hide Inv, IsRun, After;
    c := db.s.uploads[f].phase.seen;
    Others(db, f, meanwhile);
    if c !in db.s.chunks {
      db.Take(LockMisses(f));
      granted := false;
    } else if ExclusivelyLocked(db.s.collectors, c) {
      SelectWaits(db.cfg, db.s, f);
      granted := false;
    } else {
      GrantFacts(db.cfg, db.s, f);
      db.Take(LockGranted(f));
      granted := true;
    }
  }

  // ---- One chunk ----

  datatype Outcome = Success | Failure | Blocked

  /** The chunks of f linked so far are its first `next`; the last of them in particular. */
  lemma LastLinked(cfg: Config, s: State, f: FileId)
    requires Inv(cfg, s) && f in s.files && f in s.uploads && 0 < s.uploads[f].next <= |s.uploads[f].parts|
    ensures var u, key := s.uploads[f], (f, s.uploads[f].next - 1);
      && key in s.links && s.links[key] in s.chunks && LinkedHash(s, f, u.next - 1) == cfg.sha(u.parts[u.next - 1])
      && (LinkedHash(s, f, u.next - 1) in s.objects <==> s.links[key] !in s.spoiled)
  {
    var u := s.uploads[f];
    assert FileOk(cfg, f, s.files[f], u.parts, u.next, |u.data|, s.links, s.chunks);
    PresenceFacts(cfg, s);
  }

  /** The chunk at which the upload stood as u is linked to a committed row with its digest. */
  ghost predicate LinkedNext(cfg: Config, s: State, f: FileId, u: Upload)
  {
    var key := (f, u.next);
    && f in s.uploads && f in s.files && s.uploads[f].phase.Idle? && s.uploads[f].next == u.next + 1
    && key in s.links && s.links[key] in s.chunks && LinkedHash(s, f, u.next) == Target(cfg, u)
    && (LinkedHash(s, f, u.next) in s.objects <==> s.links[key] !in s.spoiled)
  }

  /** The bytes an upload was given, and its chunks. */
  ghost predicate SameUpload(u: Upload, v: Upload)
  {
    v.owner == u.owner && v.data == u.data && v.parts == u.parts
  }

  /**
   * storeChunk: on success one more chunk of the file is linked, in order, to a committed row with
   * its digest, whose object is there unless a collection failed on it. It fails only if one of
   * its own statements does, if the file's row was deleted meanwhile, or after three lost races.
   */
  method StoreChunk(db: Service, f: FileId, newId: set<ChunkId> -> ChunkId, world: World, luck: ChunkLuck)
    returns (o: Outcome)
    requires db.Valid() && f in db.s.uploads && db.s.uploads[f].phase.Idle?
    requires db.s.uploads[f].next < |db.s.uploads[f].parts|
    requires forall taken :: newId(taken) !in taken
    modifies db
    ensures db.Valid() && f in db.s.uploads && Meanwhile(old(db.s), db.s, f)
    ensures var s, u, v := db.s, old(db.s).uploads[f], db.s.uploads[f];
      && SameUpload(u, v)
      && (o.Success? ==> LinkedNext(db.cfg, s, f, u))
      && (o.Success? ==> luck.Stored?)
      && (o.Failure? ==> v.phase.Dead? && v.next == u.next)
      && (o.Failure? && luck.Stored? ==> f !in s.files || LostThree(s.log, |old(db.s).log|, Target(db.cfg, u)))
      && (o.Blocked? ==> exists b :: WaitsFor(db.cfg, s, Uploader(f), b))
  {
    hide Inv, IsRun, After, Service.Valid, Apply, Enabled;
    if luck.NotBegun? {
      GiveUp(db, f);
      return Failure;
    }
    var r := GetOrCreateChunk(db, f, newId, world);
    match r {
      case StillWaiting =>
        return Blocked;
      case GaveUp =>
        GiveUp(db, f);
        return Failure;
      case New(c) =>
        var uploaded := PutNew(db, f, c, world(9), luck);
        if !uploaded {
          return Failure;
        }
      case Existing(c) =>
        if luck.NotUploaded? {
          GiveUp(db, f);
          return Failure;
        }
    }
    o := LinkAndCommit(db, f, world(10), world(11), luck);
  }

  /** The code gives up, and its transaction rolls back. */
  method GiveUp(db: Service, f: FileId)
    requires db.Valid() && f in db.s.uploads
    modifies db
    ensures db.Valid() && db.s == WithPhase(old(db.s), f, Dead)
  {
    hide Inv, IsRun, After;
    db.Take(Crash(f));
  }

  /** UploadChunk, for a row of the transaction's own. */
  method PutNew(db: Service, f: FileId, c: ChunkId, meanwhile: seq<Step>, luck: ChunkLuck) returns (ok: bool)
    requires db.Valid() && f in db.s.uploads && db.s.uploads[f].phase == Created(c)
    modifies db
    ensures db.Valid() && f in db.s.uploads && Meanwhile(old(db.s), db.s, f) && (ok <==> !luck.NotUploaded?)
    ensures var u, v := old(db.s).uploads[f], db.s.uploads[f];
      SameUpload(u, v) && v.next == u.next && v.phase == if ok then Held(c, true) else Dead
  {
    hide Inv, IsRun, After;
    Others(db, f, meanwhile);
    ok := !luck.NotUploaded?;
    if ok {
      db.Take(PutObject(f));
    } else {
      db.Take(Crash(f));
    }
  }

  /** LinkFileChunk and the commit; a file row deleted meanwhile fails the foreign key. */
  method LinkAndCommit(db: Service, f: FileId, meanwhile: seq<Step>, later: seq<Step>, luck: ChunkLuck)
    returns (o: Outcome)
    requires db.Valid() && f in db.s.uploads && db.s.uploads[f].phase.Held?
    requires db.s.uploads[f].next < |db.s.uploads[f].parts|
    modifies db
    ensures db.Valid() && f in db.s.uploads && Meanwhile(old(db.s), db.s, f) && !o.Blocked?
    ensures var s, u, v := db.s, old(db.s).uploads[f], db.s.uploads[f];
      && SameUpload(u, v)
      && (o.Success? ==> LinkedNext(db.cfg, s, f, u))
      && (o.Success? ==> !luck.NotLinked? && !luck.NotCommitted?)
      && (o.Failure? ==> v.phase.Dead? && v.next == u.next)
      && (o.Failure? && !luck.NotLinked? && !luck.NotCommitted? ==> f !in s.files)
  {
    hide Inv, IsRun, After;
    Others(db, f, meanwhile);
    if luck.NotLinked? || f !in db.s.files {
      db.Take(Crash(f));
      return Failure;
    }
    NextLinkFree(db.cfg, db.s, f);
    db.Take(Link(f));
    Others(db, f, later);
    UploadFacts(db.cfg, db.s, f);
    if luck.NotCommitted? {
      db.Take(Crash(f));
      return Failure;
    }
    CommitNow(db, f);
    return Success;
  }

  method CommitNow(db: Service, f: FileId)
    requires db.Valid() && f in db.s.uploads && db.s.uploads[f].phase.Linked? && f in db.s.files
    requires db.s.uploads[f].next < |db.s.uploads[f].parts|
    modifies db
    ensures db.Valid() && Meanwhile(old(db.s), db.s, f) && LinkedNext(db.cfg, db.s, f, old(db.s).uploads[f])
    ensures SameUpload(old(db.s).uploads[f], db.s.uploads[f])
  {
    hide Inv, IsRun, After;
    db.Take(Commit(f));
    LastLinked(db.cfg, db.s, f);
  }

  // ---- The whole upload ----

  /** The file shows nowhere: its row, if any, is unfinished, and no event speaks of it. */
  ghost predicate Unshown(s: State, f: FileId)
  {
    (f in s.files ==> s.files[f].status.Uploading?) && f !in s.events
  }

  lemma NewFileUnshown(cfg: Config, s: State, f: FileId)
    requires Inv(cfg, s) && f !in s.uploads
    ensures f !in s.files && Unshown(s, f)
  {
    NoRowYet(cfg, s, f);
  }

  lemma OwnersKept(db: Service, f: FileId)
    requires db.Valid() && f in db.s.uploads
    ensures f in db.s.files ==> db.s.files[f].owner == db.s.uploads[f].owner
  {
    assert OwnersAgree(Init().files, Init().uploads);
    OwnersLast(db.cfg, Init(), db.run);
  }

  /**
   * UploadFile in the middle of everything else. On success the file shows with the bytes given,
   * unless someone has deleted its row by then, and belongs to the owner given; otherwise it shows nowhere,
   * and is announced nowhere, and if the clean-up works its row is gone. It fails only through a statement or a read
   * of its own, or because others interfered before `reached`, where the clean-up begins.
   */
  method UploadFile(db: Service, f: FileId, owner: UserId, data: Bytes, newId: set<ChunkId> -> ChunkId,
                    world: nat -> World, luck: UploadLuck) returns (o: Outcome, ghost reached: State)
    requires db.Valid() && f !in db.s.uploads
    requires forall taken :: newId(taken) !in taken
    modifies db
    ensures db.Valid()
    ensures o.Success? ==>
      && luck.Starts() && luck.Streams(Split(data)) && luck.updated
      && (f in db.s.files ==> f in Visible(db.s) && Visible(db.s)[f] == data) && (f in db.s.events <==> luck.published)
    ensures !o.Success? ==> f !in Visible(db.s) && f !in db.s.events
    ensures o.Failure? && luck.cleaned ==> f !in db.s.files
    ensures o.Failure? ==>
      || !luck.Starts() || !luck.Streams(Split(data)) || !luck.updated
      || Interfered(reached, f, |old(db.s).log|)
    ensures o.Failure? ==> db.s == if luck.Starts() && luck.cleaned then DropFiles(reached, {f}) else reached
    ensures o.Blocked? ==> exists b :: WaitsFor(db.cfg, db.s, Uploader(f), b)
    ensures f in db.s.files ==> db.s.files[f].owner == owner
  {
    NewFileUnshown(db.cfg, db.s, f);
    hide Inv, IsRun, After, Split;
    reached := db.s;
    if !luck.Starts() {
      return Failure, reached;
    }
    db.Take(CreateFile(f, owner, data));
    o := StoreAll(db, f, newId, world, luck, owner, data);
    OwnersKept(db, f);
    if o.Blocked? {
      return;
    }
    if o.Success? {
      o := Publishes(db, f, world(|db.s.uploads[f].parts|), luck, owner, data);
    }
    OwnersKept(db, f);
    reached := db.s;
    if o.Failure? {
      Abandon(db, f, luck.cleaned);
    }
  }

  method StoreAll(db: Service, f: FileId, newId: set<ChunkId> -> ChunkId, world: nat -> World, luck: UploadLuck,
                  ghost owner: UserId, ghost data: Bytes)
    returns (o: Outcome)
    requires db.Valid() && f in db.s.uploads && db.s.uploads[f].phase.Idle? && db.s.uploads[f].next == 0
    requires db.s.uploads[f].owner == owner && db.s.uploads[f].data == data && db.s.uploads[f].parts == Split(data)
    requires Unshown(db.s, f)
    requires forall taken :: newId(taken) !in taken
    modifies db
    ensures db.Valid() && f in db.s.uploads && Unshown(db.s, f)
    ensures db.s.uploads[f].owner == owner && db.s.uploads[f].data == data && db.s.uploads[f].parts == Split(data)
    ensures o.Success? ==>
      db.s.uploads[f].phase.Idle? && db.s.uploads[f].next == |Split(data)| && luck.Streams(Split(data))
    ensures o.Failure? ==> db.s.uploads[f].phase.Dead?
    ensures o.Failure? ==> !luck.Streams(Split(data)) || Interfered(db.s, f, |old(db.s).log|)
    ensures o.Blocked? ==> exists b :: WaitsFor(db.cfg, db.s, Uploader(f), b)
  {
    hide Inv, IsRun, After, Split, Service.Valid, WaitsFor, LostThree, LeftAlone, Meanwhile, Unshown, Interfered;
    ghost var mark := |db.s.log|;
    var n, i := |db.s.uploads[f].parts|, 0;
    while i < n
      invariant db.Valid() && f in db.s.uploads && Unshown(db.s, f) && i <= n == |Split(data)|
      invariant AllStored(luck.chunk, i) && AllRead(luck.more, Split(data), i)
      invariant db.s.uploads[f].owner == owner && db.s.uploads[f].data == data && db.s.uploads[f].parts == Split(data)
      invariant db.s.uploads[f].phase.Idle? && db.s.uploads[f].next == i && mark <= |db.s.log|
    {
      ghost var later := |db.s.log|;
      o := StoreNext(db, f, newId, world(i), luck.chunk(i));
      if !o.Success? {
        if o.Failure? && luck.chunk(i).Stored? {
          InterferedSince(db.s, f, mark, later);
        }
        return;
      }
      if |db.s.uploads[f].parts[i]| == CHUNK_SIZE && !luck.more(i + 1) {
        ReadFails(db, f);
        return Failure;
      }
      i := i + 1;
    }
    return Success;
  }

  /** The stream breaks between two chunks. */
  method ReadFails(db: Service, f: FileId)
    requires db.Valid() && f in db.s.uploads && Unshown(db.s, f)
    modifies db
    ensures db.Valid() && f in db.s.uploads && Unshown(db.s, f) && SameUpload(old(db.s).uploads[f], db.s.uploads[f])
    ensures db.s.uploads[f].phase.Dead?
  {
    hide Inv, IsRun, After;
    db.Take(Crash(f));
  }

  /** Others have deleted the file's row, or collected three rows of some digest it needed. */
  ghost predicate Interfered(s: State, f: FileId, mark: nat)
  {
    f !in s.files || exists h :: LostThree(s.log, mark, h)
  }

  lemma LostSince(log: seq<Collected>, mark: nat, later: nat)
    requires mark <= later
    ensures forall h :: LostThree(log, later, h) ==> LostThree(log, mark, h)
  {
  }

  lemma InterferedSince(s: State, f: FileId, mark: nat, later: nat)
    requires mark <= later && Interfered(s, f, later)
    ensures Interfered(s, f, mark)
  {
    LostSince(s.log, mark, later);
  }

  method StoreNext(db: Service, f: FileId, newId: set<ChunkId> -> ChunkId, world: World, luck: ChunkLuck)
    returns (o: Outcome)
    requires db.Valid() && f in db.s.uploads && db.s.uploads[f].phase.Idle?
    requires db.s.uploads[f].next < |db.s.uploads[f].parts|
    requires Unshown(db.s, f) && forall taken :: newId(taken) !in taken
    modifies db
    ensures db.Valid() && f in db.s.uploads && Unshown(db.s, f) && SameUpload(old(db.s).uploads[f], db.s.uploads[f])
    ensures o.Success? ==>
      db.s.uploads[f].phase.Idle? && db.s.uploads[f].next == old(db.s).uploads[f].next + 1 && luck.Stored?
    ensures o.Failure? ==> db.s.uploads[f].phase.Dead?
    ensures o.Failure? && luck.Stored? ==> Interfered(db.s, f, |old(db.s).log|)
    ensures o.Blocked? ==> exists b :: WaitsFor(db.cfg, db.s, Uploader(f), b)
    ensures |old(db.s).log| <= |db.s.log|
  {
    hide Inv, IsRun, After, Service.Valid, WaitsFor, LostThree, LinkedHash;
    ghost var mark := |db.s.log|;
    Others(db, f, world(12));
    ghost var later := |db.s.log|;
    o := StoreChunk(db, f, newId, world, luck);
    LostSince(db.s.log, mark, later);
  }

  method Publishes(db: Service, f: FileId, world: World, luck: UploadLuck, ghost owner: UserId, ghost data: Bytes)
    returns (o: Outcome)
    requires db.Valid() && f in db.s.uploads && db.s.uploads[f].phase.Idle?
    requires db.s.uploads[f].next == |db.s.uploads[f].parts|
    requires db.s.uploads[f].owner == owner && db.s.uploads[f].data == data && Unshown(db.s, f)
    modifies db
    ensures db.Valid() && f in db.s.uploads && !o.Blocked? && (o.Success? <==> luck.updated)
    ensures db.s.uploads[f].owner == owner
    ensures o.Success? ==>
      (f in db.s.files ==> f in Visible(db.s) && Visible(db.s)[f] == data) && (f in db.s.events <==> luck.published)
    ensures o.Failure? ==> Unshown(db.s, f) && db.s.uploads[f].phase.Dead?
  {
    hide Inv, IsRun, After;
    Others(db, f, world(0));
    if !luck.updated {
      db.Take(Crash(f));
      return Failure;
    }
    db.Take(Finish(f));
    Others(db, f, world(1));
    if luck.published {
      db.Take(Publish(f));
    }
    return Success;
  }

  method Abandon(db: Service, f: FileId, cleaned: bool)
    requires db.Valid() && f in db.s.uploads && db.s.uploads[f].phase.Dead? && Unshown(db.s, f)
    modifies db
    ensures db.Valid() && Unshown(db.s, f) && db.s == if cleaned then DropFiles(old(db.s), {f}) else old(db.s)
  {
    hide Inv, IsRun, After;
    if cleaned {
      db.Take(RemoveFiles({f}));
    }
  }
}
