// What holds in every reachable state of the store: no broken links, which objects can be
// missing, and that the whole machine behaves as a map from file id to bytes.
module StoreTheorems {
  import opened Chunking
  import opened StoreProtocol
  import opened StoreInvariant

  lemma {:induction false} ReachableInv(cfg: Config, run: seq<Step>)
    requires IsRun(cfg, Init(), run)
    ensures Inv(cfg, After(cfg, Init(), run))
  {
    hide IsRun, After;
    assert Inv(cfg, Init());
    RunKeeps(cfg, Init(), run);
  }

  // ---- Links and objects ----

  /** Whatever happens, links point at rows, and objects hash to their keys. */
  lemma LinksAndObjectsSound(cfg: Config, run: seq<Step>)
    requires IsRun(cfg, Init(), run)
    ensures var s := After(cfg, Init(), run);
      && (forall k :: k in s.links ==> k.0 in s.files && s.links[k] in s.chunks)
      && (forall h :: h in s.objects ==> cfg.sha(s.objects[h]) == h)
  {
    hide IsRun, After;
    ReachableInv(cfg, run);
  }

  /** A link whose chunk row or object is missing. */
  ghost predicate Dangles(s: State, k: (FileId, nat))
    requires k in s.links
  {
    s.links[k] in s.chunks ==> s.chunks[s.links[k]].hash !in s.objects
  }

  /** A link dangles exactly while a collection has deleted its object and not committed. */
  lemma DanglesExactly(cfg: Config, run: seq<Step>, k: (FileId, nat))
    requires IsRun(cfg, Init(), run) && k in After(cfg, Init(), run).links
    ensures var s := After(cfg, Init(), run);
      Dangles(s, k) <==> s.links[k] in s.spoiled
  {
    hide IsRun, After;
    ReachableInv(cfg, run);
  }

  /** A linked chunk whose object was deleted by a collection that has not failed: only without the atomic check. */
  lemma ErasedWhileLinked(cfg: Config, s: State, k: (FileId, nat))
    requires Inv(cfg, s) && k in s.links && s.links[k] in s.spoiled && s.links[k] !in s.failed
    ensures cfg.mode.SnapshotCheck?
    ensures exists g :: g in s.collectors && s.collectors[g].phase == Erased(s.links[k])
  {
    hide ShapesOk, TxsOk, PendingApart, LocksApart, LocksExclude, RowsOk, LinksOk, ObjectsOk, PresenceOk, FilesOk,
      PhasesOk, EventsOk;
    var g :| g in s.collectors && HasErased(s.collectors[g].phase, s.links[k]);
    CollectorFacts(cfg, s, g);
    assert !Unlinked(s.links, s.links[k]);
  }

  /** The primary key of file_chunks never stops an upload. */
  lemma NextLinkFree(cfg: Config, s: State, f: FileId)
    requires Inv(cfg, s) && f in s.uploads && f in s.files
    ensures (f, s.uploads[f].next) !in s.links
  {
    assert FileOk(cfg, f, s.files[f], s.uploads[f].parts, s.uploads[f].next, |s.uploads[f].data|, s.links, s.chunks);
  }

  // ---- Failed collections ----

  /** The chunk whose collection this step ends after the object was deleted and before the commit. */
  function BrokenOff(s: State, step: Step): set<ChunkId>
  {
    if step.GcFail? && step.g in s.collectors
       && (s.collectors[step.g].phase.Erased? || s.collectors[step.g].phase.Removed?)
    then {s.collectors[step.g].phase.id} else {}
  }

  /** The chunks that some collection of the run left like that. */
  ghost function FailedIn(cfg: Config, s: State, run: seq<Step>): set<ChunkId>
    requires IsRun(cfg, s, run)
    decreases |run|
  {
    if run == [] then {} else BrokenOff(s, run[0]) + FailedIn(cfg, Apply(cfg, s, run[0]), run[1..])
  }

  lemma {:induction false} FailedExactly(cfg: Config, s: State, run: seq<Step>)
    requires IsRun(cfg, s, run)
    ensures After(cfg, s, run).failed == s.failed + FailedIn(cfg, s, run)
    decreases |run|
  {
    if run != [] {
      FailedStep(cfg, s, run[0]);
      hide Apply, Enabled, BrokenOff;
      FailedExactly(cfg, Apply(cfg, s, run[0]), run[1..]);
    }
  }

  lemma FailedStep(cfg: Config, s: State, step: Step)
    requires Enabled(cfg, s, step)
    ensures Apply(cfg, s, step).failed == s.failed + BrokenOff(s, step)
  {
    hide HasRow, PendingElsewhere, Unlinked, ExclusivelyLocked, ShareLocked, Orphans, Split;
  }

  /** What a failed collection leaves stays spoiled for as long as its row exists. */
  ghost predicate FailuresStay(failed: set<ChunkId>, known: set<ChunkId>, chunks: Chunks, spoiled: set<ChunkId>)
  {
    forall c :: c in failed ==> c in known && (c in chunks ==> c in spoiled)
  }

  lemma FailureStep(cfg: Config, s: State, step: Step)
    requires Inv(cfg, s) && Enabled(cfg, s, step) && FailuresStay(s.failed, s.known, s.chunks, s.spoiled)
    ensures var t := Apply(cfg, s, step); FailuresStay(t.failed, t.known, t.chunks, t.spoiled)
  {
    hide Inv;
    FailedStep(cfg, s, step);
    if step.Commit? {
      UploadFacts(cfg, s, step.f);
    } else if step.GcFail? {
      CollectorFacts(cfg, s, step.g);
    } else if !step.Erase? && !step.GcCommit? {
      SameRows(cfg, s, step);
      hide Apply, Enabled;
    }
  }

  lemma SameRows(cfg: Config, s: State, step: Step)
    requires Enabled(cfg, s, step) && !step.Commit? && !step.GcFail? && !step.Erase? && !step.GcCommit?
    ensures var t := Apply(cfg, s, step); t.chunks == s.chunks && t.known == s.known && t.spoiled == s.spoiled
  {
    hide HasRow, PendingElsewhere, Unlinked, ExclusivelyLocked, ShareLocked, Orphans, Split;
  }

  lemma {:induction false} FailuresLast(cfg: Config, s: State, run: seq<Step>)
    requires Inv(cfg, s) && IsRun(cfg, s, run) && FailuresStay(s.failed, s.known, s.chunks, s.spoiled)
    ensures var t := After(cfg, s, run); FailuresStay(t.failed, t.known, t.chunks, t.spoiled)
    decreases |run|
  {
    hide Inv, Enabled, Apply, FailuresStay;
    if run != [] {
      StepKeeps(cfg, s, run[0]);
      FailureStep(cfg, s, run[0]);
      FailuresLast(cfg, Apply(cfg, s, run[0]), run[1..]);
    }
  }

  /** What is known of a linked chunk in a reachable state. */
  lemma LinkedFacts(cfg: Config, run: seq<Step>, k: (FileId, nat))
    requires IsRun(cfg, Init(), run) && k in After(cfg, Init(), run).links
    ensures var s := After(cfg, Init(), run);
      && Inv(cfg, s) && s.failed == FailedIn(cfg, Init(), run)
      && (Dangles(s, k) <==> s.links[k] in s.spoiled) && (s.links[k] in s.failed ==> s.links[k] in s.spoiled)
  {
    assert Inv(cfg, Init());
    ReachableInv(cfg, run);
    DanglesExactly(cfg, run, k);
    FailedExactly(cfg, Init(), run);
    FailuresLast(cfg, Init(), run);
    hide IsRun, After, FailedIn;
    LinksAndObjectsSound(cfg, run);
  }

  /**
   * With an atomic check-and-lock, a link dangles exactly when a collection of the run deleted its
   * object and then failed to commit.
   */
  lemma DanglesOnlyByFailure(cfg: Config, run: seq<Step>, k: (FileId, nat))
    requires IsRun(cfg, Init(), run) && k in After(cfg, Init(), run).links
    requires cfg.mode.AtomicCheck?
    ensures Dangles(After(cfg, Init(), run), k) <==> After(cfg, Init(), run).links[k] in FailedIn(cfg, Init(), run)
  {
    LinkedFacts(cfg, run, k);
    hide IsRun, After, Inv, FailedIn, Init;
    var s := After(cfg, Init(), run);
    if s.links[k] in s.spoiled && s.links[k] !in s.failed {
      ErasedWhileLinked(cfg, s, k);
    }
  }

  /** A collection that deleted the object of a linked chunk and has not failed yet. */
  predicate ErasedOnly(s: State, c: ChunkId)
  {
    exists g :: g in s.collectors && s.collectors[g].phase == Erased(c)
  }

  /**
   * Whatever the check guarantees, a link dangles exactly when a collection failed like that, or
   * one has just deleted the object.
   */
  lemma DanglesUnderSnapshot(cfg: Config, run: seq<Step>, k: (FileId, nat))
    requires IsRun(cfg, Init(), run) && k in After(cfg, Init(), run).links
    ensures var s := After(cfg, Init(), run);
      Dangles(s, k) <==> s.links[k] in FailedIn(cfg, Init(), run) || ErasedOnly(s, s.links[k])
  {
    LinkedFacts(cfg, run, k);
    hide IsRun, After, Inv, FailedIn, Init;
    var s := After(cfg, Init(), run);
    if s.links[k] in s.spoiled && s.links[k] !in s.failed {
      ErasedWhileLinked(cfg, s, k);
    }
    if g :| g in s.collectors && s.collectors[g].phase == Erased(s.links[k]) {
      CollectorFacts(cfg, s, g);
    }
  }

  /** Such a collection cannot get further: the foreign key stops it deleting the row, so all it can do is fail. */
  lemma ErasedCanOnlyFail(cfg: Config, s: State, k: (FileId, nat), g: CollectorId)
    requires k in s.links && g in s.collectors && s.collectors[g].phase == Erased(s.links[k])
    ensures !Enabled(cfg, s, DeleteRow(g)) && Enabled(cfg, s, GcFail(g))
  {
    assert !Unlinked(s.links, s.links[k]);
  }

  /** In a run without such a failure no link ever dangles. */
  lemma NoFailureNoDangling(cfg: Config, run: seq<Step>)
    requires IsRun(cfg, Init(), run) && cfg.mode.AtomicCheck? && FailedIn(cfg, Init(), run) == {}
    ensures var s := After(cfg, Init(), run); forall k :: k in s.links ==> !Dangles(s, k)
  {
    hide IsRun, After, FailedIn;
    var s := After(cfg, Init(), run);
    forall k | k in s.links ensures !Dangles(s, k) {
      DanglesOnlyByFailure(cfg, run, k);
    }
  }

  // ---- The store as a map from file id to bytes ----

  /** The files a user can download, with the bytes that were uploaded. */
  ghost function Visible(s: State): map<FileId, Bytes>
  {
    map f | f in s.files && s.files[f].status.Ready? && f in s.uploads :: s.uploads[f].data
  }

  /**
   * The abstract store: finishing an upload publishes its bytes, unless its row is gone by then;
   * removing files removes them; nothing else shows.
   */
  ghost predicate MapStep(s: State, step: Step, before: map<FileId, Bytes>, after: map<FileId, Bytes>)
  {
    match step
    case Finish(f) => f in s.uploads && after == if f in s.files then before[f := s.uploads[f].data] else before
    case RemoveFiles(gone) => after == before - gone
    case _ => after == before
  }

  lemma FinishRefines(s: State, f: FileId)
    requires f in s.uploads
    ensures Visible(FinishUpload(s, f)) == if f in s.files then Visible(s)[f := s.uploads[f].data] else Visible(s)
  {
    var t := FinishUpload(s, f);
    if f in s.files {
      assert Visible(t) == Visible(s)[f := s.uploads[f].data];
    } else {
      assert Visible(t) == Visible(s);
    }
  }

  lemma CreateRefines(cfg: Config, s: State, f: FileId, owner: UserId, data: Bytes)
    requires Inv(cfg, s) && f !in s.uploads
    ensures Visible(Apply(cfg, s, CreateFile(f, owner, data))) == Visible(s)
  {
    NoRowYet(cfg, s, f);
  }

  lemma OtherRefines(cfg: Config, s: State, step: Step)
    requires Enabled(cfg, s, step) && !step.CreateFile? && !step.Finish? && !step.RemoveFiles?
    ensures Visible(Apply(cfg, s, step)) == Visible(s)
  {
    hide Enabled, Apply;
    SameData(cfg, s, step);
  }

  /** Every step of the protocol is a step of the map. */
  lemma StepRefines(cfg: Config, s: State, step: Step)
    requires Inv(cfg, s) && Enabled(cfg, s, step)
    ensures MapStep(s, step, Visible(s), Visible(Apply(cfg, s, step)))
  {
    hide Inv, Visible;
    if step.CreateFile? {
      CreateRefines(cfg, s, step.f, step.owner, step.data);
    } else if step.Finish? {
      FinishRefines(s, step.f);
    } else if step.RemoveFiles? {
      DropRefines(s, step.gone);
    } else {
      OtherRefines(cfg, s, step);
      hide Enabled, Apply;
    }
  }

  lemma DropRefines(s: State, gone: set<FileId>)
    ensures Visible(DropFiles(s, gone)) == Visible(s) - gone
  {
  }

  lemma NoRowYet(cfg: Config, s: State, f: FileId)
    requires Inv(cfg, s) && f !in s.uploads
    ensures f !in s.files
  {
  }

  /** Who uploads, and what. */
  predicate SameOrigin(u: Upload, v: Upload)
  {
    v.owner == u.owner && v.data == u.data
  }

  /** Only CreateFile, Finish and RemoveFiles touch file rows, and nothing ever changes an upload's owner or bytes. */
  lemma SameData(cfg: Config, s: State, step: Step)
    requires Enabled(cfg, s, step)
    ensures var t := Apply(cfg, s, step);
      && (forall f :: f in s.uploads ==> f in t.uploads && SameOrigin(s.uploads[f], t.uploads[f]))
      && (!step.CreateFile? ==> t.uploads.Keys == s.uploads.Keys)
      && (!step.CreateFile? && !step.Finish? && !step.RemoveFiles? ==> t.files == s.files)
  {
    SameBytes(cfg, s, step);
    if !step.CreateFile? && !step.Finish? && !step.RemoveFiles? {
      SameFiles(cfg, s, step);
    }
    hide Enabled, Apply;
  }

  lemma SameBytes(cfg: Config, s: State, step: Step)
    requires Enabled(cfg, s, step)
    ensures var t := Apply(cfg, s, step);
      && (forall f :: f in s.uploads ==> f in t.uploads && SameOrigin(s.uploads[f], t.uploads[f]))
      && (!step.CreateFile? ==> t.uploads.Keys == s.uploads.Keys)
  {
    hide HasRow, PendingElsewhere, Unlinked, ExclusivelyLocked, ShareLocked, Orphans, Split;
    if IsCollectorStep(step) {
      CollectorSameUploads(cfg, s, step);
      hide Enabled, Apply;
    } else {
      UploadSameBytes(cfg, s, step);
      hide Enabled, Apply;
    }
  }

  lemma UploadSameBytes(cfg: Config, s: State, step: Step)
    requires Enabled(cfg, s, step) && !IsCollectorStep(step)
    ensures var t := Apply(cfg, s, step);
      && (forall f :: f in s.uploads ==> f in t.uploads && SameOrigin(s.uploads[f], t.uploads[f]))
      && (!step.CreateFile? ==> t.uploads.Keys == s.uploads.Keys)
  {
    hide HasRow, PendingElsewhere, Unlinked, ExclusivelyLocked, ShareLocked, Orphans, Split;
  }

  lemma CollectorSameUploads(cfg: Config, s: State, step: Step)
    requires Enabled(cfg, s, step) && IsCollectorStep(step)
    ensures Apply(cfg, s, step).uploads == s.uploads
  {
    hide HasRow, PendingElsewhere, Unlinked, ExclusivelyLocked, ShareLocked, Orphans, Split;
  }

  lemma SameFiles(cfg: Config, s: State, step: Step)
    requires Enabled(cfg, s, step) && !step.CreateFile? && !step.Finish? && !step.RemoveFiles?
    ensures Apply(cfg, s, step).files == s.files
  {
    hide HasRow, PendingElsewhere, Unlinked, ExclusivelyLocked, ShareLocked, Orphans, Split;
  }

  /** What a reader sees for a file id is what some CreateFile of the run was given for it, and so is who asked. */
  lemma {:induction false} UploadedByRun(cfg: Config, s: State, run: seq<Step>, f: FileId)
    requires IsRun(cfg, s, run) && f !in s.uploads && f in After(cfg, s, run).uploads
    ensures var u := After(cfg, s, run).uploads[f];
      exists i :: 0 <= i < |run| && run[i] == CreateFile(f, u.owner, u.data)
    decreases |run|
  {
    var step := run[0];
    var t := Apply(cfg, s, step);
    var u := After(cfg, s, run).uploads[f];
    if f in t.uploads {
      SameData(cfg, s, step);
      OriginStays(cfg, t, run[1..], f);
      assert run[0] == CreateFile(f, u.owner, u.data);
    } else {
      UploadedByRun(cfg, t, run[1..], f);
      var i :| 0 <= i < |run[1..]| && run[1..][i] == CreateFile(f, u.owner, u.data);
      assert run[i + 1] == CreateFile(f, u.owner, u.data);
    }
  }

  lemma {:induction false} OriginStays(cfg: Config, s: State, run: seq<Step>, f: FileId)
    requires IsRun(cfg, s, run) && f in s.uploads
    ensures f in After(cfg, s, run).uploads && SameOrigin(s.uploads[f], After(cfg, s, run).uploads[f])
    decreases |run|
  {
    if run != [] {
      SameData(cfg, s, run[0]);
      OriginStays(cfg, Apply(cfg, s, run[0]), run[1..], f);
    }
  }

  // ---- Who a file belongs to ----

  /** Every file row carries the owner of its upload. */
  ghost predicate OwnersAgree(files: map<FileId, FileRow>, uploads: Uploads)
  {
    forall f :: f in files ==> f in uploads && files[f].owner == uploads[f].owner
  }

  lemma OwnerStep(cfg: Config, s: State, step: Step)
    requires Enabled(cfg, s, step) && OwnersAgree(s.files, s.uploads)
    ensures var t := Apply(cfg, s, step); OwnersAgree(t.files, t.uploads)
  {
    SameData(cfg, s, step);
    if !step.CreateFile? && !step.Finish? && !step.RemoveFiles? {
      hide Apply, Enabled;
    }
  }

  lemma {:induction false} OwnersLast(cfg: Config, s: State, run: seq<Step>)
    requires IsRun(cfg, s, run) && OwnersAgree(s.files, s.uploads)
    ensures var t := After(cfg, s, run); OwnersAgree(t.files, t.uploads)
    decreases |run|
  {
    hide Enabled, Apply, OwnersAgree;
    if run != [] {
      OwnerStep(cfg, s, run[0]);
      OwnersLast(cfg, Apply(cfg, s, run[0]), run[1..]);
    }
  }

  /** A file row belongs to the user for whom the run created the file, with the bytes given then. */
  lemma FileBelongsToUploader(cfg: Config, run: seq<Step>, f: FileId)
    requires IsRun(cfg, Init(), run) && f in After(cfg, Init(), run).files
    ensures var s := After(cfg, Init(), run);
      && f in s.uploads
      && (exists i :: 0 <= i < |run| && run[i] == CreateFile(f, s.files[f].owner, s.uploads[f].data))
      && (s.files[f].status.Ready? ==> f in Visible(s) && Visible(s)[f] == s.uploads[f].data)
  {
    assert OwnersAgree(Init().files, Init().uploads);
    OwnersLast(cfg, Init(), run);
    UploadedByRun(cfg, Init(), run, f);
  }

  // ---- Reading a file back ----

  /** GetFileChunks: the indices linked to f, in increasing order. */
  ghost predicate IsChunkList(links: Links, f: FileId, indices: seq<nat>)
  {
    && (forall i, j :: 0 <= i < j < |indices| ==> indices[i] < indices[j])
    && (forall i: nat :: i in indices <==> (f, i) in links)
  }

  lemma FirstIsMember(indices: seq<nat>)
    requires indices != []
    ensures exists i: nat :: i in indices
  {
    assert indices[0] in indices;
  }

  lemma {:induction false} OrderedIsRange(indices: seq<nat>, n: nat)
    requires forall i, j :: 0 <= i < j < |indices| ==> indices[i] < indices[j]
    requires forall i: nat :: i in indices <==> i < n
    ensures |indices| == n && forall i :: 0 <= i < n ==> indices[i] == i
    decreases n
  {
    if n == 0 {
      if indices != [] {
        FirstIsMember(indices);
      }
    } else {
      var last := |indices| - 1;
      assert n - 1 in indices;
      var j :| 0 <= j < |indices| && indices[j] == n - 1;
      assert indices[last] in indices;
      assert j == last;
      var init := indices[..last];
      forall i: nat ensures i in init <==> i < n - 1 {
        if i in init {
          var x :| 0 <= x < |init| && init[x] == i;
          assert indices[x] == i && i in indices;
        }
        if i < n - 1 {
          assert i in indices;
          var x :| 0 <= x < |indices| && indices[x] == i;
          assert init[x] == i;
        }
      }
      OrderedIsRange(init, n - 1);
    }
  }

  /** The hash under which chunk i of f is stored. */
  ghost function LinkedHash(s: State, f: FileId, i: nat): Digest
    requires (f, i) in s.links && s.links[(f, i)] in s.chunks
  {
    s.chunks[s.links[(f, i)]].hash
  }

  /** A ready file has links 0 .. k-1, one per chunk of its stream, and the stream's size. */
  lemma ReadyFileShape(cfg: Config, run: seq<Step>, f: FileId, indices: seq<nat>)
    requires IsRun(cfg, Init(), run)
    requires var s := After(cfg, Init(), run); f in Visible(s) && IsChunkList(s.links, f, indices)
    ensures var s := After(cfg, Init(), run);
      var parts := Split(Visible(s)[f]);
      && WellChunked(parts) && Concat(parts) == Visible(s)[f]
      && |indices| == |parts| && s.files[f].size == |Visible(s)[f]|
      && forall i :: 0 <= i < |parts| ==>
           && indices[i] == i && (f, i) in s.links && s.links[(f, i)] in s.chunks
           && LinkedHash(s, f, i) == cfg.sha(parts[i])
  {
    hide IsRun, After;
    var s := After(cfg, Init(), run);
    ReachableInv(cfg, run);
    hide TxsOk, PendingApart, CollectorsOk, LocksApart, LocksExclude, RowsOk, ObjectsOk, PresenceOk, SpoiledOk,
      PhasesOk, EventsOk;
    var u := s.uploads[f];
    assert ShapeOk(u);
    assert FileOk(cfg, f, s.files[f], u.parts, u.next, |u.data|, s.links, s.chunks);
    SplitIsWellChunked(u.data);
    OrderedIsRange(indices, |u.parts|);
  }

  ghost predicate CollisionFree(cfg: Config, uploads: Uploads)
  {
    forall a, b :: Occurs(uploads, a) && Occurs(uploads, b) && cfg.sha(a) == cfg.sha(b) ==> a == b
  }

  /** The objects a download fetches, in order. */
  ghost predicate Fetches(s: State, f: FileId, indices: seq<nat>, bodies: seq<Bytes>)
  {
    && |bodies| == |indices|
    && forall i :: 0 <= i < |indices| ==>
         && (f, indices[i]) in s.links && s.links[(f, indices[i])] in s.chunks
         && LinkedHash(s, f, indices[i]) in s.objects && s.objects[LinkedHash(s, f, indices[i])] == bodies[i]
  }

  /** Fetching a ready file's chunks in index order and joining them gives the bytes uploaded. */
  lemma ReadyFileReadsBack(cfg: Config, run: seq<Step>, f: FileId, indices: seq<nat>, bodies: seq<Bytes>)
    requires IsRun(cfg, Init(), run)
    requires var s := After(cfg, Init(), run);
      && f in Visible(s) && IsChunkList(s.links, f, indices) && Fetches(s, f, indices, bodies)
      && CollisionFree(cfg, s.uploads)
    ensures bodies == Split(Visible(After(cfg, Init(), run))[f])
    ensures Concat(bodies) == Visible(After(cfg, Init(), run))[f]
  {
    ReadyFileShape(cfg, run, f, indices);
    ReachableInv(cfg, run);
    hide IsRun, After, Init, Inv;
    var s := After(cfg, Init(), run);
    ObjectFacts(cfg, s, f);
    var parts := Split(Visible(s)[f]);
    hide Split, ObjectsOk, CollisionFree, Occurs, Concat, WellChunked;
    forall i | 0 <= i < |parts| ensures bodies[i] == parts[i] {
      PartReadsBack(cfg, s.objects, s.uploads, f, i, LinkedHash(s, f, i));
    }
    assert bodies == parts;
  }

  lemma ObjectFacts(cfg: Config, s: State, f: FileId)
    requires Inv(cfg, s) && f in s.uploads
    ensures ObjectsOk(cfg, s.objects, s.uploads) && s.uploads[f].parts == Split(s.uploads[f].data)
  {
    assert ShapeOk(s.uploads[f]);
  }

  /** The object under a chunk's digest is that chunk. */
  lemma PartReadsBack(cfg: Config, objects: map<Digest, Bytes>, uploads: Uploads, f: FileId, i: nat, h: Digest)
    requires ObjectsOk(cfg, objects, uploads) && CollisionFree(cfg, uploads)
    requires f in uploads && i < |uploads[f].parts| && h == cfg.sha(uploads[f].parts[i]) && h in objects
    ensures objects[h] == uploads[f].parts[i]
  {
    assert Occurs(uploads, uploads[f].parts[i]);
  }

  lemma PresenceFacts(cfg: Config, s: State)
    requires Inv(cfg, s)
    ensures PresenceOk(s.chunks, s.objects, s.spoiled)
  {
  }

  /** Every ready file none of whose chunks is spoiled can be fetched in full. */
  lemma ReadyFileFetchable(cfg: Config, run: seq<Step>, f: FileId, indices: seq<nat>)
    returns (bodies: seq<Bytes>)
    requires IsRun(cfg, Init(), run)
    requires var s := After(cfg, Init(), run);
      && f in Visible(s) && IsChunkList(s.links, f, indices)
      && forall i: nat :: (f, i) in s.links ==> s.links[(f, i)] !in s.spoiled
    ensures Fetches(After(cfg, Init(), run), f, indices, bodies)
  {
    hide IsRun, After, Init, Inv;
    var s := After(cfg, Init(), run);
    ReadyFileShape(cfg, run, f, indices);
    ReachableInv(cfg, run);
    PresenceFacts(cfg, s);
    hide Visible;
    forall i | 0 <= i < |indices| ensures LinkedHash(s, f, indices[i]) in s.objects {
      assert (f, indices[i]) in s.links;
    }
    bodies := seq(|indices|, i requires 0 <= i < |indices| => s.objects[LinkedHash(s, f, indices[i])]);
  }

  // ---- Events ----

  /** A file with a file_uploaded event is gone or complete, now and ever after, so reading it unchecked is safe. */
  lemma EventFilesComplete(cfg: Config, run: seq<Step>, later: seq<Step>, f: FileId)
    requires IsRun(cfg, Init(), run) && f in After(cfg, Init(), run).events
    requires IsRun(cfg, After(cfg, Init(), run), later)
    ensures var s := After(cfg, After(cfg, Init(), run), later);
      f in s.events && (f in s.files ==> s.files[f].status.Ready? && f in Visible(s))
  {
    var r := After(cfg, Init(), run);
    ReachableInv(cfg, run);
    EventsGrow(cfg, r, later);
    hide IsRun, After;
    RunKeeps(cfg, r, later);
  }

  lemma {:induction false} EventsGrow(cfg: Config, s: State, run: seq<Step>)
    requires IsRun(cfg, s, run)
    ensures s.events <= After(cfg, s, run).events
    decreases |run|
  {
    if run != [] {
      EventsStep(cfg, s, run[0]);
      hide Apply, Enabled;
      EventsGrow(cfg, Apply(cfg, s, run[0]), run[1..]);
    }
  }

  lemma EventsStep(cfg: Config, s: State, step: Step)
    requires Enabled(cfg, s, step)
    ensures s.events <= Apply(cfg, s, step).events
  {
  }
}
