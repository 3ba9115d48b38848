// Two runs in which a ready file loses its only chunk. They show that the hypotheses of the
// theorems on dangling links are needed, against two comments in the source.
module StoreLosses {
  import opened Chunking
  import opened StoreProtocol
  import opened StoreTheorems

  const BODY: Bytes := [0]

  lemma OneByteSplit()
    ensures Split(BODY) == [BODY]
  {
  }

  ghost predicate Reaches(cfg: Config, run: seq<Step>, s: State)
  {
    IsRun(cfg, Init(), run) && After(cfg, Init(), run) == s
  }

  lemma Take(cfg: Config, run: seq<Step>, s: State, step: Step) returns (run': seq<Step>, t: State)
    requires Reaches(cfg, run, s) && Enabled(cfg, s, step)
    ensures run' == run + [step] && t == Apply(cfg, s, step) && Reaches(cfg, run', t)
  {
    RunAppend(cfg, Init(), run, step);
    run', t := run + [step], Apply(cfg, s, step);
  }

  predicate Undisturbed(run: seq<Step>)
  {
    forall i :: 0 <= i < |run| ==> !run[i].Crash? && !run[i].GcFail?
  }

  /** A collector has found the chunk of a deleted one-byte file unreferenced and is about to lock it. */
  ghost predicate AboutToLock(cfg: Config, s: State)
  {
    && s.files == map[] && s.links == map[] && s.used == {0}
    && (exists at, size :: s.chunks == map[0 := ChunkRow(cfg.sha(BODY), size, at)])
    && s.collectors == map[0 := Collector(map[0 := cfg.sha(BODY)], Checked(0))]
    && s.uploads.Keys == {0} && s.uploads[0].phase == Idle
  }

  lemma CandidateFound(cfg: Config) returns (run: seq<Step>, s: State)
    ensures Reaches(cfg, run, s) && AboutToLock(cfg, s) && Undisturbed(run)
  {
    OneByteSplit();
    var h := cfg.sha(BODY);
    hide IsRun, After, Split, Reaches;
    run, s := Deleted(cfg);
    run, s := Take(cfg, run, s, Tick(cfg.minAge + 1));
    run, s := Take(cfg, run, s, Scan(0));
    assert s.collectors[0].candidates == map[0 := h];
    run, s := Take(cfg, run, s, Check(0, 0));
    assert s.collectors == map[0 := Collector(map[0 := h], Checked(0))];
  }

  lemma Deleted(cfg: Config) returns (run: seq<Step>, s: State)
    ensures Reaches(cfg, run, s) && Undisturbed(run)
    ensures s.files == map[] && s.links == map[] && s.chunks == map[0 := ChunkRow(cfg.sha(BODY), 1, 0)]
    ensures s.collectors == map[] && s.uploads.Keys == {0} && s.uploads[0].phase == Idle && s.now == 0 && s.used == {0}
  {
    run, s := CreatedAndStored(cfg);
    hide IsRun, After, Split, Reaches;
    run, s := Take(cfg, run, s, RemoveFiles({0}));
    assert s.files == map[] && s.links == map[];
  }

  lemma Inserted(cfg: Config) returns (run: seq<Step>, s: State)
    ensures Reaches(cfg, run, s) && Undisturbed(run)
    ensures s == Init().(files := map[0 := FileRow(0, 0, Uploading, 0)], used := {0},
      uploads := map[0 := Upload(0, BODY, [BODY], 0, Created(0), 0, 0)])
  {
    OneByteSplit();
    run, s := [], Init();
    assert Reaches(cfg, run, s);
    hide IsRun, After, Split, Reaches;
    run, s := Take(cfg, run, s, CreateFile(0, 0, BODY));
    run, s := Take(cfg, run, s, Begin(0));
    run, s := Take(cfg, run, s, InsertWins(0, 0));
    assert s.used == {0};
  }

  lemma CreatedAndStored(cfg: Config) returns (run: seq<Step>, s: State)
    ensures Reaches(cfg, run, s) && Undisturbed(run)
    ensures s.files.Keys == {0} && s.links == map[(0, 0) := 0] && s.chunks == map[0 := ChunkRow(cfg.sha(BODY), 1, 0)]
    ensures s.collectors == map[] && s.uploads.Keys == {0} && s.uploads[0].phase == Idle && s.now == 0 && s.used == {0}
  {
    run, s := Inserted(cfg);
    hide IsRun, After, Split, Reaches;
    run, s := Take(cfg, run, s, PutObject(0));
    run, s := Take(cfg, run, s, Link(0));
    run, s := Take(cfg, run, s, Commit(0));
  }

  /** A second upload of the same bytes finds the old row. */
  lemma SeesOldRow(cfg: Config, run0: seq<Step>, s0: State) returns (run: seq<Step>, s: State)
    requires Reaches(cfg, run0, s0) && s0.files == map[] && s0.uploads.Keys == {0}
    requires 0 in s0.chunks && s0.chunks[0].hash == cfg.sha(BODY)
    ensures Reaches(cfg, run, s) && (Undisturbed(run0) ==> Undisturbed(run))
    ensures s == s0.(files := map[1 := FileRow(0, 0, Uploading, s0.now)],
      uploads := s0.uploads[1 := Upload(0, BODY, [BODY], 0, Waiting(0, 0), s0.now, |s0.log|)])
  {
    OneByteSplit();
    hide IsRun, After, Split, Reaches;
    run, s := Take(cfg, run0, s0, CreateFile(1, 0, BODY));
    run, s := Take(cfg, run, s, Begin(1));
    run, s := Take(cfg, run, s, InsertLoses(1));
    run, s := Take(cfg, run, s, SelectSees(1, 0));
  }

  lemma LinksOldRow(cfg: Config, run0: seq<Step>, s0: State) returns (run: seq<Step>, s: State)
    requires Reaches(cfg, run0, s0) && s0.files == map[] && s0.links == map[] && s0.uploads.Keys == {0}
    requires 0 in s0.chunks && s0.chunks[0].hash == cfg.sha(BODY) && !ExclusivelyLocked(s0.collectors, 0)
    ensures Reaches(cfg, run, s) && (Undisturbed(run0) ==> Undisturbed(run))
    ensures s == s0.(files := map[1 := FileRow(0, 0, Uploading, s0.now)],
      uploads := s0.uploads[1 := Upload(0, BODY, [BODY], 0, Linked(0, false), s0.now, |s0.log|)])
  {
    run, s := SeesOldRow(cfg, run0, s0);
    hide IsRun, After, Split, Reaches;
    run, s := Take(cfg, run, s, LockGranted(1));
    run, s := Take(cfg, run, s, Link(1));
  }

  /** It adopts the row, if nobody holds it exclusively. */
  lemma Adopt(cfg: Config, run0: seq<Step>, s0: State) returns (run: seq<Step>, s: State)
    requires Reaches(cfg, run0, s0) && s0.files == map[] && s0.links == map[] && s0.uploads.Keys == {0}
    requires 0 in s0.chunks && s0.chunks[0].hash == cfg.sha(BODY) && !ExclusivelyLocked(s0.collectors, 0)
    ensures Reaches(cfg, run, s) && (Undisturbed(run0) ==> Undisturbed(run))
    ensures s.chunks == s0.chunks && s.objects == s0.objects && s.collectors == s0.collectors
    ensures s.links == map[(1, 0) := 0] && 1 in Visible(s) && Visible(s)[1] == BODY
    ensures s.uploads.Keys == {0, 1} && s.uploads[0] == s0.uploads[0] && s.uploads[1].phase == Done
  {
    run, s := LinksOldRow(cfg, run0, s0);
    hide IsRun, After, Split, Reaches;
    run, s := Take(cfg, run, s, Commit(1));
    run, s := Take(cfg, run, s, Finish(1));
  }

  /**
   * A crash between deleting the object and committing leaves the row, and a later upload of the
   * same bytes adopts it without uploading: a rolled-back collection does leave a row pointing at
   * a missing object.
   */
  lemma FailedCollectionLosesBytes(cfg: Config) returns (run: seq<Step>)
    ensures IsRun(cfg, Init(), run)
    ensures var s := After(cfg, Init(), run);
      (1, 0) in s.links && Dangles(s, (1, 0)) && 1 in Visible(s) && Visible(s)[1] == BODY
  {
    var s;
    run, s := CollectionFailed(cfg);
    hide IsRun, After, Split;
    run, s := Adopt(cfg, run, s);
  }

  /** The collector locks its candidate and deletes the object. */
  lemma LockedAndErased(cfg: Config, run0: seq<Step>, s0: State, c: ChunkId) returns (run: seq<Step>, s: State)
    requires Reaches(cfg, run0, s0) && s0.collectors == map[0 := Collector(map[c := cfg.sha(BODY)], Checked(c))]
    requires c in s0.chunks && !ShareLocked(s0.uploads, c) && (cfg.mode.AtomicCheck? ==> s0.links == map[])
    ensures Reaches(cfg, run, s) && (Undisturbed(run0) ==> Undisturbed(run))
    ensures s == s0.(collectors := map[0 := Collector(map[c := cfg.sha(BODY)], Erased(c))],
      objects := s0.objects - {cfg.sha(BODY)}, spoiled := s0.spoiled + {c})
  {
    hide IsRun, After, Split, Reaches, HasRow, PendingElsewhere;
    run, s := Take(cfg, run0, s0, Lock(0));
    run, s := Take(cfg, run, s, Erase(0));
  }

  lemma CollectionFailed(cfg: Config) returns (run: seq<Step>, s: State)
    ensures Reaches(cfg, run, s) && s.files == map[] && s.links == map[] && s.uploads.Keys == {0}
    ensures 0 in s.chunks && s.chunks[0].hash == cfg.sha(BODY) && cfg.sha(BODY) !in s.objects
    ensures !ExclusivelyLocked(s.collectors, 0)
  {
    run, s := CandidateFound(cfg);
    hide IsRun, After, Split, Reaches;
    assert s.chunks[0].hash == cfg.sha(BODY);
    assert !HoldsShare(s.uploads[0].phase, 0);
    run, s := LockedAndErased(cfg, run, s, 0);
    run, s := Take(cfg, run, s, GcFail(0));
  }

  /**
   * Without the atomic check, no failure is needed: an upload adopts the row while the collector
   * waits for it, commits its link, and the collector then deletes the object all the same.
   */
  lemma SnapshotCheckLosesBytes(cfg: Config) returns (run: seq<Step>)
    requires cfg.mode.SnapshotCheck?
    ensures IsRun(cfg, Init(), run) && Undisturbed(run)
    ensures var s := After(cfg, Init(), run);
      (1, 0) in s.links && Dangles(s, (1, 0)) && 1 in Visible(s) && Visible(s)[1] == BODY
  {
    var s;
    run, s := CandidateFound(cfg);
    hide IsRun, After, Split;
    var h := cfg.sha(BODY);
    assert s.chunks[0].hash == h;
    run, s := Adopt(cfg, run, s);
    run, s := LockedAndErased(cfg, run, s, 0);
  }
}
