// When GetOrCreateChunk can lose three races in a row and give up
// (internal/storage/repository.go, internal/storage/service.go).
module ChunkRaces {
  import opened StoreProtocol
  import opened StoreInvariant

  /** How many rows with this digest were collected since the log had `mark` entries. */
  ghost function Count(log: seq<Collected>, mark: nat, h: Digest): nat
    decreases |log|
  {
    if |log| <= mark then 0
    else Count(log[..|log| - 1], mark, h) + (if log[|log| - 1].hash == h then 1 else 0)
  }

  lemma CountAppend(log: seq<Collected>, e: Collected, mark: nat, h: Digest)
    requires mark <= |log|
    ensures Count(log + [e], mark, h) == Count(log, mark, h) + (if e.hash == h then 1 else 0)
  {
    assert (log + [e])[..|log|] == log;
  }

  /** The n-th collected row of that digest, counting from the mark. */
  lemma {:induction false} CountWitness(log: seq<Collected>, mark: nat, h: Digest, n: nat) returns (i: nat)
    requires 0 < n <= Count(log, mark, h)
    ensures mark <= i < |log| && log[i].hash == h
    ensures Count(log[..i], mark, h) == n - 1
    decreases |log|
  {
    var last := |log| - 1;
    if log[last].hash == h && Count(log[..last], mark, h) == n - 1 {
      i := last;
    } else {
      i := CountWitness(log[..last], mark, h, n);
      assert log[..last][..i] == log[..i];
    }
  }

  lemma {:induction false} CountMonotone(log: seq<Collected>, mark: nat, h: Digest, i: nat, j: nat)
    requires i <= j <= |log|
    ensures Count(log[..i], mark, h) <= Count(log[..j], mark, h)
    decreases j
  {
    if i < j {
      assert log[..j][..j - 1] == log[..j - 1];
      CountMonotone(log, mark, h, i, j - 1);
    }
  }

  /**
   * The log is in time order and rows of one digest are apart: each later one was inserted after
   * the earlier was collected and had then to age past minAge. `lag` allows for created_at being
   * the start of the inserting transaction rather than the moment of the insert.
   */
  ghost predicate LogOk(cfg: Config, log: seq<Collected>, now: Time, lag: nat)
  {
    && (forall i :: 0 <= i < |log| ==> log[i].at <= now)
    && (forall i, j :: 0 <= i < j < |log| ==> log[i].at <= log[j].at && log[i].id != log[j].id)
    && (forall i, j :: 0 <= i < j < |log| && log[i].hash == log[j].hash ==> log[j].at + lag > log[i].at + cfg.minAge)
  }

  ghost predicate LogIds(log: seq<Collected>, chunks: Chunks, known: set<ChunkId>)
  {
    forall i :: 0 <= i < |log| ==> log[i].id in known && log[i].id !in chunks
  }

  /** Whoever now has a row for a digest, committed or not, inserted it after the last collection of that digest. */
  ghost predicate RowsAfter(log: seq<Collected>, chunks: Chunks, lag: nat)
  {
    forall c, i :: c in chunks && 0 <= i < |log| && log[i].hash == chunks[c].hash ==>
      log[i].at <= chunks[c].createdAt + lag
  }

  ghost predicate PendingAfter(cfg: Config, log: seq<Collected>, u: Upload, lag: nat)
  {
    HasPending(u.phase) ==> forall i :: 0 <= i < |log| && log[i].hash == Target(cfg, u) ==> log[i].at <= u.begun + lag
  }

  /** Every attempt already lost cost one collected row of that digest since the call began. */
  ghost predicate RaceOk(cfg: Config, log: seq<Collected>, chunks: Chunks, u: Upload)
  {
    var lost := Count(log, u.mark, Target(cfg, u));
    && u.mark <= |log|
    && (InTx(u.phase) ==> forall i :: u.mark <= i < |log| ==> u.begun <= log[i].at)
    && (u.phase.Inserting? ==> u.phase.attempt <= lost)
    && (u.phase.Selecting? ==> u.phase.attempt < lost || (u.phase.attempt <= lost && HasRow(chunks, Target(cfg, u))))
    && (u.phase.Waiting? ==> u.phase.attempt < lost || (u.phase.attempt <= lost && u.phase.seen in chunks))
  }

  ghost predicate RaceInv(cfg: Config, s: State)
  {
    && LogOk(cfg, s.log, s.now, s.lag) && LogIds(s.log, s.chunks, s.known) && RowsAfter(s.log, s.chunks, s.lag)
    && (forall f :: f in s.uploads ==>
      PendingAfter(cfg, s.log, s.uploads[f], s.lag) && RaceOk(cfg, s.log, s.chunks, s.uploads[f]))
  }

  // ---- Steps ----

  lemma UploadRaces(cfg: Config, s: State, f: FileId, u: Upload)
    requires RaceInv(cfg, s) && PendingAfter(cfg, s.log, u, s.lag) && RaceOk(cfg, s.log, s.chunks, u)
    ensures RaceInv(cfg, s.(uploads := s.uploads[f := u]))
  {
    hide RaceOk, PendingAfter, LogOk, LogIds, RowsAfter;
  }

  lemma LagGrows(cfg: Config, s: State, lag: nat, used: set<ChunkId>, d: nat)
    requires RaceInv(cfg, s) && s.lag <= lag
    ensures RaceInv(cfg, s.(lag := lag, used := used, now := s.now + d))
  {
  }

  lemma InsertRaces(cfg: Config, s: State, f: FileId, c: ChunkId)
    requires RaceInv(cfg, s) && f in s.uploads && s.uploads[f].phase.Inserting? && s.uploads[f].begun <= s.now
    ensures RaceInv(cfg, InsertRow(s, f, c))
  {
    var t := InsertRow(s, f, c);
    LagGrows(cfg, s, t.lag, t.used, 0);
    var r := s.(lag := t.lag, used := t.used);
    assert r == s.(lag := t.lag, used := t.used, now := s.now + 0);
    var u := s.uploads[f].(phase := Created(c));
    assert RaceOk(cfg, s.log, s.chunks, s.uploads[f]);
    assert PendingAfter(cfg, r.log, u, r.lag);
    assert RaceOk(cfg, r.log, r.chunks, u);
    UploadRaces(cfg, r, f, u);
    assert t == r.(uploads := r.uploads[f := u]);
  }

  /** The rows change to include c, which no collection has ever seen. */
  lemma RowsGrow(cfg: Config, s: State, chunks: Chunks, known: set<ChunkId>)
    requires RaceInv(cfg, s)
    requires forall d :: d in s.chunks ==> d in chunks && chunks[d] == s.chunks[d]
    requires forall d :: d in chunks && d !in s.chunks ==> d !in s.known
    requires forall d, i :: d in chunks && d !in s.chunks && 0 <= i < |s.log| && s.log[i].hash == chunks[d].hash ==>
      s.log[i].at <= chunks[d].createdAt + s.lag
    requires s.known <= known
    ensures RaceInv(cfg, s.(chunks := chunks, known := known))
  {
    forall f | f in s.uploads ensures RaceOk(cfg, s.log, chunks, s.uploads[f]) {
      assert RaceOk(cfg, s.log, s.chunks, s.uploads[f]);
      RowStays(s.chunks, chunks, Target(cfg, s.uploads[f]));
    }
  }

  lemma CommitRaces(cfg: Config, s: State, f: FileId)
    requires RaceInv(cfg, s) && Inv(cfg, s) && f in s.uploads && s.uploads[f].phase.Linked?
    ensures RaceInv(cfg, CommitChunk(cfg, s, f))
  {
    hide Inv, RaceInv;
    var t := CommitChunk(cfg, s, f);
    var u := s.uploads[f];
    UploadFacts(cfg, s, f);
    RaceFacts(cfg, s, f);
    KnownRows(cfg, s);
    RowsGrow(cfg, s, t.chunks, t.known);
    var r := s.(chunks := t.chunks, known := t.known);
    FreshRaces(cfg, r, t.uploads[f]);
    UploadRaces(cfg, r, f, t.uploads[f]);
    LinksFree(cfg, r.(uploads := t.uploads), t.links);
    assert t == r.(uploads := t.uploads, links := t.links);
  }

  lemma LinksFree(cfg: Config, s: State, links: Links)
    requires RaceInv(cfg, s)
    ensures RaceInv(cfg, s.(links := links))
  {
  }

  lemma KnownRows(cfg: Config, s: State)
    requires Inv(cfg, s)
    ensures forall c :: c in s.chunks ==> c in s.known
  {
  }

  lemma RaceFacts(cfg: Config, s: State, f: FileId)
    requires RaceInv(cfg, s) && f in s.uploads
    ensures PendingAfter(cfg, s.log, s.uploads[f], s.lag) && RaceOk(cfg, s.log, s.chunks, s.uploads[f])
  {
  }

  lemma RowStays(before: Chunks, after: Chunks, h: Digest)
    requires forall d :: d in before ==> d in after && after[d] == before[d]
    ensures HasRow(before, h) ==> HasRow(after, h)
  {
    if HasRow(before, h) {
      var d :| d in before && before[d].hash == h;
      assert d in after && after[d].hash == h;
    }
  }

  lemma CollectedUpload(cfg: Config, s: State, c: ChunkId, u: Upload)
    requires c in s.chunks && u.begun <= s.now
    requires HasPending(u.phase) ==> !HasRow(s.chunks, Target(cfg, u))
    requires u.phase.Waiting? && u.phase.seen in s.chunks ==> s.chunks[u.phase.seen].hash == Target(cfg, u)
    requires forall d :: d in s.chunks && s.chunks[d].hash == s.chunks[c].hash ==> c == d
    requires PendingAfter(cfg, s.log, u, s.lag) && RaceOk(cfg, s.log, s.chunks, u)
    ensures var log := s.log + [Collected(c, s.chunks[c].hash, s.now)];
      PendingAfter(cfg, log, u, s.lag) && RaceOk(cfg, log, s.chunks - {c}, u)
  {
    var e := Collected(c, s.chunks[c].hash, s.now);
    CountAppend(s.log, e, u.mark, Target(cfg, u));
    if e.hash != Target(cfg, u) && HasRow(s.chunks, Target(cfg, u)) {
      var d :| d in s.chunks && s.chunks[d].hash == Target(cfg, u);
      assert d in s.chunks - {c};
    }
  }

  lemma CollectedLog(cfg: Config, s: State, c: ChunkId)
    requires LogOk(cfg, s.log, s.now, s.lag) && LogIds(s.log, s.chunks, s.known) && RowsAfter(s.log, s.chunks, s.lag)
    requires c in s.chunks && c in s.known && s.chunks[c].createdAt + cfg.minAge < s.now
    requires forall d :: d in s.chunks && s.chunks[d].hash == s.chunks[c].hash ==> c == d
    ensures var log := s.log + [Collected(c, s.chunks[c].hash, s.now)];
      LogOk(cfg, log, s.now, s.lag) && LogIds(log, s.chunks - {c}, s.known) && RowsAfter(log, s.chunks - {c}, s.lag)
  {
  }

  lemma CollectRaces(cfg: Config, s: State, g: CollectorId)
    requires RaceInv(cfg, s) && Inv(cfg, s) && g in s.collectors && s.collectors[g].phase.Removed?
    ensures RaceInv(cfg, CommitCollection(s, g))
  {
    var t := CommitCollection(s, g);
    var c := s.collectors[g].phase.id;
    CollectorFacts(cfg, s, g);
    UniqueRow(cfg, s, c);
    CollectedLog(cfg, s, c);
    forall f | f in t.uploads
      ensures PendingAfter(cfg, t.log, t.uploads[f], t.lag) && RaceOk(cfg, t.log, t.chunks, t.uploads[f])
    {
      UploadFacts(cfg, s, f);
      CollectedUpload(cfg, s, c, s.uploads[f]);
    }
  }

  lemma UniqueRow(cfg: Config, s: State, c: ChunkId)
    requires Inv(cfg, s) && c in s.chunks
    ensures c in s.known
    ensures forall d :: d in s.chunks && s.chunks[d].hash == s.chunks[c].hash ==> c == d
  {
  }

  /** Nothing the race invariant speaks about changes. */
  ghost predicate SameForRaces(s: State, t: State)
  {
    && t.log == s.log && t.chunks == s.chunks && t.known == s.known
    && t.uploads == s.uploads && t.lag == s.lag && t.now == s.now
  }

  ghost predicate MovesUpload(step: Step)
  {
    step.Begin? || step.InsertLoses? || step.SelectSees? || step.SelectMisses? || step.LockGranted? || step.LockMisses?
    || step.PutObject? || step.Link? || step.Finish? || step.Crash?
  }

  lemma QuietRaces(cfg: Config, s: State, step: Step)
    requires Enabled(cfg, s, step) && !MovesUpload(step)
    requires !step.Tick? && !step.CreateFile? && !step.InsertWins? && !step.Commit? && !step.GcCommit?
    ensures SameForRaces(s, Apply(cfg, s, step))
  {
  }

  lemma MoveRaces(cfg: Config, s: State, step: Step)
    requires Enabled(cfg, s, step) && MovesUpload(step)
    requires RaceOk(cfg, s.log, s.chunks, s.uploads[step.f]) && PendingAfter(cfg, s.log, s.uploads[step.f], s.lag)
    ensures var t := Apply(cfg, s, step);
      && t.log == s.log && t.chunks == s.chunks && t.known == s.known && t.lag == s.lag && t.now == s.now
      && step.f in t.uploads && t.uploads == s.uploads[step.f := t.uploads[step.f]]
      && PendingAfter(cfg, s.log, t.uploads[step.f], s.lag) && RaceOk(cfg, s.log, s.chunks, t.uploads[step.f])
  {
  }

  lemma RestRaces(cfg: Config, s: State, t: State)
    requires RaceInv(cfg, s) && SameForRaces(s, t)
    ensures RaceInv(cfg, t)
  {
  }

  lemma MovedRaces(cfg: Config, s: State, t: State, f: FileId)
    requires RaceInv(cfg, s)
    requires t.log == s.log && t.chunks == s.chunks && t.known == s.known && t.lag == s.lag && t.now == s.now
    requires f in t.uploads && t.uploads == s.uploads[f := t.uploads[f]]
    requires PendingAfter(cfg, s.log, t.uploads[f], s.lag) && RaceOk(cfg, s.log, s.chunks, t.uploads[f])
    ensures RaceInv(cfg, t)
  {
    UploadRaces(cfg, s, f, t.uploads[f]);
    RestRaces(cfg, s.(uploads := t.uploads), t);
  }

  lemma StepRaces(cfg: Config, s: State, step: Step)
    requires Inv(cfg, s) && RaceInv(cfg, s) && Enabled(cfg, s, step)
    ensures RaceInv(cfg, Apply(cfg, s, step))
  {
    hide Inv, RaceInv, PendingAfter, RaceOk;
    if MovesUpload(step) {
      RaceFacts(cfg, s, step.f);
      MoveRaces(cfg, s, step);
      MovedRaces(cfg, s, Apply(cfg, s, step), step.f);
    } else if step.Tick? {
      LagGrows(cfg, s, s.lag, s.used, step.elapsed);
    } else if step.CreateFile? {
      FreshRaces(cfg, s, Apply(cfg, s, step).uploads[step.f]);
      MovedRaces(cfg, s, Apply(cfg, s, step), step.f);
    } else if step.InsertWins? {
      UploadFacts(cfg, s, step.f);
      InsertRaces(cfg, s, step.f, step.chunk);
    } else if step.Commit? {
      CommitRaces(cfg, s, step.f);
    } else if step.GcCommit? {
      CollectRaces(cfg, s, step.g);
    } else {
      QuietRaces(cfg, s, step);
      hide Apply, Enabled;
      RestRaces(cfg, s, Apply(cfg, s, step));
    }
  }

  lemma FreshRaces(cfg: Config, s: State, u: Upload)
    requires u.phase.Idle? && u.mark <= |s.log|
    ensures PendingAfter(cfg, s.log, u, s.lag) && RaceOk(cfg, s.log, s.chunks, u)
  {
  }

  lemma {:induction false} RunRaces(cfg: Config, s: State, run: seq<Step>)
    requires Inv(cfg, s) && RaceInv(cfg, s) && IsRun(cfg, s, run)
    ensures RaceInv(cfg, After(cfg, s, run))
    decreases |run|
  {
    hide Inv, RaceInv, Enabled, Apply;
    if run != [] {
      StepKeeps(cfg, s, run[0]);
      StepRaces(cfg, s, run[0]);
      RunRaces(cfg, Apply(cfg, s, run[0]), run[1..]);
    }
  }

  // ---- Giving up ----

  /** GetOrCreateChunk has used its three attempts and returns its "repeated races" error. */
  ghost predicate GivesUp(s: State, f: FileId)
  {
    f in s.uploads && s.uploads[f].phase.Inserting? && s.uploads[f].phase.attempt >= MAX_ATTEMPTS
  }

  /**
   * Giving up takes three different rows of the wanted digest, all collected since the call
   * began, and so a call that lasts more than twice minAge (less the lag of created_at).
   */
  lemma GivingUpTakesThreeCollections(cfg: Config, run: seq<Step>, f: FileId)
    returns (i: nat, j: nat, k: nat)
    requires IsRun(cfg, Init(), run) && GivesUp(After(cfg, Init(), run), f)
    ensures var s := After(cfg, Init(), run);
      var u, log := s.uploads[f], s.log;
      && u.mark <= i < j < k < |log|
      && log[i].hash == log[j].hash == log[k].hash == Target(cfg, u)
      && log[i].id != log[j].id && log[j].id != log[k].id && log[i].id != log[k].id
      && u.begun <= log[i].at && log[k].at <= s.now
    ensures var s := After(cfg, Init(), run);
      s.lag <= cfg.minAge ==> s.now - s.uploads[f].begun > 2 * (cfg.minAge - s.lag)
  {
    var s := After(cfg, Init(), run);
    assert RaceInv(cfg, Init());
    assert Inv(cfg, Init());
    RunRaces(cfg, Init(), run);
    hide IsRun, After, Inv;
    var u := s.uploads[f];
    var h := Target(cfg, u);
    assert RaceOk(cfg, s.log, s.chunks, u);
    i := CountWitness(s.log, u.mark, h, 1);
    j := CountWitness(s.log, u.mark, h, 2);
    k := CountWitness(s.log, u.mark, h, 3);
    if j <= i {
      CountMonotone(s.log, u.mark, h, j, i);
    }
    if k <= j {
      CountMonotone(s.log, u.mark, h, k, j);
    }
  }
}
