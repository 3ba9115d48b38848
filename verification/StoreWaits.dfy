// Who waits for whose lock on a chunk row or uncommitted chunk row, and why no such wait lasts for ever
// (internal/storage/repository.go, internal/storage/service.go).
module StoreWaits {
  import opened StoreProtocol
  import opened StoreInvariant
  import opened StoreTheorems

  datatype Actor = Uploader(f: FileId) | Gc(g: CollectorId)

  /**
   * The database makes a wait for b: an INSERT waits for a rival's uncommitted row and for an
   * uncommitted delete of a row with that digest, FOR SHARE for an exclusive lock, FOR UPDATE for
   * any lock.
   */
  predicate WaitsFor(cfg: Config, s: State, a: Actor, b: Actor)
  {
    match a
    case Uploader(f) =>
      f in s.uploads &&
      (match s.uploads[f].phase
       case Inserting(n) => n < MAX_ATTEMPTS && HoldsDigest(cfg, s, b, Target(cfg, s.uploads[f]))
       case Waiting(_, c) => c in s.chunks && HoldsExclusively(s, b, c)
       case _ => false)
    case Gc(g) =>
      g in s.collectors && s.collectors[g].phase.Checked? && s.collectors[g].phase.id in s.chunks
      && (HoldsExclusively(s, b, s.collectors[g].phase.id) || HoldsShared(s, b, s.collectors[g].phase.id))
  }

  /** b has inserted, or deleted, a row with this digest and not committed. */
  predicate HoldsDigest(cfg: Config, s: State, b: Actor, h: Digest)
  {
    match b
    case Uploader(f) => f in s.uploads && HasPending(s.uploads[f].phase) && Target(cfg, s.uploads[f]) == h
    case Gc(g) =>
      g in s.collectors && s.collectors[g].phase.Removed?
      && s.collectors[g].phase.id in s.chunks && s.chunks[s.collectors[g].phase.id].hash == h
  }

  predicate HoldsExclusively(s: State, b: Actor, c: ChunkId)
  {
    b.Gc? && b.g in s.collectors && HoldsExclusive(s.collectors[b.g].phase, c)
  }

  predicate HoldsShared(s: State, b: Actor, c: ChunkId)
  {
    b.Uploader? && b.f in s.uploads && HoldsShare(s.uploads[b.f].phase, c)
  }

  /** What the code does next once it holds something: a foreign key that fails makes it give up. */
  function NextStep(s: State, b: Actor): Step
  {
    match b
    case Uploader(f) =>
      if f !in s.uploads then Crash(f)
      else
        (match s.uploads[f].phase
         case Created(_) => PutObject(f)
         case Held(_, _) => if f in s.files then Link(f) else Crash(f)
         case Linked(_, _) => Commit(f)
         case _ => Crash(f))
    case Gc(g) =>
      if g !in s.collectors then GcFail(g)
      else
        (match s.collectors[g].phase
         case Locked(_) => Erase(g)
         case Erased(c) => if Unlinked(s.links, c) then DeleteRow(g) else GcFail(g)
         case Removed(_) => GcCommit(g)
         case _ => GcFail(g))
  }

  /** How many steps are left until it holds nothing any more. */
  function StepsLeft(s: State, b: Actor): nat
  {
    match b
    case Uploader(f) =>
      if f !in s.uploads then 0
      else if s.uploads[f].phase.Created? then 3
      else if s.uploads[f].phase.Held? then 2
      else if s.uploads[f].phase.Linked? then 1
      else 0
    case Gc(g) =>
      if g !in s.collectors then 0
      else if s.collectors[g].phase.Locked? then 3
      else if s.collectors[g].phase.Erased? then 2
      else if s.collectors[g].phase.Removed? then 1
      else 0
  }

  lemma HolderHolds(cfg: Config, s: State, a: Actor, b: Actor)
    requires WaitsFor(cfg, s, a, b)
    ensures StepsLeft(s, b) > 0
  {
  }

  /** Whoever holds a lock on a chunk row, or an uncommitted one, waits for no other. */
  lemma HoldersDoNotWait(cfg: Config, s: State, b: Actor, c: Actor)
    requires StepsLeft(s, b) > 0
    ensures !WaitsFor(cfg, s, b, c)
  {
  }

  /** Its next step is open to it, and brings it closer to letting go. */
  lemma HolderMoves(cfg: Config, s: State, b: Actor)
    requires Inv(cfg, s) && StepsLeft(s, b) > 0
    ensures Enabled(cfg, s, NextStep(s, b))
    ensures StepsLeft(Apply(cfg, s, NextStep(s, b)), b) < StepsLeft(s, b)
  {
    match b
    case Uploader(f) => UploaderMoves(cfg, s, f);
    case Gc(g) => CollectorMovesOn(cfg, s, g);
  }

  lemma UploaderMoves(cfg: Config, s: State, f: FileId)
    requires Inv(cfg, s) && StepsLeft(s, Uploader(f)) > 0
    ensures Enabled(cfg, s, NextStep(s, Uploader(f)))
    ensures StepsLeft(Apply(cfg, s, NextStep(s, Uploader(f))), Uploader(f)) < StepsLeft(s, Uploader(f))
  {
    var p := s.uploads[f].phase;
    if p.Held? && f in s.files {
      NextLinkFree(cfg, s, f);
    }
    hide Inv;
    assert Enabled(cfg, s, NextStep(s, Uploader(f)));
    UploaderLetsGo(cfg, s, f);
    hide Enabled, Apply, StepsLeft, NextStep;
  }

  lemma UploaderLetsGo(cfg: Config, s: State, f: FileId)
    requires f in s.uploads && Enabled(cfg, s, NextStep(s, Uploader(f))) && StepsLeft(s, Uploader(f)) > 0
    ensures StepsLeft(Apply(cfg, s, NextStep(s, Uploader(f))), Uploader(f)) < StepsLeft(s, Uploader(f))
  {
    hide HasRow, PendingElsewhere, ExclusivelyLocked, ShareLocked, Orphans, Unlinked;
    var t := Apply(cfg, s, NextStep(s, Uploader(f)));
    match s.uploads[f].phase
    case Created(_) => assert t == StoreObject(cfg, s, f);
    case Linked(_, _) => assert t == CommitChunk(cfg, s, f);
    case _ =>
  }

  lemma CollectorMovesOn(cfg: Config, s: State, g: CollectorId)
    requires StepsLeft(s, Gc(g)) > 0
    ensures Enabled(cfg, s, NextStep(s, Gc(g)))
    ensures StepsLeft(Apply(cfg, s, NextStep(s, Gc(g))), Gc(g)) < StepsLeft(s, Gc(g))
  {
    CollectorMay(cfg, s, g);
    CollectorLetsGo(cfg, s, g);
    hide Enabled, Apply, StepsLeft, NextStep;
  }

  lemma CollectorMay(cfg: Config, s: State, g: CollectorId)
    requires StepsLeft(s, Gc(g)) > 0
    ensures Enabled(cfg, s, NextStep(s, Gc(g)))
  {
  }

  lemma CollectorLetsGo(cfg: Config, s: State, g: CollectorId)
    requires g in s.collectors && StepsLeft(s, Gc(g)) > 0 && Enabled(cfg, s, NextStep(s, Gc(g)))
    ensures StepsLeft(Apply(cfg, s, NextStep(s, Gc(g))), Gc(g)) < StepsLeft(s, Gc(g))
  {
    hide HasRow, PendingElsewhere, ExclusivelyLocked, ShareLocked, Orphans, Unlinked;
    var t := Apply(cfg, s, NextStep(s, Gc(g)));
    match s.collectors[g].phase
    case Locked(_) => assert t == EraseObject(s, g);
    case Removed(_) => assert t == CommitCollection(s, g);
    case _ =>
  }

  /** Steps of others leave it as close. */
  lemma OthersDoNotDelay(cfg: Config, s: State, b: Actor, step: Step)
    requires Enabled(cfg, s, step) && StepsLeft(s, b) > 0
    requires match b case Uploader(f) => !OfUpload(step, f) case Gc(g) => !OfCollector(step, g)
    ensures StepsLeft(Apply(cfg, s, step), b) == StepsLeft(s, b)
  {
    match b
    case Uploader(f) => OtherUpload(cfg, s, f, step);
    case Gc(g) => OtherCollector(cfg, s, g, step);
  }

  lemma OtherUpload(cfg: Config, s: State, f: FileId, step: Step)
    requires Enabled(cfg, s, step) && f in s.uploads && !OfUpload(step, f)
    ensures var t := Apply(cfg, s, step); f in t.uploads && t.uploads[f] == s.uploads[f]
  {
    hide HasRow, PendingElsewhere, Unlinked, ExclusivelyLocked, ShareLocked, Orphans;
  }

  lemma OtherCollector(cfg: Config, s: State, g: CollectorId, step: Step)
    requires Enabled(cfg, s, step) && g in s.collectors && !OfCollector(step, g)
    ensures var t := Apply(cfg, s, step); g in t.collectors && t.collectors[g] == s.collectors[g]
  {
    hide HasRow, PendingElsewhere, Unlinked, ExclusivelyLocked, ShareLocked, Orphans;
    if !IsCollectorStep(step) {
      UploadSameCollectors(cfg, s, step);
      hide Enabled, Apply;
    }
  }

  lemma UploadSameCollectors(cfg: Config, s: State, step: Step)
    requires Enabled(cfg, s, step) && !IsCollectorStep(step)
    ensures Apply(cfg, s, step).collectors == s.collectors
  {
    hide HasRow, PendingElsewhere, Unlinked, ExclusivelyLocked, ShareLocked, Orphans;
  }

  /** The step is taken by the upload of f. */
  predicate OfUpload(step: Step, f: FileId)
  {
    match step
    case CreateFile(g, _, _) => g == f
    case Begin(g) => g == f
    case InsertWins(g, _) => g == f
    case InsertLoses(g) => g == f
    case SelectSees(g, _) => g == f
    case SelectMisses(g) => g == f
    case LockGranted(g) => g == f
    case LockMisses(g) => g == f
    case PutObject(g) => g == f
    case Link(g) => g == f
    case Commit(g) => g == f
    case Finish(g) => g == f
    case Publish(g) => g == f
    case Crash(g) => g == f
    case _ => false
  }

  predicate OfCollector(step: Step, g: CollectorId)
  {
    IsCollectorStep(step) && step.g == g
  }

  /**
   * In every reachable state, whoever is waited for has a next step of its own that brings it
   * closer to letting go, and waits for nobody itself: no chain of waits is longer than one, so
   * none closes into a deadlock.
   */
  lemma NoDeadlock(cfg: Config, run: seq<Step>, a: Actor, b: Actor, c: Actor)
    requires IsRun(cfg, Init(), run) && WaitsFor(cfg, After(cfg, Init(), run), a, b)
    ensures var s := After(cfg, Init(), run);
      && !WaitsFor(cfg, s, b, c) && Enabled(cfg, s, NextStep(s, b))
      && StepsLeft(Apply(cfg, s, NextStep(s, b)), b) < StepsLeft(s, b)
  {
    var s := After(cfg, Init(), run);
    ReachableInv(cfg, run);
    hide IsRun, After, Inv;
    HolderHolds(cfg, s, a, b);
    HoldersDoNotWait(cfg, s, b, c);
    HolderMoves(cfg, s, b);
  }

  /** And whoever stands at a statement that can wait, but waits for nobody, can go on. */
  lemma NobodyStuck(cfg: Config, s: State, a: Actor, unused: ChunkId)
    requires (forall b :: !WaitsFor(cfg, s, a, b)) && unused !in s.used
    requires match a case Uploader(f) => f in s.uploads case Gc(g) => g in s.collectors
    ensures a.Uploader? && s.uploads[a.f].phase.Inserting? && s.uploads[a.f].phase.attempt < MAX_ATTEMPTS ==>
      Enabled(cfg, s, InsertLoses(a.f)) || Enabled(cfg, s, InsertWins(a.f, unused))
    ensures a.Uploader? && s.uploads[a.f].phase.Waiting? ==>
      Enabled(cfg, s, LockGranted(a.f)) || Enabled(cfg, s, LockMisses(a.f))
    ensures a.Gc? && s.collectors[a.g].phase.Checked? ==>
      var c := s.collectors[a.g].phase.id;
      Enabled(cfg, s, Lock(a.g)) || c !in s.chunks || (cfg.mode.AtomicCheck? && !Unlinked(s.links, c))
  {
    match a
    case Uploader(f) =>
      var p := s.uploads[f].phase;
      if p.Inserting? && p.attempt < MAX_ATTEMPTS {
        assert forall g ::
          g in s.uploads && HasPending(s.uploads[g].phase) && Target(cfg, s.uploads[g]) == Target(cfg, s.uploads[f]) ==>
          WaitsFor(cfg, s, a, Uploader(g));
      } else if p.Waiting? && p.seen in s.chunks {
        assert forall g :: g in s.collectors && HoldsExclusive(s.collectors[g].phase, p.seen) ==>
          WaitsFor(cfg, s, a, Gc(g));
      }
    case Gc(k) =>
      var p := s.collectors[k].phase;
      if p.Checked? && p.id in s.chunks {
        assert forall g :: g in s.collectors && HoldsExclusive(s.collectors[g].phase, p.id) ==>
          WaitsFor(cfg, s, a, Gc(g));
        assert forall f :: f in s.uploads && HoldsShare(s.uploads[f].phase, p.id) ==> WaitsFor(cfg, s, a, Uploader(f));
      }
  }
}
