// collectChunk in the middle of everything else (internal/storage/service.go,
// internal/storage/repository.go).
module ConcurrentCollector {
  import opened StoreProtocol
  import opened StoreInvariant
  import opened StoreWaits
  import opened StorageService

  datatype Outcome = Ended(result: Collection) | StillLocked

  /** Others take their turn; a step the database does not let happen is passed over. */
  method Others(db: Service, g: CollectorId, steps: seq<Step>)
    requires db.Valid() && g in db.s.collectors
    modifies db
    ensures db.Valid() && g in db.s.collectors && db.s.collectors[g] == old(db.s).collectors[g]
  {
    hide Inv, IsRun, After, Service.Valid, Apply, Enabled, OfCollector;
    for i := 0 to |steps|
      invariant db.Valid() && g in db.s.collectors && db.s.collectors[g] == old(db.s).collectors[g]
    {
      if Enabled(db.cfg, db.s, steps[i]) && !OfCollector(steps[i], g) {
        OtherCollector(db.cfg, db.s, g, steps[i]);
        db.Take(steps[i]);
      }
    }
  }

  /** The candidate is done with, whatever became of it. */
  predicate Done(s: State, g: CollectorId, k: Collector, c: ChunkId)
  {
    g in s.collectors && s.collectors[g] == Collector(k.candidates - {c}, Scanned)
  }

  /** What collectChunk promises about its candidate. */
  ghost predicate Collects(cfg: Config, s: State, c: ChunkId, trouble: Trouble, result: Collection)
  {
    match result
    case Gone => trouble.NoTrouble? && c !in s.chunks && Unlinked(s.links, c)
    case InUse => c !in s.chunks || !Unlinked(s.links, c)
    case Kept =>
      && c in s.chunks && (trouble.NoTrouble? ==> cfg.mode.SnapshotCheck? && !Unlinked(s.links, c))
      && (!trouble.BeforeErase? ==> c in s.failed && c in s.spoiled)
  }

  /**
   * collectChunk with any steps of others between its statements. It ends with the row and its
   * object gone and no link to it; or finds the chunk in use; or fails, which with an atomic
   * check-and-lock takes a failure of one of its own statements, and leaves the row.
   */
  method CollectChunk(db: Service, g: CollectorId, c: ChunkId, world: nat -> seq<Step>, trouble: Trouble)
    returns (o: Outcome)
    requires db.Valid() && g in db.s.collectors && db.s.collectors[g].phase.Scanned?
    requires c in db.s.collectors[g].candidates
    modifies db
    ensures db.Valid() && g in db.s.collectors
    ensures o.Ended? ==>
      Done(db.s, g, old(db.s).collectors[g], c) && Collects(db.cfg, db.s, c, trouble, o.result)
    ensures o.StillLocked? ==> exists b :: WaitsFor(db.cfg, db.s, Gc(g), b)
  {
    hide Inv, IsRun, After, Service.Valid;
    Others(db, g, world(0));
    if !(c in db.s.chunks && Unlinked(db.s.links, c)) {
      PassOver(db, g, c, Skip(g, c));
      return Ended(InUse);
    }
    var locked := LockOrphanedChunk(db, g, c, world(1));
    if locked {
      var result := EraseAndCommit(db, g, c, world, trouble);
      return Ended(result);
    }
    if db.s.collectors[g].phase.Checked? {
      return StillLocked;
    }
    return Ended(InUse);
  }

  method PassOver(db: Service, g: CollectorId, c: ChunkId, step: Step)
    requires db.Valid() && g in db.s.collectors && c in db.s.collectors[g].candidates
    requires Enabled(db.cfg, db.s, step)
    requires step == Skip(g, c) || (step == GcFail(g) && db.s.collectors[g].phase == Checked(c))
    modifies db
    ensures db.Valid() && Done(db.s, g, old(db.s).collectors[g], c)
    ensures db.s.chunks == old(db.s).chunks && db.s.links == old(db.s).links
  {
    hide Inv, IsRun, After;
    db.Take(step);
  }

  /** LockOrphanedChunk: granted, waiting, or no row comes back. */
  method LockOrphanedChunk(db: Service, g: CollectorId, c: ChunkId, meanwhile: seq<Step>) returns (locked: bool)
    requires db.Valid() && g in db.s.collectors && db.s.collectors[g].phase.Scanned?
    requires c in db.s.collectors[g].candidates
    requires c in db.s.chunks && Unlinked(db.s.links, c)
    modifies db
    ensures db.Valid() && g in db.s.collectors
    ensures var k := old(db.s).collectors[g];
      if locked then db.s.collectors[g] == Collector(k.candidates, Locked(c))
      else if db.s.collectors[g].phase.Checked? then exists b :: WaitsFor(db.cfg, db.s, Gc(g), b)
      else Done(db.s, g, k, c) && Collects(db.cfg, db.s, c, NoTrouble, InUse)
  {
    hide Inv, IsRun, After;
    hide HasRow, PendingElsewhere, Orphans, Unlinked, Target, ShareLocked, ExclusivelyLocked, WaitsFor;
    CheckNow(db, g, c);
    Others(db, g, meanwhile);
    locked := false;
    if c !in db.s.chunks || (db.cfg.mode.AtomicCheck? && !Unlinked(db.s.links, c)) {
      PassOver(db, g, c, GcFail(g));
    } else if ShareLocked(db.s.uploads, c) || ExclusivelyLocked(db.s.collectors, c) {
      LockWaits(db.cfg, db.s, g, c);
    } else {
      LockNow(db, g, c);
      locked := true;
    }
  }

  method CheckNow(db: Service, g: CollectorId, c: ChunkId)
    requires db.Valid() && g in db.s.collectors && db.s.collectors[g].phase.Scanned?
    requires c in db.s.collectors[g].candidates
    requires c in db.s.chunks && Unlinked(db.s.links, c)
    modifies db
    ensures db.Valid() && g in db.s.collectors && db.s.collectors[g] == old(db.s).collectors[g].(phase := Checked(c))
  {
    hide Inv, IsRun, After, Unlinked;
    db.Take(Check(g, c));
  }

  method LockNow(db: Service, g: CollectorId, c: ChunkId)
    requires db.Valid() && g in db.s.collectors && db.s.collectors[g].phase == Checked(c) && c in db.s.chunks
    requires !ShareLocked(db.s.uploads, c) && !ExclusivelyLocked(db.s.collectors, c)
    requires db.cfg.mode.AtomicCheck? ==> Unlinked(db.s.links, c)
    modifies db
    ensures db.Valid() && g in db.s.collectors && db.s.collectors[g] == old(db.s).collectors[g].(phase := Locked(c))
  {
    hide Inv, IsRun, After, Unlinked, ShareLocked, ExclusivelyLocked;
    db.Take(StoreProtocol.Lock(g));
  }

  lemma LockWaits(cfg: Config, s: State, g: CollectorId, c: ChunkId)
    requires g in s.collectors && s.collectors[g].phase == Checked(c) && c in s.chunks
    requires ShareLocked(s.uploads, c) || ExclusivelyLocked(s.collectors, c)
    ensures exists b :: WaitsFor(cfg, s, Gc(g), b)
  {
    if f :| f in s.uploads && HoldsShare(s.uploads[f].phase, c) {
      assert WaitsFor(cfg, s, Gc(g), Uploader(f));
    } else {
      var k :| k in s.collectors && HoldsExclusive(s.collectors[k].phase, c);
      assert WaitsFor(cfg, s, Gc(g), Gc(k));
    }
  }

  /** Delete the object, delete the row, commit; a link that appeared meanwhile stops the second. */
  method EraseAndCommit(db: Service, g: CollectorId, c: ChunkId, world: nat -> seq<Step>, trouble: Trouble)
    returns (result: Collection)
    requires db.Valid() && g in db.s.collectors && db.s.collectors[g].phase == Locked(c)
    requires c in db.s.collectors[g].candidates
    modifies db
    ensures db.Valid() && Done(db.s, g, old(db.s).collectors[g], c)
    ensures Collects(db.cfg, db.s, c, trouble, result) && !result.InUse?
  {
    hide Inv, IsRun, After, Service.Valid, Enabled, Apply, Unlinked;
    Others(db, g, world(2));
    if trouble.BeforeErase? {
      Fails(db, g, c);
      return Kept;
    }
    EraseNow(db, g, c);
    Others(db, g, world(3));
    if trouble.AfterErase? || !Unlinked(db.s.links, c) {
      Fails(db, g, c);
      return Kept;
    }
    DeleteNow(db, g, c);
    Others(db, g, world(4));
    CommitsNow(db, g, c);
    return Gone;
  }

  method EraseNow(db: Service, g: CollectorId, c: ChunkId)
    requires db.Valid() && g in db.s.collectors && db.s.collectors[g].phase == Locked(c)
    modifies db
    ensures db.Valid() && g in db.s.collectors && db.s.collectors[g] == old(db.s).collectors[g].(phase := Erased(c))
  {
    hide Inv, IsRun, After;
    db.Take(Erase(g));
  }

  method DeleteNow(db: Service, g: CollectorId, c: ChunkId)
    requires db.Valid() && g in db.s.collectors && db.s.collectors[g].phase == Erased(c) && Unlinked(db.s.links, c)
    modifies db
    ensures db.Valid() && g in db.s.collectors && db.s.collectors[g] == old(db.s).collectors[g].(phase := Removed(c))
  {
    hide Inv, IsRun, After, Unlinked;
    db.Take(DeleteRow(g));
  }

  /** An error, and the transaction rolls back. */
  method Fails(db: Service, g: CollectorId, c: ChunkId)
    requires db.Valid() && g in db.s.collectors && db.s.collectors[g].phase in {Locked(c), Erased(c)}
    requires c in db.s.collectors[g].candidates
    modifies db
    ensures db.Valid() && Done(db.s, g, old(db.s).collectors[g], c) && c in db.s.chunks && db.s.links == old(db.s).links
    ensures old(db.s).collectors[g].phase.Erased? ==>
      c in db.s.failed && c in db.s.spoiled && (db.cfg.mode.AtomicCheck? ==> Unlinked(db.s.links, c))
  {
    CollectorFacts(db.cfg, db.s, g);
    FailStep(db.cfg, db.s, g, c);
    hide Inv, IsRun, After, Enabled, Apply, Done, Unlinked;
    db.Take(GcFail(g));
  }

  method CommitsNow(db: Service, g: CollectorId, c: ChunkId)
    requires db.Valid() && g in db.s.collectors && db.s.collectors[g].phase == Removed(c)
    requires c in db.s.collectors[g].candidates
    modifies db
    ensures db.Valid() && Done(db.s, g, old(db.s).collectors[g], c) && c !in db.s.chunks && Unlinked(db.s.links, c)
  {
    CollectorFacts(db.cfg, db.s, g);
    CommitStep(db.cfg, db.s, g, c);
    hide Inv, IsRun, After, Enabled, Apply, Done, Unlinked;
    db.Take(GcCommit(g));
  }

  lemma CommitStep(cfg: Config, s: State, g: CollectorId, c: ChunkId)
    requires g in s.collectors && s.collectors[g].phase == Removed(c)
    requires CollectorOk(cfg, s.collectors[g], s.chunks, s.links, s.known, s.spoiled, s.now)
    ensures Enabled(cfg, s, GcCommit(g))
    ensures var t := Apply(cfg, s, GcCommit(g));
      Done(t, g, s.collectors[g], c) && c !in t.chunks && Unlinked(t.links, c)
  {
  }

  lemma FailStep(cfg: Config, s: State, g: CollectorId, c: ChunkId)
    requires g in s.collectors && s.collectors[g].phase in {Locked(c), Erased(c)}
    requires CollectorOk(cfg, s.collectors[g], s.chunks, s.links, s.known, s.spoiled, s.now)
    ensures Enabled(cfg, s, GcFail(g))
    ensures var t := Apply(cfg, s, GcFail(g));
      && Done(t, g, s.collectors[g], c) && c in t.chunks && t.links == s.links
      && (s.collectors[g].phase.Erased? ==>
            c in t.failed && c in t.spoiled && (cfg.mode.AtomicCheck? ==> Unlinked(t.links, c)))
  {
    hide Unlinked;
  }
}
