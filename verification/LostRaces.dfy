// A run in which GetOrCreateChunk loses three races and gives up (internal/storage/repository.go).
module LostRaces {
  import opened Chunking
  import opened StoreProtocol
  import opened StoreLosses
  import ChunkRaces

  /** Everybody but the upload of file 1 is between two chunks, and ids from m on are free. */
  ghost predicate OthersIdle(s: State, m: nat)
  {
    && (forall f :: f in s.uploads ==> f < m && (f != 1 ==> s.uploads[f].phase.Idle?))
    && (forall c :: c in s.used ==> c < m) && s.links == map[]
  }

  /** File 1 is about to make attempt n. */
  predicate Attempting(s: State, n: nat)
  {
    1 in s.uploads && s.uploads[1].phase == Inserting(n) && s.uploads[1].parts == [BODY] && s.uploads[1].next == 0
  }

  /** The collector is about to lock the only row, which has the wanted digest. */
  ghost predicate Ripe(cfg: Config, s: State, n: nat, m: nat, c: ChunkId)
  {
    && OthersIdle(s, m) && Attempting(s, n) && s.chunks.Keys == {c} && s.chunks[c].hash == cfg.sha(BODY)
    && s.collectors == map[0 := Collector(map[c := cfg.sha(BODY)], Checked(c))]
  }

  /** The row is gone. */
  ghost predicate Lost(s: State, n: nat, m: nat)
  {
    OthersIdle(s, m) && Attempting(s, n) && s.chunks == map[] && s.collectors == map[0 := Collector(map[], Scanned)]
  }

  /** The INSERT loses to the row, the collector takes the row, and the SELECT finds nothing. */
  lemma LoseOne(cfg: Config, run0: seq<Step>, s0: State, n: nat, m: nat, c: ChunkId) returns (run: seq<Step>, s: State)
    requires Reaches(cfg, run0, s0) && Ripe(cfg, s0, n, m, c) && n < MAX_ATTEMPTS
    ensures Reaches(cfg, run, s) && Lost(s, n + 1, m)
  {
    hide IsRun, After, Split, Reaches;
    run, s := Take(cfg, run0, s0, InsertLoses(1));
    run, s := Collects(cfg, run, s, c);
    run, s := Take(cfg, run, s, SelectMisses(1));
  }

  lemma Collects(cfg: Config, run0: seq<Step>, s0: State, c: ChunkId) returns (run: seq<Step>, s: State)
    requires Reaches(cfg, run0, s0) && s0.collectors == map[0 := Collector(map[c := cfg.sha(BODY)], Checked(c))]
    requires s0.chunks.Keys == {c} && s0.links == map[] && !ShareLocked(s0.uploads, c)
    ensures Reaches(cfg, run, s) && s.chunks == map[] && s.collectors == map[0 := Collector(map[], Scanned)]
    ensures s.uploads == s0.uploads && s.used == s0.used && s.links == map[]
  {
    hide IsRun, After, Split, Reaches;
    run, s := LockedAndErased(cfg, run0, s0, c);
    run, s := Take(cfg, run, s, DeleteRow(0));
    run, s := Take(cfg, run, s, GcCommit(0));
    assert s.collectors == map[0 := Collector(map[], Scanned)];
  }

  /** Another upload stores the same bytes; its file is deleted again and the row grows old. */
  lemma Replant(cfg: Config, run0: seq<Step>, s0: State, n: nat, m: nat) returns (run: seq<Step>, s: State)
    requires Reaches(cfg, run0, s0) && Lost(s0, n, m) && m > 1
    ensures Reaches(cfg, run, s) && Ripe(cfg, s, n, m + 1, m)
  {
    hide IsRun, After, Split, Reaches;
    run, s := Stored(cfg, run0, s0, n, m);
    run, s := Take(cfg, run, s, RemoveFiles({m}));
    assert s.links == map[];
    run, s := Take(cfg, run, s, Tick(cfg.minAge + 1));
    run, s := Take(cfg, run, s, Scan(0));
    assert s.collectors[0].candidates == map[m := cfg.sha(BODY)];
    run, s := Take(cfg, run, s, Check(0, m));
    assert s.collectors == map[0 := Collector(map[m := cfg.sha(BODY)], Checked(m))];
  }

  lemma Stored(cfg: Config, run0: seq<Step>, s0: State, n: nat, m: nat) returns (run: seq<Step>, s: State)
    requires Reaches(cfg, run0, s0) && Lost(s0, n, m) && m > 1
    ensures Reaches(cfg, run, s) && Attempting(s, n)
    ensures forall f :: f in s.uploads ==> f < m + 1 && (f != 1 ==> s.uploads[f].phase.Idle?)
    ensures forall c :: c in s.used ==> c < m + 1
    ensures s.links == map[(m, 0) := m] && s.chunks.Keys == {m} && s.collectors == map[0 := Collector(map[], Scanned)]
    ensures s.chunks[m].hash == cfg.sha(BODY) && s.chunks[m].createdAt <= s.now
  {
    run, s := Inserts(cfg, run0, s0, n, m);
    hide IsRun, After, Split, Reaches;
    run, s := Take(cfg, run, s, PutObject(m));
    run, s := Take(cfg, run, s, Link(m));
    run, s := Take(cfg, run, s, Commit(m));
  }

  lemma Inserts(cfg: Config, run0: seq<Step>, s0: State, n: nat, m: nat) returns (run: seq<Step>, s: State)
    requires Reaches(cfg, run0, s0) && Lost(s0, n, m) && m > 1
    ensures Reaches(cfg, run, s) && Attempting(s, n) && m in s.files
    ensures m in s.uploads && s.uploads[m] == Upload(0, BODY, [BODY], 0, Created(m), s.now, |s.log|)
    ensures forall f :: f in s.uploads ==> f < m + 1 && (f != 1 && f != m ==> s.uploads[f].phase.Idle?)
    ensures forall c :: c in s.used ==> c < m + 1
    ensures s.links == map[] && s.chunks == map[] && s.collectors == map[0 := Collector(map[], Scanned)]
  {
    OneByteSplit();
    hide IsRun, After, Split, Reaches;
    run, s := Take(cfg, run0, s0, CreateFile(m, 0, BODY));
    run, s := Take(cfg, run, s, Begin(m));
    run, s := Take(cfg, run, s, InsertWins(m, m));
  }

  lemma Starts(cfg: Config) returns (run: seq<Step>, s: State)
    ensures Reaches(cfg, run, s) && Ripe(cfg, s, 0, 2, 0)
  {
    OneByteSplit();
    run, s := CandidateFound(cfg);
    hide IsRun, After, Split, Reaches;
    run, s := Take(cfg, run, s, CreateFile(1, 0, BODY));
    run, s := Take(cfg, run, s, Begin(1));
  }

  /** Three collections in a row can beat the same call. */
  lemma ThreeRacesLost(cfg: Config) returns (run: seq<Step>)
    ensures IsRun(cfg, Init(), run) && ChunkRaces.GivesUp(After(cfg, Init(), run), 1)
  {
    var s;
    run, s := Starts(cfg);
    hide IsRun, After;
    run, s := LoseOne(cfg, run, s, 0, 2, 0);
    run, s := Replant(cfg, run, s, 1, 2);
    run, s := LoseOne(cfg, run, s, 1, 3, 2);
    run, s := Replant(cfg, run, s, 2, 3);
    run, s := LoseOne(cfg, run, s, 2, 4, 3);
  }
}
