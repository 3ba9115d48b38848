// DownloadFile asks the database three questions: whose file it is, whether it is ready, and which
// chunks it has. Between the answers everybody else goes on (internal/storage/service.go,
// internal/storage/repository.go).
module Downloads {
  import opened Chunking
  import opened StoreProtocol
  import opened StoreInvariant
  import opened StoreTheorems
  import opened StorageService
  import VerifiedReader

  /** The answer to a download; what is granted is one lazy reader per digest, in this order. */
  datatype Download = Denied | Missing | Granted(hashes: seq<Digest>)

  // ---- What others can do to a file meanwhile ----

  /** A file keeps its owner and its bytes, stays ready once it is, and is gone for good once it goes. */
  ghost predicate Aged(s: State, t: State, f: FileId)
  {
    && f in s.uploads && f in t.uploads && SameOrigin(s.uploads[f], t.uploads[f])
    && (f in t.files ==>
          && f in s.files && t.files[f].owner == s.files[f].owner
          && (s.files[f].status.Ready? ==> t.files[f].status.Ready?))
  }

  lemma StepAges(cfg: Config, s: State, step: Step, f: FileId)
    requires Enabled(cfg, s, step) && f in s.uploads
    ensures Aged(s, Apply(cfg, s, step), f)
  {
    SameData(cfg, s, step);
    if !step.CreateFile? && !step.Finish? && !step.RemoveFiles? {
      hide Apply, Enabled;
    }
  }

  lemma UploadOfRow(cfg: Config, s: State, f: FileId)
    requires Inv(cfg, s) && f in s.files
    ensures f in s.uploads
  {
  }

  /** Everybody takes their steps; one the database does not let happen is passed over. */
  function Taken(cfg: Config, s: State, steps: seq<Step>): State
  {
    if steps == [] then s
    else
      var last := |steps| - 1;
      var r := Taken(cfg, s, steps[..last]);
      if Enabled(cfg, r, steps[last]) then Apply(cfg, r, steps[last]) else r
  }

  method Others(db: Service, steps: seq<Step>, ghost f: FileId)
    requires db.Valid() && f in db.s.uploads
    modifies db
    ensures db.Valid() && Aged(old(db.s), db.s, f) && db.s == Taken(db.cfg, old(db.s), steps)
  {
    hide Inv, IsRun, After, Service.Valid, Apply, Enabled;
    for i := 0 to |steps|
      invariant db.Valid() && Aged(old(db.s), db.s, f) && db.s == Taken(db.cfg, old(db.s), steps[..i])
    {
      assert steps[..i + 1][..i] == steps[..i];
      if Enabled(db.cfg, db.s, steps[i]) {
        StepAges(db.cfg, db.s, steps[i], f);
        db.Take(steps[i]);
      }
    }
    assert steps[..|steps|] == steps;
  }

  // ---- The chunk list ----

  predicate Least(i: nat, left: set<nat>)
  {
    i in left && forall j :: j in left ==> i <= j
  }

  lemma {:induction false} LeastExists(left: set<nat>)
    requires left != {}
    ensures exists i :: Least(i, left)
    decreases |left|
  {
    var i :| i in left;
    var rest := left - {i};
    if rest == {} {
      assert left == {i};
      assert Least(i, left);
    } else {
      LeastExists(rest);
      var k :| Least(k, rest);
      assert left == rest + {i};
      assert Least(if i < k then i else k, left);
    }
  }

  /** One more index, past all those before it. */
  lemma NextIndex(indices: seq<nat>, left: set<nat>, all: set<nat>, i: nat)
    requires Least(i, left) && left <= all
    requires forall j: nat :: j in indices <==> j in all - left
    requires forall x, j :: 0 <= x < |indices| && j in left ==> indices[x] < j
    requires forall x, y :: 0 <= x < y < |indices| ==> indices[x] < indices[y]
    ensures var more := indices + [i];
      && (forall j: nat :: j in more <==> j in all - (left - {i}))
      && (forall x, j :: 0 <= x < |more| && j in left - {i} ==> more[x] < j)
      && (forall x, y :: 0 <= x < y < |more| ==> more[x] < more[y])
  {
  }

  /** ORDER BY chunk_index. */
  method InOrder(all: set<nat>) returns (indices: seq<nat>)
    ensures forall i: nat :: i in indices <==> i in all
    ensures forall i, j :: 0 <= i < j < |indices| ==> indices[i] < indices[j]
  {
    var left := all;
    indices := [];
    while left != {}
      invariant left <= all && forall j: nat :: j in indices <==> j in all - left
      invariant forall x, j :: 0 <= x < |indices| && j in left ==> indices[x] < j
      invariant forall i, j :: 0 <= i < j < |indices| ==> indices[i] < indices[j]
      decreases |left|
    {
      LeastExists(left);
      var i :| Least(i, left);
      NextIndex(indices, left, all, i);
      indices, left := indices + [i], left - {i};
    }
  }

  /** GetFileChunks: the digests of the chunks linked to f, in the order of their indices. */
  method GetFileChunks(links: Links, chunks: Chunks, f: FileId) returns (hashes: seq<Digest>, indices: seq<nat>)
    requires forall k :: k in links ==> links[k] in chunks
    ensures IsChunkList(links, f, indices) && |hashes| == |indices|
    ensures forall i :: 0 <= i < |hashes| ==>
      (f, indices[i]) in links && hashes[i] == chunks[links[(f, indices[i])]].hash
  {
    indices := InOrder(set k | k in links && k.0 == f :: k.1);
    assert IsChunkList(links, f, indices);
    hashes := [];
    for n := 0 to |indices|
      invariant |hashes| == n
      invariant forall i :: 0 <= i < n ==> (f, indices[i]) in links && hashes[i] == chunks[links[(f, indices[i])]].hash
    {
      assert indices[n] in indices;
      hashes := hashes + [chunks[links[(f, indices[n])]].hash];
    }
  }

  /** The digests of the chunks of f from the first on: all of them once it is ready, none once it is gone. */
  ghost predicate ListOf(cfg: Config, s: State, f: FileId, hashes: seq<Digest>)
    requires f in s.uploads
  {
    var parts := Split(s.uploads[f].data);
    && |hashes| <= |parts| && (forall i :: 0 <= i < |hashes| ==> hashes[i] == cfg.sha(parts[i]))
    && (f in s.files && s.files[f].status.Ready? ==> |hashes| == |parts|)
    && (f !in s.files ==> hashes == [])
  }

  lemma ListFacts(cfg: Config, s: State, f: FileId, hashes: seq<Digest>, indices: seq<nat>)
    requires Inv(cfg, s) && f in s.uploads && IsChunkList(s.links, f, indices) && |hashes| == |indices|
    requires forall i :: 0 <= i < |hashes| ==>
      && (f, indices[i]) in s.links && s.links[(f, indices[i])] in s.chunks
      && hashes[i] == s.chunks[s.links[(f, indices[i])]].hash
    ensures ListOf(cfg, s, f, hashes)
  {
    hide TxsOk, PendingApart, CollectorsOk, LocksApart, LocksExclude, RowsOk, ObjectsOk, PresenceOk, SpoiledOk,
      PhasesOk, EventsOk, Split;
    var u := s.uploads[f];
    assert ShapeOk(u);
    if f in s.files {
      assert FileOk(cfg, f, s.files[f], u.parts, u.next, |u.data|, s.links, s.chunks);
      OrderedIsRange(indices, u.next);
    } else {
      NoLinks(s, f, indices);
    }
  }

  /** Links never outlive their file, so a file that is gone has an empty list. */
  lemma NoLinks(s: State, f: FileId, indices: seq<nat>)
    requires LinksOk(s.links, s.files, s.chunks) && f !in s.files && IsChunkList(s.links, f, indices)
    ensures indices == []
  {
    assert forall i: nat :: (f, i) !in s.links;
    if indices != [] {
      FirstIsMember(indices);
    }
  }

  lemma LinksLead(cfg: Config, s: State)
    requires Inv(cfg, s)
    ensures forall k :: k in s.links ==> s.links[k] in s.chunks
  {
  }

  /** GetFileChunks in a reachable state. */
  method ListChunks(db: Service, f: FileId) returns (hashes: seq<Digest>)
    requires db.Valid() && f in db.s.uploads
    ensures ListOf(db.cfg, db.s, f, hashes)
  {
    LinksLead(db.cfg, db.s);
    hide IsRun, After, Inv, Split, ListOf;
    var indices;
    hashes, indices := GetFileChunks(db.s.links, db.s.chunks, f);
    ListFacts(db.cfg, db.s, f, hashes, indices);
  }

  // ---- The operations ----

  /**
   * DownloadFile, while everybody else goes on. It is denied to all but the owner, and refused
   * unless the file is ready when its status is read (`asked`). What is granted is the digests of
   * all the file's chunks in order, so a reader of them can only deliver the bytes uploaded -
   * except that a file deleted just before the list is read comes out as an empty list.
   */
  method DownloadFile(db: Service, user: UserId, f: FileId, meanwhile: seq<Step>, later: seq<Step>)
    returns (d: Download, ghost asked: State)
    requires db.Valid()
    modifies db
    ensures db.Valid()
    ensures d.Denied? <==> !(f in old(db.s).files && old(db.s).files[f].owner == user)
    ensures d.Granted? <==> !d.Denied? && f in asked.files && asked.files[f].status == Ready
    ensures !d.Denied? ==> asked == Taken(db.cfg, old(db.s), meanwhile)
    ensures db.s == if d.Granted? then Taken(db.cfg, asked, later) else asked
    ensures d.Granted? ==> f in asked.uploads && Aged(old(db.s), asked, f) && Aged(asked, db.s, f)
    ensures d.Granted? && f in db.s.files ==>
      && db.s.files[f].owner == user && f in Visible(db.s) && Visible(db.s)[f] == old(db.s).uploads[f].data
      && |d.hashes| == |Split(Visible(db.s)[f])|
      && forall i :: 0 <= i < |d.hashes| ==> d.hashes[i] == db.cfg.sha(Split(Visible(db.s)[f])[i])
    ensures d.Granted? && f !in db.s.files ==> d.hashes == []
    ensures d.Denied? ==> asked == old(db.s)
  {
    hide IsRun, After, Inv, Split;
    asked := db.s;
    if f !in db.s.files || db.s.files[f].owner != user {
      return Denied, asked;
    }
    UploadOfRow(db.cfg, db.s, f);
    Others(db, meanwhile, f);
    asked := db.s;
    if f !in db.s.files || db.s.files[f].status != Ready {
      return Missing, asked;
    }
    Others(db, later, f);
    var hashes := ListChunks(db, f);
    d := Granted(hashes);
  }

  /**
   * That exception does happen: whatever is in the file, its owner deletes it between the two
   * statements and the download succeeds with nothing to read.
   */
  method DeletedInBetween(db: Service, f: FileId) returns (d: Download)
    requires db.Valid() && f in Visible(db.s) && !db.s.uploads[f].phase.Linked?
    modifies db
    ensures db.Valid() && d == Granted([]) && f !in db.s.files
  {
    hide IsRun, After, Inv, Split;
    var steps := [RemoveFiles({f})];
    TakenOne(db.cfg, db.s, RemoveFiles({f}));
    ghost var asked;
    d, asked := DownloadFile(db, db.s.files[f].owner, f, [], steps);
  }

  lemma TakenOne(cfg: Config, s: State, step: Step)
    requires Enabled(cfg, s, step)
    ensures Taken(cfg, s, []) == s && Taken(cfg, s, [step]) == Apply(cfg, s, step)
  {
    assert [step][..0] == [];
  }

  /**
   * DownloadFileInternal, for the worker: nobody's leave is asked, and an unfinished file is handed
   * out as far as it has come, with its status.
   */
  method DownloadFileInternal(db: Service, f: FileId, later: seq<Step>)
    returns (d: Download, status: Status)
    requires db.Valid()
    modifies db
    ensures db.Valid() && !d.Denied?
    ensures d.Granted? <==> f in old(db.s).files
    ensures d.Granted? ==> status == old(db.s).files[f].status && Aged(old(db.s), db.s, f)
    ensures d.Granted? ==> db.s == Taken(db.cfg, old(db.s), later) && ListOf(db.cfg, db.s, f, d.hashes)
  {
    hide IsRun, After, Inv, Split, ListOf;
    if f !in db.s.files {
      return Missing, Uploading;
    }
    status := db.s.files[f].status;
    UploadOfRow(db.cfg, db.s, f);
    Others(db, later, f);
    var hashes := ListChunks(db, f);
    d := Granted(hashes);
  }

  /**
   * DownloadFile and the reads that follow it. Whatever the object store answers, short of a
   * collision, the user is given nothing but the bytes uploaded, from the first on; a clean end
   * means all of them, if the file still had its row when its chunks were listed.
   */
  method Fetch(db: Service, user: UserId, f: FileId, meanwhile: seq<Step>, later: seq<Step>,
               store: nat -> VerifiedReader.Answer, sizes: seq<nat>)
    returns (d: Download, delivered: Bytes, statuses: seq<VerifiedReader.Status>)
    requires db.Valid()
    requires f in db.s.uploads ==>
      var parts := Split(db.s.uploads[f].data);
      VerifiedReader.NoCollision(db.cfg.sha, parts, seq(|parts|, i requires 0 <= i => store(i)))
    modifies db
    ensures db.Valid()
    ensures d.Denied? <==> !(f in old(db.s).files && old(db.s).files[f].owner == user)
    ensures !d.Granted? ==> delivered == [] && statuses == []
    ensures d.Granted? ==> f in old(db.s).uploads && delivered <= old(db.s).uploads[f].data && |statuses| == |sizes|
    ensures d.Granted? && VerifiedReader.End in statuses ==>
      delivered == if f in db.s.files then old(db.s).uploads[f].data else []
  {
    hide IsRun, After, Inv, Split, VerifiedReader.NoCollision, Service.Valid;
    ghost var before := db.s;
    ghost var asked;
    d, asked := DownloadFile(db, user, f, meanwhile, later);
    if !d.Granted? {
      return d, [], [];
    }
    ghost var all := Split(before.uploads[f].data);
    ghost var parts := if f in db.s.files then all else [];
    SplitIsWellChunked(before.uploads[f].data);
    var answers := seq(|d.hashes|, i requires 0 <= i => store(i));
    NothingToCollide(db.cfg.sha);
    assert |parts| == |answers|;
    delivered, statuses := VerifiedReader.Download(db.cfg.sha, d.hashes, answers, sizes, parts);
  }

  lemma NothingToCollide(sha: Bytes -> Digest)
    ensures VerifiedReader.NoCollision(sha, [], [])
  {
  }
}
