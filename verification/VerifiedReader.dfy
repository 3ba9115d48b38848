// Downloads: lazy chunk readers that check the digest before handing out a byte, chained by
// io.MultiReader (internal/storage/service.go). The object store may answer anything.
module VerifiedReader {
  import opened Chunking
  import opened Prelude
  import StoreProtocol
  import StoreTheorems

  type Digest = StoreProtocol.Digest

  /** What the object store does with one request: refuse it, or stream some bytes and then end or break. */
  datatype Answer = Refused | Streamed(body: Bytes, breaks: bool)

  datatype LoadError = DownloadFailed | ReadFailed | TooLarge | WrongHash

  datatype Loaded = Loaded(body: Bytes) | LoadFailed(error: LoadError)

  /** The outcome of one Read call beside the bytes it returns. */
  datatype Status = More | End | Errored(error: LoadError)

  /**
   * load(). It reads at most one byte past the limit, so an oversized body is noticed before
   * any break that comes after it.
   */
  function Load(sha: Bytes -> Digest, expected: Digest, answer: Answer): (r: Loaded)
    ensures r.Loaded? ==> sha(r.body) == expected && |r.body| <= CHUNK_SIZE
    ensures r.Loaded? <==>
      answer.Streamed? && !answer.breaks && |answer.body| <= CHUNK_SIZE && sha(answer.body) == expected
    ensures r == LoadFailed(DownloadFailed) <==> answer == Refused
    ensures r == LoadFailed(TooLarge) <==> answer.Streamed? && |answer.body| > CHUNK_SIZE
    ensures r == LoadFailed(ReadFailed) <==> answer.Streamed? && |answer.body| <= CHUNK_SIZE && answer.breaks
    ensures r == LoadFailed(WrongHash) <==>
      answer.Streamed? && |answer.body| <= CHUNK_SIZE && !answer.breaks && sha(answer.body) != expected
  {
    if answer.Refused? then LoadFailed(DownloadFailed)
    else
      var data := if |answer.body| > CHUNK_SIZE then answer.body[..CHUNK_SIZE + 1] else answer.body;
      if answer.breaks && |answer.body| <= CHUNK_SIZE then LoadFailed(ReadFailed)
      else if |data| > CHUNK_SIZE then LoadFailed(TooLarge)
      else if sha(data) != expected then LoadFailed(WrongHash)
      else Loaded(data)
  }

  class VerifiedChunkReader {
    const sha: Bytes -> Digest
    const expected: Digest
    const answer: Answer
    var buf: Option<Bytes>       // what is left of the chunk once it is loaded
    var err: Option<LoadError>

    constructor (sha: Bytes -> Digest, expected: Digest, answer: Answer)
      ensures this.sha == sha && this.expected == expected && this.answer == answer
      ensures buf == None && err == None
    {
      this.sha := sha;
      this.expected := expected;
      this.answer := answer;
      buf := None;
      err := None;
    }

    /** What the reader still has to give: the rest of a checked chunk, or an error. */
    ghost function Pending(): (r: Loaded)
      reads this
    {
      if err.Some? then LoadFailed(err.value)
      else if buf.Some? then Loaded(buf.value)
      else Load(sha, expected, answer)
    }

    /** The first Read fetches and checks the chunk; a failure is kept and returned ever after. */
    method Read(size: nat) returns (out: Bytes, status: Status)
      modifies this
      ensures old(Pending()).LoadFailed? ==>
        out == [] && status == Errored(old(Pending()).error) && Pending() == old(Pending()) && err.Some?
      ensures old(Pending()).Loaded? ==>
        && Pending().Loaded? && old(Pending()).body == out + Pending().body && |out| <= size
        && status == (if old(Pending()).body == [] then End else More)
        && (size > 0 && status == More ==> out != [])
    {
      if err.Some? {
        return [], Errored(err.value);
      }
      if buf.None? {
        var r := Load(sha, expected, answer);
        if r.LoadFailed? {
          err := Some(r.error);
          return [], Errored(r.error);
        }
        buf := Some(r.body);
      }
      if buf.value == [] {
        return [], End;
      }
      var n := if size < |buf.value| then size else |buf.value|;
      out, status := buf.value[..n], More;
      buf := Some(buf.value[n..]);
    }
  }

  /** The i-th answer cannot pass for chunk i unless it is chunk i: no collision occurs. */
  ghost predicate NoCollision(sha: Bytes -> Digest, parts: seq<Bytes>, answers: seq<Answer>)
    requires |answers| == |parts|
  {
    forall i :: 0 <= i < |parts| && answers[i].Streamed? && sha(answers[i].body) == sha(parts[i]) ==>
      answers[i].body == parts[i]
  }

  /**
   * io.MultiReader over one reader per chunk. A chunk reader does nothing until its first Read,
   * so the readers past the current one need not exist yet.
   */
  class FileReader {
    const sha: Bytes -> Digest
    const hashes: seq<Digest>
    const answers: seq<Answer>
    var at: nat                     // the current chunk
    var head: VerifiedChunkReader?  // its reader; null past the last chunk
    var received: Bytes             // what the caller has been given
    ghost const parts: seq<Bytes>

    ghost predicate Static()
    {
      && |answers| == |parts| == |hashes| && NoCollision(sha, parts, answers)
      && forall i :: 0 <= i < |parts| ==> hashes[i] == sha(parts[i])
    }

    ghost predicate Valid()
      reads this, head
    {
      && Static() && at <= |parts| && (head == null <==> at == |parts|)
      && LoadedBelow(sha, parts, answers, at)
      && (if head == null then received == Concat(parts) else HeadOk(head))
    }

    /** What is delivered and what the current reader still holds make up the file so far. */
    ghost predicate HeadOk(r: VerifiedChunkReader)
      requires Static() && at < |parts|
      reads this, r
    {
      && r.sha == sha && r.expected == sha(parts[at]) && r.answer == answers[at]
      && match r.Pending()
         case Loaded(rest) => received + rest == Concat(parts[..at + 1]) && LoadedBelow(sha, parts, answers, at + 1)
         case LoadFailed(e) =>
           received == Concat(parts[..at]) && Load(sha, sha(parts[at]), answers[at]) == LoadFailed(e)
    }

    constructor (sha: Bytes -> Digest, hashes: seq<Digest>, answers: seq<Answer>, ghost parts: seq<Bytes>)
      requires |answers| == |parts| == |hashes| && NoCollision(sha, parts, answers)
      requires forall i :: 0 <= i < |parts| ==> hashes[i] == sha(parts[i])
      ensures Valid() && this.sha == sha && this.parts == parts && this.answers == answers
      ensures received == [] && (head == null || (fresh(head) && head.err.None?))
    {
      this.sha, this.hashes, this.answers, this.parts := sha, hashes, answers, parts;
      at, head, received := 0, null, [];
      new;
      if 0 < |hashes| {
        head := new VerifiedChunkReader(sha, hashes[0], answers[0]);
        assert parts[..0] == [];
        ChunkStep(parts, 0);
        LoadedIsPart(sha, parts, answers, 0);
      }
    }

    /** The current chunk did not check out. */
    ghost predicate Stuck(error: LoadError)
      reads this, head
    {
      head != null && head.err == Some(error)
    }

    /** Read from the current chunk; at its end, move on to the next. */
    method ReadHead(size: nat) returns (out: Bytes, status: Status)
      requires Valid() && head != null
      modifies this, head
      ensures Valid() && received == old(received) + out && |out| <= size
      ensures head == null || head == old(head) || fresh(head)
      ensures at == if status == End then old(at) + 1 else old(at)
      ensures status == End ==> out == []
      ensures status.Errored? ==> out == [] && Stuck(status.error)
      ensures status == More && size > 0 ==> out != []
      ensures old(head.err.Some?) ==> status == Errored(old(head.err.value))
    {
      hide Load, Concat, NoCollision, LoadedBelow;
      out, status := ReadCurrent(size);
      if status == End {
        MoveOn();
      }
    }

    method ReadCurrent(size: nat) returns (out: Bytes, status: Status)
      requires Valid() && head != null
      modifies this, head
      ensures head == old(head) && at == old(at) && received == old(received) + out && |out| <= size
      ensures status == End ==>
        out == [] && received == Concat(parts[..at + 1]) && LoadedBelow(sha, parts, answers, at + 1)
      ensures status != End ==> Valid()
      ensures status.Errored? ==> out == [] && Stuck(status.error)
      ensures status == More && size > 0 ==> out != []
      ensures old(head.err.Some?) ==> status == Errored(old(head.err.value))
    {
      hide Load, Concat, NoCollision, LoadedBelow;
      out, status := head.Read(size);
      received := received + out;
    }

    /** The current chunk is exhausted: make the reader of the next one, if any. */
    method MoveOn()
      requires Static() && at < |parts| && LoadedBelow(sha, parts, answers, at + 1)
      requires received == Concat(parts[..at + 1])
      modifies this
      ensures Valid() && at == old(at) + 1 && received == old(received)
      ensures head == null || fresh(head)
    {
      at := at + 1;
      if at < |hashes| {
        ChunkStep(parts, at);
        LoadedIsPart(sha, parts, answers, at);
        head := new VerifiedChunkReader(sha, hashes[at], answers[at]);
      } else {
        head := null;
        assert parts[..at] == parts;
      }
    }

    method Read(size: nat) returns (out: Bytes, status: Status)
      requires Valid()
      modifies this, head
      ensures Valid() && received == old(received) + out && |out| <= size
      ensures head == null || head == old(head) || fresh(head)
      ensures status == End ==> out == [] && head == null
      ensures status.Errored? ==> out == [] && head != null && head.err == Some(status.error)
      ensures status == More && size > 0 ==> out != []
      ensures old(head) == null ==> status == End
      ensures old(head) != null && old(head.err.Some?) ==> status == Errored(old(head.err.value))
    {
      if head == null {
        return [], End;
      }
      out, status := ReadHead(size);
      while status == End && head != null
        invariant Valid() && received == old(received) + out && |out| <= size
        invariant head == null || head == old(head) || fresh(head)
        invariant status == End ==> out == []
        invariant status.Errored? ==> out == [] && Stuck(status.error)
        invariant status == More && size > 0 ==> out != []
        invariant old(head.err.Some?) ==> status == Errored(old(head.err.value))
        decreases |parts| - at, status == End
      {
        out, status := ReadHead(size);
      }
    }

    /** One Read call after another. */
    method Drain(sizes: seq<nat>) returns (statuses: seq<Status>)
      requires Valid() && received == [] && (head != null ==> head.err.None?)
      modifies this, head
      ensures Valid() && |statuses| == |sizes| && Settled(statuses)
      ensures sizes != [] && statuses[|sizes| - 1] == End ==> head == null
      ensures sizes != [] && statuses[|sizes| - 1].Errored? ==>
        head != null && head.err == Some(statuses[|sizes| - 1].error)
      ensures (forall i :: 0 <= i < |sizes| ==> sizes[i] > 0) && sizes != [] && statuses[|sizes| - 1] == More ==>
        |received| >= |sizes|
    {
      assert Settled([]);
      hide Load, Concat, NoCollision, LoadedBelow, Settled, FileReader.Valid;
      statuses := [];
      var last := More;
      for n := 0 to |sizes|
        invariant Valid() && |statuses| == n && Settled(statuses) && (n > 0 ==> statuses[n - 1] == last)
        invariant (n == 0 ==> last == More)
        invariant head == null || head == old(head) || fresh(head)
        invariant last == End ==> head == null
        invariant last.Errored? ==> head != null && head.err == Some(last.error)
        invariant last == More && (forall i :: 0 <= i < n ==> sizes[i] > 0) ==> |received| >= n
      {
        var out, status := Read(sizes[n]);
        SettledAppend(statuses, status);
        statuses := statuses + [status];
        last := status;
      }
    }
  }

  ghost predicate LoadedBelow(sha: Bytes -> Digest, parts: seq<Bytes>, answers: seq<Answer>, k: nat)
    requires |answers| == |parts|
  {
    forall i :: 0 <= i < k && i < |parts| ==> Load(sha, sha(parts[i]), answers[i]).Loaded?
  }

  /** Whatever passes the check for chunk i is chunk i. */
  lemma LoadedIsPart(sha: Bytes -> Digest, parts: seq<Bytes>, answers: seq<Answer>, i: nat)
    requires |answers| == |parts| && NoCollision(sha, parts, answers) && i < |parts|
    ensures var r := Load(sha, sha(parts[i]), answers[i]);
      r.Loaded? ==>
        r.body == parts[i] && (LoadedBelow(sha, parts, answers, i) ==> LoadedBelow(sha, parts, answers, i + 1))
  {
  }

  lemma ChunkStep(parts: seq<Bytes>, i: nat)
    requires i < |parts|
    ensures Concat(parts[..i + 1]) == Concat(parts[..i]) + parts[i]
  {
    assert parts[..i + 1] == parts[..i] + [parts[i]];
    ConcatAppend(parts[..i], parts[i]);
  }

  lemma {:induction false} PrefixOfConcat(parts: seq<Bytes>, k: nat)
    requires k <= |parts|
    ensures Concat(parts[..k]) <= Concat(parts)
  {
    assert parts == parts[..k] + parts[k..];
    ConcatConcat(parts[..k], parts[k..]);
  }

  /** The first chunk whose load fails is k, with that error. */
  ghost predicate BreaksAt(sha: Bytes -> Digest, parts: seq<Bytes>, answers: seq<Answer>, k: nat, error: LoadError)
    requires |answers| == |parts|
  {
    k < |parts| && Load(sha, sha(parts[k]), answers[k]) == LoadFailed(error) && LoadedBelow(sha, parts, answers, k)
  }

  /** Once a read does not return More, every later read returns the same. */
  ghost predicate Settled(statuses: seq<Status>)
  {
    forall i, j :: 0 <= i < j < |statuses| && statuses[i] != More ==> statuses[j] == statuses[i]
  }

  /**
   * Any sequence of reads delivers a prefix of the file. It ends with all of it delivered, or
   * stops for good exactly at the start of the first chunk that does not check out. Reading
   * with room for at least one byte always gets there.
   */
  method Download(sha: Bytes -> Digest, hashes: seq<Digest>, answers: seq<Answer>, sizes: seq<nat>,
                  ghost parts: seq<Bytes>)
    returns (delivered: Bytes, statuses: seq<Status>)
    requires |answers| == |parts| == |hashes| && NoCollision(sha, parts, answers)
    requires forall i :: 0 <= i < |parts| ==> hashes[i] == sha(parts[i])
    ensures delivered <= Concat(parts) && |statuses| == |sizes| && Settled(statuses)
    ensures End in statuses ==> delivered == Concat(parts) && LoadedBelow(sha, parts, answers, |parts|)
    ensures forall e :: Errored(e) in statuses ==>
      exists k: nat :: BreaksAt(sha, parts, answers, k, e) && delivered == Concat(parts[..k])
    ensures (forall i :: 0 <= i < |sizes| ==> sizes[i] > 0) && |sizes| > |Concat(parts)| ==>
      statuses[|sizes| - 1] != More
  {
    hide Load, Concat, NoCollision, LoadedBelow, FileReader.Valid;
    var file := new FileReader(sha, hashes, answers, parts);
    statuses := file.Drain(sizes);
    delivered := file.received;
    DeliveredSoFar(file);
    LastIsSettled(statuses);
    forall e | Errored(e) in statuses
      ensures exists k: nat :: BreaksAt(sha, parts, answers, k, e) && delivered == Concat(parts[..k])
    {
      assert file.Stuck(e);
    }
  }

  lemma SettledAppend(statuses: seq<Status>, status: Status)
    requires Settled(statuses)
    requires statuses != [] && statuses[|statuses| - 1] != More ==> status == statuses[|statuses| - 1]
    ensures Settled(statuses + [status])
  {
    var last := |statuses| - 1;
    forall i | 0 <= i < |statuses| && statuses[i] != More ensures status == statuses[i] {
      assert i < last ==> statuses[last] == statuses[i];
    }
  }

  lemma LastIsSettled(statuses: seq<Status>)
    requires Settled(statuses)
    ensures forall status :: status in statuses && status != More ==> statuses[|statuses| - 1] == status
  {
  }

  lemma DeliveredSoFar(file: FileReader)
    requires file.Valid()
    ensures file.received <= Concat(file.parts)
    ensures file.head == null ==>
      file.received == Concat(file.parts) && LoadedBelow(file.sha, file.parts, file.answers, |file.parts|)
    ensures forall e :: file.Stuck(e) ==>
      exists k: nat :: BreaksAt(file.sha, file.parts, file.answers, k, e) && file.received == Concat(file.parts[..k])
  {
    if file.head != null {
      PrefixOfConcat(file.parts, file.at);
      PrefixOfConcat(file.parts, file.at + 1);
      forall e | file.Stuck(e) ensures BreaksAt(file.sha, file.parts, file.answers, file.at, e) {
      }
    }
  }

  // ---- Against the store itself ----

  /** What MinIO answers for the chunks of a file when nothing goes wrong on the way. */
  ghost predicate StoreAnswers(s: StoreProtocol.State, f: nat, answers: seq<Answer>)
  {
    forall i: nat :: i < |answers| ==>
      && (f, i) in s.links && s.links[(f, i)] in s.chunks
      && var h := s.chunks[s.links[(f, i)]].hash;
      answers[i] == if h in s.objects then Streamed(s.objects[h], false) else Refused
  }

  /** In every reachable state, a ready file without spoiled chunks downloads in full. */
  lemma ReadyFileDownloads(cfg: StoreProtocol.Config, run: seq<StoreProtocol.Step>, f: nat, indices: seq<nat>,
                           answers: seq<Answer>)
    requires StoreProtocol.IsRun(cfg, StoreProtocol.Init(), run)
    requires var s := StoreProtocol.After(cfg, StoreProtocol.Init(), run);
      && f in StoreTheorems.Visible(s) && StoreTheorems.IsChunkList(s.links, f, indices)
      && StoreTheorems.CollisionFree(cfg, s.uploads)
      && (forall i: nat :: (f, i) in s.links ==> s.links[(f, i)] !in s.spoiled)
      && |answers| == |indices| && StoreAnswers(s, f, answers)
    ensures var s := StoreProtocol.After(cfg, StoreProtocol.Init(), run);
      var parts := Split(StoreTheorems.Visible(s)[f]);
      && |answers| == |parts| && NoCollision(cfg.sha, parts, answers)
      && forall i :: 0 <= i < |parts| ==> Load(cfg.sha, cfg.sha(parts[i]), answers[i]) == Loaded(parts[i])
  {
    hide StoreProtocol.IsRun, StoreProtocol.After;
    var s := StoreProtocol.After(cfg, StoreProtocol.Init(), run);
    StoreTheorems.ReadyFileShape(cfg, run, f, indices);
    var bodies := StoreTheorems.ReadyFileFetchable(cfg, run, f, indices);
    StoreTheorems.ReadyFileReadsBack(cfg, run, f, indices, bodies);
    var parts := Split(StoreTheorems.Visible(s)[f]);
    forall i | 0 <= i < |parts| ensures answers[i] == Streamed(parts[i], false) {
      assert bodies[i] == parts[i] && indices[i] == i;
    }
  }

  function Hashes(s: StoreProtocol.State, f: nat, indices: seq<nat>): (hashes: seq<Digest>)
    requires forall i :: 0 <= i < |indices| ==> (f, indices[i]) in s.links && s.links[(f, indices[i])] in s.chunks
    ensures |hashes| == |indices|
  {
    seq(|indices|, i requires 0 <= i < |indices| => s.chunks[s.links[(f, indices[i])]].hash)
  }

  /**
   * DownloadFile in a reachable state: for a ready file without spoiled chunks, reading with room
   * for at least one byte delivers the uploaded bytes, followed by EOF.
   */
  method DownloadReady(cfg: StoreProtocol.Config, s: StoreProtocol.State, f: nat, indices: seq<nat>,
                       answers: seq<Answer>, sizes: seq<nat>, ghost run: seq<StoreProtocol.Step>)
    returns (delivered: Bytes, statuses: seq<Status>)
    requires StoreProtocol.IsRun(cfg, StoreProtocol.Init(), run)
    requires s == StoreProtocol.After(cfg, StoreProtocol.Init(), run)
    requires f in StoreTheorems.Visible(s) && StoreTheorems.IsChunkList(s.links, f, indices)
    requires StoreTheorems.CollisionFree(cfg, s.uploads)
    requires forall i: nat :: (f, i) in s.links ==> s.links[(f, i)] !in s.spoiled
    requires |answers| == |indices| && StoreAnswers(s, f, answers)
    requires |sizes| > |StoreTheorems.Visible(s)[f]| && forall i :: 0 <= i < |sizes| ==> sizes[i] > 0
    ensures delivered == StoreTheorems.Visible(s)[f]
    ensures |statuses| == |sizes| && statuses[|sizes| - 1] == End && Settled(statuses)
    ensures forall e :: Errored(e) !in statuses
  {
    StoreTheorems.ReadyFileShape(cfg, run, f, indices);
    ReadyFileDownloads(cfg, run, f, indices, answers);
    hide StoreProtocol.IsRun, StoreProtocol.After, StoreTheorems.Visible, Load, Concat, NoCollision;
    ghost var parts := Split(StoreTheorems.Visible(s)[f]);
    var hashes := Hashes(s, f, indices);
    delivered, statuses := Download(cfg.sha, hashes, answers, sizes, parts);
    NothingBreaks(cfg.sha, parts, answers, statuses, delivered);
    assert statuses[|sizes| - 1] in statuses;
  }

  /** Where every chunk loads, no read reports an error. */
  lemma NothingBreaks(sha: Bytes -> Digest, parts: seq<Bytes>, answers: seq<Answer>, statuses: seq<Status>,
                      delivered: Bytes)
    requires |answers| == |parts|
    requires forall i :: 0 <= i < |parts| ==> Load(sha, sha(parts[i]), answers[i]) == Loaded(parts[i])
    requires forall e :: Errored(e) in statuses ==>
      exists k: nat :: BreaksAt(sha, parts, answers, k, e) && delivered == Concat(parts[..k])
    ensures forall e :: Errored(e) !in statuses
  {
  }
}
