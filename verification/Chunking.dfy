// How UploadFile cuts a byte stream into chunks (internal/storage/service.go).
module Chunking {
  newtype byte = b: int | 0 <= b < 256
  type Bytes = seq<byte>

  const CHUNK_SIZE: nat := 4 * 1024 * 1024

  /** The chunks of a byte string: full chunks first, then what is left, never an empty one. */
  function Split(data: Bytes): (parts: seq<Bytes>)
    decreases |data|
  {
    if data == [] then []
    else if |data| <= CHUNK_SIZE then [data]
    else [data[..CHUNK_SIZE]] + Split(data[CHUNK_SIZE..])
  }

  function Concat(parts: seq<Bytes>): (data: Bytes)
  {
    if parts == [] then [] else parts[0] + Concat(parts[1..])
  }

  /** No chunk is empty or oversized, and only the last may fall short of CHUNK_SIZE. */
  predicate WellChunked(parts: seq<Bytes>)
  {
    && (forall i :: 0 <= i < |parts| ==> 0 < |parts[i]| <= CHUNK_SIZE)
    && (forall i :: 0 <= i < |parts| - 1 ==> |parts[i]| == CHUNK_SIZE)
  }

  lemma {:induction false} SplitIsWellChunked(data: Bytes)
    ensures WellChunked(Split(data))
    ensures Concat(Split(data)) == data
    decreases |data|
  {
    if data == [] {
    } else if |data| <= CHUNK_SIZE {
      assert Concat([data]) == data + Concat([data][1..]) == data;
    } else {
      var rest := data[CHUNK_SIZE..];
      SplitIsWellChunked(rest);
      assert Split(rest) != [];
      assert Split(data)[1..] == Split(rest);
      assert data == data[..CHUNK_SIZE] + rest;
    }
  }

  lemma {:induction false} WellChunkedIsSplit(parts: seq<Bytes>)
    requires WellChunked(parts)
    ensures Split(Concat(parts)) == parts
  {
    if |parts| == 0 {
    } else if |parts| == 1 {
      assert Concat(parts) == parts[0] + Concat(parts[1..]) == parts[0];
      assert parts == [parts[0]];
    } else {
      var rest := parts[1..];
      WellChunkedIsSplit(rest);
      var data := Concat(parts);
      assert data == parts[0] + Concat(rest);
      assert Concat(rest) == rest[0] + Concat(rest[1..]);
      assert data[..CHUNK_SIZE] == parts[0];
      assert data[CHUNK_SIZE..] == Concat(rest);
    }
  }

  /** Split is the one and only way to cut data into well-formed chunks. */
  lemma SplitCharacterised(data: Bytes, parts: seq<Bytes>)
    ensures parts == Split(data) <==> WellChunked(parts) && Concat(parts) == data
  {
    SplitIsWellChunked(data);
    if WellChunked(parts) {
      WellChunkedIsSplit(parts);
    }
  }

  lemma {:induction false} ConcatAppend(parts: seq<Bytes>, part: Bytes)
    ensures Concat(parts + [part]) == Concat(parts) + part
  {
    if parts == [] {
      assert parts + [part] == [part];
      assert Concat([part]) == part + Concat([part][1..]) == part;
    } else {
      assert (parts + [part])[1..] == parts[1..] + [part];
      ConcatAppend(parts[1..], part);
    }
  }

  lemma {:induction false} ConcatConcat(a: seq<Bytes>, b: seq<Bytes>)
    ensures Concat(a + b) == Concat(a) + Concat(b)
  {
    if a == [] {
      assert a + b == b;
    } else {
      assert (a + b)[1..] == a[1..] + b;
      ConcatConcat(a[1..], b);
    }
  }

  /** What io.ReadFull reports beside the byte count. */
  datatype ReadError = NoError | Eof | UnexpectedEof | Broken

  /** The request body: the bytes still to come, then a clean end or a transport error. */
  class Stream {
    var rest: Bytes
    const breaks: bool

    constructor (data: Bytes, breaks: bool)
      ensures rest == data && this.breaks == breaks
    {
      rest := data;
      this.breaks := breaks;
    }

    /** io.ReadFull: fill the buffer or report why not. */
    method ReadFull(buffer: array<byte>) returns (n: nat, err: ReadError)
      requires buffer.Length > 0
      modifies this, buffer
      ensures n == if |old(rest)| < buffer.Length then |old(rest)| else buffer.Length
      ensures buffer[..n] == old(rest)[..n] && rest == old(rest)[n..]
      ensures err == ReadOutcome(n, buffer.Length, breaks)
    {
      n := if |rest| < buffer.Length then |rest| else buffer.Length;
      forall i | 0 <= i < n {
        buffer[i] := rest[i];
      }
      rest := rest[n..];
      err := ReadOutcome(n, buffer.Length, breaks);
    }
  }

  function ReadOutcome(n: nat, wanted: nat, breaks: bool): ReadError
  {
    if n == wanted then NoError else if breaks then Broken else if n == 0 then Eof else UnexpectedEof
  }

  datatype StoreResult = Total(size: nat) | Failed

  /** Everything up to part i was accepted. */
  ghost predicate AcceptedBelow(accepts: nat -> bool, k: nat)
  {
    forall i :: 0 <= i < k ==> accepts(i)
  }

  /**
   * The storeChunks loop. `accepts(i)` is whether storing chunk i succeeds; `stored` lists the
   * chunks handed over, in order. The loop succeeds exactly when the stream ends cleanly and
   * every chunk is accepted, and then it stored Split(data) and counted every byte.
   */
  method StoreChunks(reader: Stream, buffer: array<byte>, n0: nat, err0: ReadError, accepts: nat -> bool,
                     ghost data: Bytes)
    returns (stored: seq<Bytes>, result: StoreResult)
    requires buffer.Length == CHUNK_SIZE
    requires n0 <= CHUNK_SIZE && data == buffer[..n0] + reader.rest
    requires n0 < CHUNK_SIZE ==> reader.rest == []
    requires err0 == ReadOutcome(n0, CHUNK_SIZE, reader.breaks) && err0 != Broken
    modifies reader, buffer
    ensures stored <= Split(data) && AcceptedBelow(accepts, |stored|)
    ensures result.Total? <==> !reader.breaks && AcceptedBelow(accepts, |Split(data)|)
    ensures result.Total? ==> stored == Split(data) && result.size == |data|
    ensures result.Failed? ==> reader.breaks || (|stored| < |Split(data)| && !accepts(|stored|))
  {
    NothingToSplit();
    hide Split, AcceptedBelow;
    var n, err := n0, err0;
    AcceptedNone(accepts);
    var chunkIndex, totalSize := 0, 0;
    stored := [];
    var ended := n == 0;
    ghost var left := data; // what Split has still to cut
    while !ended
      invariant chunkIndex == |stored| && totalSize + |left| == |data|
      invariant n <= CHUNK_SIZE
      invariant !ended ==> n > 0 && left == buffer[..n] + reader.rest && (n < CHUNK_SIZE ==> reader.rest == [])
      invariant ended ==> left == [] && !reader.breaks
      invariant Split(data) == stored + Split(left)
      invariant !ended ==> err == ReadOutcome(n, CHUNK_SIZE, reader.breaks) && err != Broken
      invariant AcceptedBelow(accepts, chunkIndex)
      decreases |left|, !ended
    {
      var chunkData := buffer[..n];
      totalSize := totalSize + n;
      SplitStep(left, n, stored);
      AcceptedMore(accepts, chunkIndex, |Split(data)|);
      if !accepts(chunkIndex) {
        return stored, Failed;
      }
      stored := stored + [chunkData];
      chunkIndex := chunkIndex + 1;
      left := left[n..];
      if err == Eof || err == UnexpectedEof {
        ended := true;
      } else {
        n, err := reader.ReadFull(buffer);
        if err == Broken {
          return stored, Failed;
        }
        ended := n == 0;
        assert left == buffer[..n] + reader.rest;
      }
    }
    assert Split(left) == [];
    return stored, Total(totalSize);
  }

  lemma NothingToSplit()
    ensures Split([]) == []
  {
  }

  lemma AcceptedNone(accepts: nat -> bool)
    ensures AcceptedBelow(accepts, 0)
  {
  }

  lemma AcceptedMore(accepts: nat -> bool, k: nat, n: nat)
    ensures AcceptedBelow(accepts, k) && accepts(k) ==> AcceptedBelow(accepts, k + 1)
    ensures k < n && !accepts(k) ==> !AcceptedBelow(accepts, n)
  {
  }

  /** One loop turn takes exactly the next chunk of Split. */
  lemma SplitStep(left: Bytes, n: nat, stored: seq<Bytes>)
    requires 0 < n <= CHUNK_SIZE && n <= |left| && (n < CHUNK_SIZE ==> n == |left|)
    ensures Split(left) == [left[..n]] + Split(left[n..])
    ensures stored + Split(left) == (stored + [left[..n]]) + Split(left[n..])
  {
    if n == |left| {
      assert left[..n] == left && left[n..] == [];
    }
  }
}
