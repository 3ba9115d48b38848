// Reading from the event stream: the backoff arithmetic and when Consume gives up
// (internal/events/redis.go).
module ConsumeLoop {
  import opened Prelude

  // Go's time.Duration: signed 64-bit nanoseconds.
  const MILLISECOND: int := 1_000_000
  const BASE_BACKOFF: int := 250 * MILLISECOND
  const MAX_BACKOFF: int := 15_000 * MILLISECOND
  const MAX_FAILURES: nat := 8
  const MAX_SHIFT := 32

  const TWO_63: int := 0x8000_0000_0000_0000

  /** What a 64-bit signed register holds after computing x. */
  function Wrap64(x: int): int
  {
    var low := x % (2 * TWO_63);
    if low < TWO_63 then low else low - 2 * TWO_63
  }

  function Pow2(n: nat): (p: nat)
    ensures p > 0
  {
    if n == 0 then 1 else 2 * Pow2(n - 1)
  }

  /** consumeBackoff, with the shift done in 64 bits. */
  function ConsumeBackoff(attempt: int): int
  {
    if attempt < 1 then BASE_BACKOFF
    else if attempt - 1 > MAX_SHIFT then MAX_BACKOFF
    else
      var backoff := Wrap64(BASE_BACKOFF * Pow2(attempt - 1));
      if backoff <= 0 || backoff > MAX_BACKOFF then MAX_BACKOFF else backoff
  }

  lemma {:induction false} Pow2Monotone(m: nat, n: nat)
    requires m <= n
    ensures Pow2(m) <= Pow2(n)
    decreases n
  {
    if m < n {
      Pow2Monotone(m, n - 1);
    }
  }

  lemma Pow2Of32()
    ensures Pow2(6) == 64 && Pow2(32) == 0x1_0000_0000
  {
    assert Pow2(8) == 256;
    assert Pow2(16) == 65536 by {
      assert Pow2(12) == 4096;
    }
    assert Pow2(24) == 0x100_0000 by {
      assert Pow2(20) == 0x10_0000;
    }
    assert Pow2(28) == 0x1000_0000;
  }

  /** Below the shift bound nothing overflows, so the guard against a non-positive delay never fires. */
  lemma ShiftFits(attempt: int)
    requires 1 <= attempt && attempt - 1 <= MAX_SHIFT
    ensures var exact := BASE_BACKOFF * Pow2(attempt - 1);
      Wrap64(exact) == exact && exact > 0
  {
    Pow2Of32();
    Pow2Monotone(attempt - 1, MAX_SHIFT);
  }

  /** The delay is the exact doubling, capped: for every attempt, however large. */
  lemma BackoffIsCappedDoubling(attempt: int)
    requires attempt >= 1
    ensures ConsumeBackoff(attempt) == Min(MAX_BACKOFF, BASE_BACKOFF * Pow2(attempt - 1))
    ensures 0 < ConsumeBackoff(attempt) <= MAX_BACKOFF
  {
    Pow2Of32();
    if attempt - 1 <= MAX_SHIFT {
      ShiftFits(attempt);
    } else {
      Pow2Monotone(6, attempt - 1);
    }
  }

  lemma NoDelayBeforeFirst(a: int)
    requires a < 1
    ensures ConsumeBackoff(a) == BASE_BACKOFF
  {
  }

  lemma BackoffMonotone(a: int, b: int)
    requires a <= b
    ensures ConsumeBackoff(a) <= ConsumeBackoff(b)
  {
    hide ConsumeBackoff, Wrap64;
    if b >= 1 {
      BackoffIsCappedDoubling(b);
      if a >= 1 {
        BackoffIsCappedDoubling(a);
        Pow2Monotone(a - 1, b - 1);
      } else {
        NoDelayBeforeFirst(a);
      }
    } else {
      NoDelayBeforeFirst(a);
      NoDelayBeforeFirst(b);
    }
  }

  // ---- The loop ----

  /** One turn of the loop: what the read, or the context, had to say. */
  datatype Turn = Batch | Empty | ReadFails | Cancelled

  datatype Exit = Running | Stopped | GaveUp(at: nat)

  /** Turn i is the eighth failed read in a row. */
  predicate EighthFailure(turns: seq<Turn>, i: nat)
  {
    && i < |turns| && MAX_FAILURES <= i + 1
    && forall k :: i + 1 - MAX_FAILURES <= k <= i ==> turns[k] == ReadFails
  }

  /** The delays slept before the n-th failure in a row. */
  function Delays(n: nat): (ds: seq<int>)
    ensures |ds| == n
  {
    if n == 0 then [] else Delays(n - 1) + [ConsumeBackoff(n)]
  }

  function Total(ds: seq<int>): int
  {
    if ds == [] then 0 else Total(ds[..|ds| - 1]) + ds[|ds| - 1]
  }

  /**
   * The loop of Consume over any sequence of turns. It returns an error exactly at the first
   * eighth failure in a row, unless the context ended before; `slept` are the delays since the
   * last successful or empty read.
   */
  method Consume(turns: seq<Turn>) returns (exit: Exit, slept: seq<int>)
    ensures exit.GaveUp? <==>
      exists i: nat :: EighthFailure(turns, i) && forall k :: 0 <= k < i ==>
        turns[k] != Cancelled && !EighthFailure(turns, k)
    ensures exit.GaveUp? ==>
      EighthFailure(turns, exit.at) && forall k :: 0 <= k < exit.at ==>
        turns[k] != Cancelled && !EighthFailure(turns, k)
    ensures exit.GaveUp? ==> slept == Delays(MAX_FAILURES - 1)
    ensures exit.Stopped? ==> Cancelled in turns
    ensures exit.Running? ==> Cancelled !in turns && forall k :: 0 <= k < |turns| ==> !EighthFailure(turns, k)
  {
    var consecutiveFailures := 0;
    slept := [];
    for i := 0 to |turns|
      invariant consecutiveFailures < MAX_FAILURES && consecutiveFailures <= i
      invariant forall k :: i - consecutiveFailures <= k < i ==> turns[k] == ReadFails
      invariant consecutiveFailures < i ==> turns[i - consecutiveFailures - 1] != ReadFails
      invariant forall k :: 0 <= k < i ==> turns[k] != Cancelled && !EighthFailure(turns, k)
      invariant slept == Delays(consecutiveFailures)
    {
      match turns[i]
      case Cancelled =>
        return Stopped, slept;
      case ReadFails =>
        consecutiveFailures := consecutiveFailures + 1;
        if consecutiveFailures >= MAX_FAILURES {
          assert EighthFailure(turns, i);
          return GaveUp(i), slept;
        }
        slept := slept + [ConsumeBackoff(consecutiveFailures)];
      case _ =>
        consecutiveFailures := 0;
        slept := [];
    }
    return Running, slept;
  }

  /** Before giving up the worker has slept 30.75 seconds: seven delays, the last one capped. */
  lemma GivingUpTakes(slept: seq<int>)
    requires slept == Delays(MAX_FAILURES - 1)
    ensures slept == [250 * MILLISECOND, 500 * MILLISECOND, 1000 * MILLISECOND, 2000 * MILLISECOND,
                      4000 * MILLISECOND, 8000 * MILLISECOND, 15_000 * MILLISECOND]
    ensures Total(slept) == 30_750 * MILLISECOND
  {
    DelayValues();
    assert Delays(3) == [ConsumeBackoff(1), ConsumeBackoff(2), ConsumeBackoff(3)];
    assert Delays(5) == Delays(3) + [ConsumeBackoff(4), ConsumeBackoff(5)];
    assert Delays(7) == Delays(5) + [ConsumeBackoff(6), ConsumeBackoff(7)];
    TotalOfSeven(slept);
  }

  lemma DelayValues()
    ensures ConsumeBackoff(1) == 250 * MILLISECOND && ConsumeBackoff(2) == 500 * MILLISECOND
    ensures ConsumeBackoff(3) == 1000 * MILLISECOND && ConsumeBackoff(4) == 2000 * MILLISECOND
    ensures ConsumeBackoff(5) == 4000 * MILLISECOND && ConsumeBackoff(6) == 8000 * MILLISECOND
    ensures ConsumeBackoff(7) == 15_000 * MILLISECOND
  {
    hide ConsumeBackoff, Wrap64;
    assert Pow2(2) == 4 && Pow2(3) == 8 && Pow2(4) == 16 && Pow2(5) == 32 && Pow2(6) == 64;
    BackoffIsCappedDoubling(1);
    BackoffIsCappedDoubling(2);
    BackoffIsCappedDoubling(3);
    BackoffIsCappedDoubling(4);
    BackoffIsCappedDoubling(5);
    BackoffIsCappedDoubling(6);
    BackoffIsCappedDoubling(7);
  }

  lemma TotalOfSeven(ds: seq<int>)
    requires |ds| == 7
    ensures Total(ds) == ds[0] + ds[1] + ds[2] + ds[3] + ds[4] + ds[5] + ds[6]
  {
    assert ds[..6][..5] == ds[..5] && ds[..5][..4] == ds[..4] && ds[..4][..3] == ds[..3];
    assert ds[..3][..2] == ds[..2] && ds[..2][..1] == ds[..1];
    assert Total(ds[..3]) == ds[0] + ds[1] + ds[2] by {
      assert Total(ds[..1]) == ds[0];
    }
    assert Total(ds[..5]) == Total(ds[..3]) + ds[3] + ds[4] by {
      assert Total(ds[..4]) == Total(ds[..3]) + ds[3];
    }
    assert Total(ds[..6]) == Total(ds[..5]) + ds[5];
  }
}
