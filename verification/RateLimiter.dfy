// The limiter itself: the shared counter while it answers, the local one when it does not
// (internal/middleware/ratelimit.go).
module RateLimiter {
  import opened Prelude
  import opened RateLimitKey
  import opened SharedLimiter
  import Memory = MemoryLimiter

  /** What one request does to the local store, and its outcome. */
  function Decide(db: Counters, local: Memory.Clients, op: Op): (Memory.Clients, bool)
    requires op.Call? && op.tier.window > 0
  {
    match Answer(op, Count(db, op))
    case Said(allowed) => (local, allowed)
    case Failed => Memory.Admit(local, op.client, op.tier.limit, op.tier.window, op.clock)
  }

  class RateLimiter {
    const limit: int
    const window: int
    const replica: nat
    const shared: RedisCounterStore?
    const local: Memory.MemoryCounterStore

    constructor (replica: nat, limit: int, window: int, shared: RedisCounterStore?)
      ensures this.replica == replica && this.limit == limit && this.window == window && this.shared == shared
      ensures fresh(local) && local.clients == map[]
    {
      this.replica, this.limit, this.window, this.shared := replica, limit, window, shared;
      local := new Memory.MemoryCounterStore();
    }

    method Allow(key: string, clock: nat, redis: nat, fate: Fate) returns (allowed: bool)
      requires window > 0
      modifies local, if shared == null then {} else {shared.client}
      ensures shared == null ==> (local.clients, allowed) == Memory.Admit(old(local.clients), key, limit, window, clock)
      ensures shared != null ==>
        var op := Call(replica, Limiter(shared.name, limit, window), key, clock, redis, fate);
        && shared.client.counters == SharedNext(old(shared.client.counters), op)
        && (local.clients, allowed) == Decide(old(shared.client.counters), old(local.clients), op)
      ensures shared != null && fate == Answered ==>
        && local.clients == old(local.clients)
        && (allowed <==>
              CountAfter(old(shared.client.counters), shared.CounterKey(key, clock, window), redis) <= limit)
      ensures shared == null || fate != Answered ==>
        (local.clients, allowed) == Memory.Admit(old(local.clients), key, limit, window, clock)
    {
      if shared != null {
        var reply := shared.Allow(replica, key, limit, window, clock, redis, fate);
        if reply.Said? {
          return reply.allowed;
        }
      }
      allowed := local.Allow(key, limit, window, clock);
    }
  }

  // ---- The shared counter alone: exactly the first `limit` calls of a window get through ----

  predicate Admits(op: Op, count: nat)
  {
    op.Call? && Answer(op, count) == Said(true)
  }

  predicate Uses(op: Op, id: Id)
    requires op.Call? ==> op.tier.window > 0
  {
    op.Ran() && op.Key() == id
  }

  /** How often the script ran for a counter. */
  ghost function Used(ops: seq<Op>, id: Id): nat
    requires Valid(ops)
  {
    if ops == [] then 0 else (if Uses(ops[0], id) then 1 else 0) + Used(ops[1..], id)
  }

  function InTable(table: Table, id: Id): nat
  {
    if id in table then table[id].count else 0
  }

  lemma {:induction false} IdealCountsCalls(table: Table, ops: seq<Op>, i: nat)
    requires Valid(ops) && i < |ops| && ops[i].Ran()
    ensures IdealCounts(table, ops)[i] == InTable(table, ops[i].Key()) + Used(ops[..i], ops[i].Key()) + 1
    decreases |ops|
  {
    if i > 0 {
      IdealCountsCalls(IdealNext(table, ops[0]), ops[1..], i - 1);
      assert ops[..i][1..] == ops[1..][..i - 1];
      assert ops[1..][i - 1] == ops[i];
    }
  }

  /** A call gets through exactly when fewer than `limit` scripts ran before it for its limiter, client and window. */
  lemma AdmittedExactlyFirst(ops: seq<Op>, i: nat)
    requires Valid(ops) && RedisRuns(ops, 0) && InTime(map[], ops)
    requires i < |ops| && ops[i].Call? && ops[i].fate == Answered
    ensures Admits(ops[i], Counts(map[], ops)[i]) <==> Used(ops[..i], ops[i].Key()) < ops[i].tier.limit
  {
    SharedCountsExactly(ops);
    IdealCountsCalls(map[], ops, i);
  }

  /** The calls that get through for one counter. */
  ghost function Passed(ops: seq<Op>, counts: seq<nat>, id: Id): nat
    requires Valid(ops) && |ops| == |counts|
  {
    if ops == [] then 0
    else (if Admits(ops[0], counts[0]) && ops[0].Key() == id then 1 else 0) + Passed(ops[1..], counts[1..], id)
  }

  ghost predicate Limits(ops: seq<Op>, id: Id, limit: int)
    requires Valid(ops)
  {
    forall i :: 0 <= i < |ops| && Uses(ops[i], id) ==> ops[i].tier.limit == limit
  }

  ghost predicate AllAnswered(ops: seq<Op>, id: Id)
    requires Valid(ops)
  {
    forall i :: 0 <= i < |ops| && Uses(ops[i], id) ==> ops[i].fate == Answered
  }

  lemma {:induction false} PassedFrom(table: Table, ops: seq<Op>, id: Id, limit: int)
    requires Valid(ops) && Limits(ops, id, limit)
    ensures var passed, free := Passed(ops, IdealCounts(table, ops), id), Max(0, limit - InTable(table, id));
      passed <= free && (AllAnswered(ops, id) ==> passed == Min(Used(ops, id), free))
    decreases |ops|
  {
    if ops != [] {
      var op, rest := ops[0], ops[1..];
      var table' := IdealNext(table, op);
      assert forall i :: 0 <= i < |rest| ==> rest[i] == ops[i + 1];
      PassedFrom(table', rest, id, limit);
      assert IdealCounts(table, ops)[1..] == IdealCounts(table', rest);
      assert Uses(op, id) ==> ops[0].tier.limit == limit;
      assert InTable(table', id) == InTable(table, id) + if Uses(op, id) then 1 else 0;
    }
  }

  /** Of the calls for one limiter, client and window, whoever makes them, min(n, limit) get through. */
  lemma PassedExactly(ops: seq<Op>, id: Id, limit: int)
    requires Valid(ops) && RedisRuns(ops, 0) && InTime(map[], ops) && Limits(ops, id, limit) && limit >= 0
    ensures Passed(ops, Counts(map[], ops), id) <= limit
    ensures AllAnswered(ops, id) ==> Passed(ops, Counts(map[], ops), id) == Min(Used(ops, id), limit)
  {
    SharedCountsExactly(ops);
    PassedFrom(map[], ops, id, limit);
  }

  /** The same from what a deployment can check: how far apart the clocks are. */
  lemma PassedExactlyByClocks(ops: seq<Op>, id: Id, limit: nat, skew: nat)
    requires Valid(ops) && Alike(ops) && ClocksClose(ops, skew) && Limits(ops, id, limit)
    ensures Passed(ops, Counts(map[], ops), id) <= limit
    ensures AllAnswered(ops, id) ==> Passed(ops, Counts(map[], ops), id) == Min(Used(ops, id), limit)
  {
    ClocksCloseEnough(ops, skew);
    PassedExactly(ops, id, limit);
  }

  // ---- Both stores: what one replica serves ----

  predicate Mine(op: Op, replica: nat, tier: Limiter)
  {
    !op.Reap? && op.replica == replica && op.tier == tier
  }

  /** What reaches a limiter's local store: the requests the shared store did not answer, and the cleanups. */
  function LocalOps(ops: seq<Op>, replica: nat, tier: Limiter): seq<Memory.Op>
  {
    if ops == [] then [] else LocalOp(ops[0], replica, tier) + LocalOps(ops[1..], replica, tier)
  }

  function LocalOp(op: Op, replica: nat, tier: Limiter): seq<Memory.Op>
  {
    if !Mine(op, replica, tier) then []
    else if op.Cleanup? then [Memory.Cleanup(op.clock)]
    else if op.fate != Answered then [Memory.Call(op.client, op.clock)]
    else []
  }

  function LocalNext(db: Counters, local: Memory.Clients, op: Op, replica: nat, tier: Limiter): Memory.Clients
    requires op.Call? ==> op.tier.window > 0
  {
    if !Mine(op, replica, tier) then local
    else if op.Cleanup? then Memory.Cleaned(local, op.clock)
    else Decide(db, local, op).0
  }

  predicate For(op: Op, replica: nat, tier: Limiter, client: string, a: nat, b: nat)
  {
    op.Call? && Mine(op, replica, tier) && op.client == client && a <= op.clock <= b
  }

  /** The requests of a client that a replica's limiter lets through at times in [a, b]. */
  ghost function Served(db: Counters, local: Memory.Clients, ops: seq<Op>, replica: nat, tier: Limiter, client: string,
                        a: nat, b: nat): nat
    requires Valid(ops)
    decreases |ops|
  {
    if ops == [] then 0
    else
      (if For(ops[0], replica, tier, client, a, b) && Decide(db, local, ops[0]).1 then 1 else 0)
      + Served(SharedNext(db, ops[0]), LocalNext(db, local, ops[0], replica, tier), ops[1..],
               replica, tier, client, a, b)
  }

  /** Those that the shared store let through. */
  ghost function ServedShared(ops: seq<Op>, counts: seq<nat>, replica: nat, tier: Limiter, client: string, a: nat,
                              b: nat): nat
    requires |ops| == |counts|
  {
    if ops == [] then 0
    else
      (if For(ops[0], replica, tier, client, a, b) && Admits(ops[0], counts[0]) then 1 else 0)
      + ServedShared(ops[1..], counts[1..], replica, tier, client, a, b)
  }

  lemma {:induction false} ServedByEither(db: Counters, local: Memory.Clients, ops: seq<Op>, replica: nat,
                                          tier: Limiter, client: string, a: nat, b: nat)
    requires Valid(ops) && tier.Valid()
    ensures Served(db, local, ops, replica, tier, client, a, b)
      == ServedShared(ops, Counts(db, ops), replica, tier, client, a, b)
         + Memory.Admitted(local, LocalOps(ops, replica, tier), tier.limit, tier.window, client, a, b)
    decreases |ops|
  {
    if ops != [] {
      var op, rest := ops[0], ops[1..];
      var local' := LocalNext(db, local, op, replica, tier);
      ServedByEither(SharedNext(db, op), local', rest, replica, tier, client, a, b);
      assert Counts(db, ops)[1..] == Counts(SharedNext(db, op), rest);
      OneOpByEither(db, local, op, LocalOps(rest, replica, tier), replica, tier, client, a, b);
      hide LocalNext, SharedNext, Count, Decide, LocalOp, For, Mine, Admits, Memory.Admitted;
    }
  }

  lemma OneOpByEither(db: Counters, local: Memory.Clients, op: Op, later: seq<Memory.Op>, replica: nat, tier: Limiter,
                      client: string, a: nat, b: nat)
    requires op.Valid() && tier.Valid()
    ensures var mine := For(op, replica, tier, client, a, b);
      (if mine && Decide(db, local, op).1 then 1 else 0)
      + Memory.Admitted(LocalNext(db, local, op, replica, tier), later, tier.limit, tier.window, client, a, b)
      == (if mine && Admits(op, Count(db, op)) then 1 else 0)
         + Memory.Admitted(local, LocalOp(op, replica, tier) + later, tier.limit, tier.window, client, a, b)
  {
    hide SharedNext, Count, Script;
    hide Memory.Admit, Memory.Cleaned;
    var first := LocalOp(op, replica, tier);
    if first == [] {
      assert first + later == later;
    } else {
      assert (first + later)[1..] == later;
    }
  }

  // ---- Windows touched by an interval ----

  /** The calls that get through for the counters of one client with an index in [lo, hi]. */
  ghost function PassedIn(ops: seq<Op>, counts: seq<nat>, name: string, client: string, lo: nat, hi: int): nat
    requires Valid(ops) && |ops| == |counts|
  {
    if ops == [] then 0
    else
      (if Admits(ops[0], counts[0]) && (ops[0].Key().name, ops[0].Key().client) == (name, client)
          && lo <= ops[0].Key().index <= hi
       then 1 else 0)
      + PassedIn(ops[1..], counts[1..], name, client, lo, hi)
  }

  lemma {:induction false} OneIndexMore(ops: seq<Op>, counts: seq<nat>, name: string, client: string, lo: nat, hi: nat)
    requires Valid(ops) && |ops| == |counts| && lo <= hi
    ensures PassedIn(ops, counts, name, client, lo, hi)
      == PassedIn(ops, counts, name, client, lo, hi - 1) + Passed(ops, counts, Id(name, client, hi))
  {
    if ops != [] {
      OneIndexMore(ops[1..], counts[1..], name, client, lo, hi);
    }
  }

  lemma {:induction false} NoIndex(ops: seq<Op>, counts: seq<nat>, name: string, client: string, lo: nat, hi: int)
    requires Valid(ops) && |ops| == |counts| && hi < lo
    ensures PassedIn(ops, counts, name, client, lo, hi) == 0
  {
    if ops != [] {
      NoIndex(ops[1..], counts[1..], name, client, lo, hi);
    }
  }

  lemma {:induction false} PassedInAtMost(ops: seq<Op>, name: string, client: string, lo: nat, hi: int, limit: int)
    requires Valid(ops) && RedisRuns(ops, 0) && InTime(map[], ops) && limit >= 0 && hi >= lo - 1
    requires forall i :: 0 <= i < |ops| && ops[i].Call? && ops[i].tier.name == name ==> ops[i].tier.limit == limit
    ensures PassedIn(ops, Counts(map[], ops), name, client, lo, hi) <= limit * (hi - lo + 1)
    decreases hi - lo
  {
    var counts := Counts(map[], ops);
    if hi < lo {
      NoIndex(ops, counts, name, client, lo, hi);
    } else {
      OneIndexMore(ops, counts, name, client, lo, hi);
      PassedExactly(ops, Id(name, client, hi), limit);
      PassedInAtMost(ops, name, client, lo, hi - 1, limit);
      assert limit * (hi - lo + 1) == limit * (hi - lo) + limit;
    }
  }

  lemma {:induction false} ServedInWindows(ops: seq<Op>, counts: seq<nat>, replica: nat, tier: Limiter, client: string,
                                           a: nat, b: nat)
    requires Valid(ops) && |ops| == |counts| && tier.window > 0
    ensures ServedShared(ops, counts, replica, tier, client, a, b)
      <= PassedIn(ops, counts, tier.name, client, a / tier.window, b / tier.window)
  {
    if ops != [] {
      ServedInWindows(ops[1..], counts[1..], replica, tier, client, a, b);
      if For(ops[0], replica, tier, client, a, b) {
        Memory.DivMonotone(a, ops[0].clock, tier.window);
        Memory.DivMonotone(ops[0].clock, b, tier.window);
      }
    }
  }

  /** An interval of length L touches at most ceil(L / window) + 1 windows. */
  lemma WindowsTouched(a: nat, b: nat, window: int)
    requires a <= b && window > 0
    ensures a / window <= b / window <= a / window + Memory.CeilDiv(b - a, window)
  {
    var lo, hi := a / window, b / window;
    Memory.DivMonotone(a, b, window);
    assert a == window * lo + a % window && b == window * hi + b % window;
    if hi > lo {
      assert b - a == window * (hi - lo - 1) + (window + b % window - a % window) by {
        assert window * hi == window * lo + window * (hi - lo - 1) + window;
      }
      var x := window * (hi - lo - 1) + 1;
      Memory.DivUnique(x - 1, window, hi - lo - 1, 0);
      Memory.Scale(window, 0, hi - lo - 1);
      assert Memory.CeilDiv(x, window) == hi - lo;
      Memory.CeilMonotone(x, b - a, window);
    }
  }

  /**
   * Whatever pattern of failures the shared store shows, and whatever other replicas do, one
   * replica serves a client at most a bounded number of times in any closed interval: it never
   * fails open.
   */
  lemma ServedBound(ops: seq<Op>, replica: nat, tier: Limiter, client: string, a: nat, b: nat)
    requires Valid(ops) && Alike(ops) && RedisRuns(ops, 0) && InTime(map[], ops) && tier.Valid() && a <= b
    requires Memory.InOrder(LocalOps(ops, replica, tier), 0)
    ensures var windows := Memory.CeilDiv(b - a, tier.window) + 1;
      var served := Served(map[], map[], ops, replica, tier, client, a, b);
      && served <= (Max(0, tier.limit) + Max(1, tier.limit)) * windows
      && (tier.limit >= 1 ==> served <= 2 * tier.limit * windows)
  {
    var windows, w := Memory.CeilDiv(b - a, tier.window) + 1, tier.window;
    ServedByEither(map[], map[], ops, replica, tier, client, a, b);
    Memory.AdmittedBound(map[], LocalOps(ops, replica, tier), tier.limit, w, client, a, b, 0);
    SharedPart(ops, replica, tier, client, a, b);
    Distribute(Max(0, tier.limit), Max(1, tier.limit), windows);
  }

  /** The same from what a deployment can check: a positive limit, and how far apart the clocks are. */
  lemma ServedBoundByClocks(ops: seq<Op>, replica: nat, tier: Limiter, client: string, a: nat, b: nat, skew: nat)
    requires Valid(ops) && Alike(ops) && ClocksClose(ops, skew) && tier.Valid() && tier.limit >= 1 && a <= b
    requires Memory.InOrder(LocalOps(ops, replica, tier), 0)
    ensures Served(map[], map[], ops, replica, tier, client, a, b)
      <= 2 * tier.limit * (Memory.CeilDiv(b - a, tier.window) + 1)
  {
    ClocksCloseEnough(ops, skew);
    ServedBound(ops, replica, tier, client, a, b);
  }

  lemma Distribute(x: int, y: int, z: int)
    ensures (x + y) * z == x * z + y * z
  {
  }

  /** The shared store's part of it, for all replicas as for one. */
  lemma SharedPart(ops: seq<Op>, replica: nat, tier: Limiter, client: string, a: nat, b: nat)
    requires Valid(ops) && Alike(ops) && RedisRuns(ops, 0) && InTime(map[], ops) && tier.Valid() && a <= b
    ensures ServedShared(ops, Counts(map[], ops), replica, tier, client, a, b)
      <= Max(0, tier.limit) * (Memory.CeilDiv(b - a, tier.window) + 1)
  {
    WindowsTouched(a, b, tier.window);
    ServedInWindows(ops, Counts(map[], ops), replica, tier, client, a, b);
    SharedInWindows(ops, replica, tier, client, a, b, a / tier.window, b / tier.window,
      Memory.CeilDiv(b - a, tier.window) + 1);
  }

  lemma SharedInWindows(ops: seq<Op>, replica: nat, tier: Limiter, client: string, a: nat, b: nat, lo: nat, hi: nat,
                        windows: nat)
    requires Valid(ops) && Alike(ops) && RedisRuns(ops, 0) && InTime(map[], ops) && lo <= hi < lo + windows
    requires var counts := Counts(map[], ops);
      ServedShared(ops, counts, replica, tier, client, a, b) <= PassedIn(ops, counts, tier.name, client, lo, hi)
    ensures ServedShared(ops, Counts(map[], ops), replica, tier, client, a, b) <= Max(0, tier.limit) * windows
  {
    var counts := Counts(map[], ops);
    if i :| 0 <= i < |ops| && For(ops[i], replica, tier, client, a, b) {
      SameLimits(ops, i);
      if tier.limit >= 0 {
        PassedInFew(ops, tier.name, client, lo, hi, tier.limit, windows);
      } else {
        NoneBelowZero(ops, counts, replica, tier, client, a, b);
      }
    } else {
      NoneAtAll(ops, counts, replica, tier, client, a, b);
      Memory.Scale(Max(0, tier.limit), 0, windows);
    }
  }

  lemma PassedInFew(ops: seq<Op>, name: string, client: string, lo: nat, hi: nat, limit: int, windows: nat)
    requires Valid(ops) && RedisRuns(ops, 0) && InTime(map[], ops) && limit >= 0 && lo <= hi < lo + windows
    requires forall i :: 0 <= i < |ops| && ops[i].Call? && ops[i].tier.name == name ==> ops[i].tier.limit == limit
    ensures PassedIn(ops, Counts(map[], ops), name, client, lo, hi) <= limit * windows
  {
    PassedInAtMost(ops, name, client, lo, hi, limit);
    Memory.Scale(limit, hi - lo + 1, windows);
  }

  lemma SameLimits(ops: seq<Op>, i: nat)
    requires Alike(ops) && i < |ops| && ops[i].Call?
    ensures forall j :: 0 <= j < |ops| && ops[j].Call? && ops[j].tier.name == ops[i].tier.name ==>
      ops[j].tier.limit == ops[i].tier.limit
  {
  }

  lemma {:induction false} NoneBelowZero(ops: seq<Op>, counts: seq<nat>, replica: nat, tier: Limiter, client: string,
                                         a: nat, b: nat)
    requires |ops| == |counts| && tier.limit < 0
    ensures ServedShared(ops, counts, replica, tier, client, a, b) == 0
  {
    if ops != [] {
      NoneBelowZero(ops[1..], counts[1..], replica, tier, client, a, b);
    }
  }

  lemma {:induction false} NoneAtAll(ops: seq<Op>, counts: seq<nat>, replica: nat, tier: Limiter, client: string,
                                     a: nat, b: nat)
    requires |ops| == |counts| && forall i :: 0 <= i < |ops| ==> !For(ops[i], replica, tier, client, a, b)
    ensures ServedShared(ops, counts, replica, tier, client, a, b) == 0
  {
    if ops != [] {
      NoneAtAll(ops[1..], counts[1..], replica, tier, client, a, b);
    }
  }
}
