// The counter shared by every replica, and its expiry in Redis
// (internal/middleware/ratelimit_store.go).
// Clocks are nanoseconds; Redis keeps its deadlines in milliseconds.
module SharedLimiter {
  import opened RateLimitKey

  const MILLISECOND: nat := 1_000_000

  datatype Limiter = Limiter(name: string, limit: int, window: int)
  {
    ghost predicate Valid()
    {
      window > 0 && ':' !in name
    }
  }

  /** What became of a call to the shared store: a lost answer is an error after the script ran. */
  datatype Fate = Answered | AnswerLost | NeverRan

  datatype Op =
    | Call(replica: nat, tier: Limiter, client: string, clock: nat, redis: nat, fate: Fate)
    | Reap(redis: nat)                                  // Redis drops what has expired
    | Cleanup(replica: nat, tier: Limiter, clock: nat)    // a replica's local store does
  {
    ghost predicate Valid()
    {
      Call? ==> tier.Valid()
    }

    /** The script ran. */
    predicate Ran()
    {
      Call? && fate != NeverRan
    }

    function Key(): Id
      requires Call? && tier.window > 0
    {
      Id(tier.name, client, clock / tier.window)
    }
  }

  datatype Counter = Counter(count: nat, expiresAt: int)
  type Counters = map<string, Counter>

  function Ms(t: nat): nat
  {
    t / MILLISECOND
  }

  function TtlMs(window: int): int
    requires window > 0
  {
    2 * window / MILLISECOND
  }

  // ---- The script and its caller ----

  /** INCR, and PEXPIRE for the first: Redis deletes a key whose time to live is not positive. */
  function Script(db: Counters, key: string, ttl: int, now: nat): (Counters, nat)
  {
    var count := if key in db && Ms(now) <= db[key].expiresAt then db[key].count + 1 else 1;
    if count > 1 then (db[key := db[key].(count := count)], count)
    else if ttl > 0 then (db[key := Counter(1, Ms(now) + ttl)], 1)
    else (db - {key}, 1)
  }

  /** How many uses of a counter, this one included, Redis has on record. */
  function CountAfter(db: Counters, key: string, now: nat): nat
  {
    if key in db && Ms(now) <= db[key].expiresAt then db[key].count + 1 else 1
  }

  function Reaped(db: Counters, now: nat): Counters
  {
    map key | key in db && Ms(now) <= db[key].expiresAt :: db[key]
  }

  class RedisServer {
    var counters: Counters

    constructor ()
      ensures counters == map[]
    {
      counters := map[];
    }

    method RunScript(key: string, ttl: int, now: nat) returns (count: nat)
      modifies this
      ensures (counters, count) == Script(old(counters), key, ttl, now)
      ensures count == CountAfter(old(counters), key, now)
      ensures count > 1 ==> counters == old(counters)[key := Counter(count, old(counters)[key].expiresAt)]
      ensures count == 1 && ttl > 0 ==> counters == old(counters)[key := Counter(1, now / MILLISECOND + ttl)]
      ensures count == 1 && ttl <= 0 ==> counters == old(counters) - {key}
    {
      count := 1;
      if key in counters && Ms(now) <= counters[key].expiresAt {
        count := counters[key].count + 1;
        counters := counters[key := counters[key].(count := count)];
      }
      if count == 1 {
        if ttl > 0 {
          counters := counters[key := Counter(1, Ms(now) + ttl)];
        } else {
          counters := counters - {key};
        }
      }
      assert counters == Script(old(counters), key, ttl, now).0;
    }
  }

  datatype Reply = Failed | Said(allowed: bool)

  function Answer(op: Op, count: nat): Reply
    requires op.Call?
  {
    if op.fate == Answered then Said(count <= op.tier.limit) else Failed
  }

  class RedisCounterStore {
    const client: RedisServer
    const name: string

    constructor (client: RedisServer, name: string)
      ensures this.client == client && this.name == name
    {
      this.client, this.name := client, name;
    }

    /** ratelimit:<limiter>:<client>:<window index> */
    function CounterKey(key: string, clock: nat, window: int): string
      requires window > 0
    {
      Text(Id(name, key, clock / window))
    }

    method Allow(replica: nat, key: string, limit: int, window: int, clock: nat, redis: nat, fate: Fate)
      returns (reply: Reply)
      requires window > 0
      modifies client
      ensures var op := Call(replica, Limiter(name, limit, window), key, clock, redis, fate);
        client.counters == SharedNext(old(client.counters), op) && reply == Answer(op, Count(old(client.counters), op))
      ensures fate == NeverRan ==> client.counters == old(client.counters)
      ensures fate != NeverRan ==>
        client.counters ==
          Script(old(client.counters), CounterKey(key, clock, window), 2 * window / MILLISECOND, redis).0
      ensures fate == Answered ==>
        reply == Said(CountAfter(old(client.counters), CounterKey(key, clock, window), redis) <= limit)
      ensures fate != Answered ==> reply == Failed
    {
      var windowIndex := clock / window;
      var redisKey := Text(Id(name, key, windowIndex));
      var ttl := TtlMs(window);
      if fate == NeverRan {
        return Failed;
      }
      var count := client.RunScript(redisKey, ttl, redis);
      if fate == AnswerLost {
        return Failed;
      }
      return Said(count <= limit);
    }
  }

  function SharedNext(db: Counters, op: Op): Counters
    requires op.Call? ==> op.tier.window > 0
  {
    if op.Ran() then Script(db, Text(op.Key()), TtlMs(op.tier.window), op.redis).0
    else if op.Reap? then Reaped(db, op.redis)
    else db
  }

  /** The count a call sees; 0 for what does not reach the script. */
  function Count(db: Counters, op: Op): nat
    requires op.Call? ==> op.tier.window > 0
  {
    if op.Ran() then Script(db, Text(op.Key()), TtlMs(op.tier.window), op.redis).1 else 0
  }

  ghost predicate Valid(ops: seq<Op>)
  {
    forall i :: 0 <= i < |ops| ==> ops[i].Valid()
  }

  ghost function Counts(db: Counters, ops: seq<Op>): (counts: seq<nat>)
    requires Valid(ops)
    ensures |counts| == |ops|
    decreases |ops|
  {
    if ops == [] then [] else [Count(db, ops[0])] + Counts(SharedNext(db, ops[0]), ops[1..])
  }

  // ---- The ideal: one counter for each limiter, client and window, never dropped ----

  /** How often a counter was used, and the millisecond up to which Redis would keep it. */
  datatype Use = Use(count: nat, until: int)
  type Table = map<Id, Use>

  function IdealNext(table: Table, op: Op): Table
    requires op.Call? ==> op.tier.window > 0
  {
    if !op.Ran() then table
    else
      var id, ttl := op.Key(), TtlMs(op.tier.window);
      if id in table then table[id := table[id].(count := table[id].count + 1)]
      else table[id := Use(1, if ttl > 0 then Ms(op.redis) + ttl else -1)]
  }

  function IdealCount(table: Table, op: Op): nat
    requires op.Call? ==> op.tier.window > 0
  {
    if !op.Ran() then 0 else if op.Key() in table then table[op.Key()].count + 1 else 1
  }

  ghost function IdealCounts(table: Table, ops: seq<Op>): (counts: seq<nat>)
    requires Valid(ops)
    ensures |counts| == |ops|
    decreases |ops|
  {
    if ops == [] then [] else [IdealCount(table, ops[0])] + IdealCounts(IdealNext(table, ops[0]), ops[1..])
  }

  // ---- When the real counters behave like the ideal ones ----

  /** The clock Redis reads does not run backwards. */
  ghost predicate RedisRuns(ops: seq<Op>, now: nat)
  {
    ops == []
    || if ops[0].Ran() || ops[0].Reap? then now <= ops[0].redis && RedisRuns(ops[1..], ops[0].redis)
       else RedisRuns(ops[1..], now)
  }

  /** No script runs for a counter after the deadline that the counter's first use set. */
  ghost predicate InTime(table: Table, ops: seq<Op>)
    requires Valid(ops)
    decreases |ops|
  {
    ops == []
    || (&& (ops[0].Ran() && ops[0].Key() in table ==> Ms(ops[0].redis) <= table[ops[0].Key()].until)
        && InTime(IdealNext(table, ops[0]), ops[1..]))
  }

  /** What Redis holds for a counter that has been used as the table says. */
  ghost predicate Tracks(db: Counters, table: Table, id: Id, now: nat)
  {
    var key := Text(id);
    if id !in table then key !in db
    else if Ms(now) <= table[id].until then key in db && db[key] == Counter(table[id].count, table[id].until)
    else key in db ==> db[key].expiresAt < Ms(now)
  }

  ghost predicate TracksAll(db: Counters, table: Table, now: nat)
  {
    && (forall id: Id :: ':' !in id.name ==> Tracks(db, table, id, now))
    && (forall id :: id in table ==> table[id].count >= 1)
  }

  lemma MsMonotone(s: nat, t: nat)
    requires s <= t
    ensures Ms(s) <= Ms(t)
  {
  }

  lemma TracksLater(db: Counters, table: Table, now: nat, later: nat)
    requires TracksAll(db, table, now) && now <= later
    ensures TracksAll(db, table, later)
  {
    MsMonotone(now, later);
    forall id: Id | ':' !in id.name ensures Tracks(db, table, id, later) {
      assert Tracks(db, table, id, now);
    }
  }

  /** A call in time finds its counter and leaves every other alone. */
  lemma CallTracks(db: Counters, table: Table, op: Op)
    requires op.Ran() && op.Valid() && TracksAll(db, table, op.redis)
    ensures var id := op.Key();
      if id in table && Ms(op.redis) > table[id].until then Count(db, op) == 1 && IdealCount(table, op) >= 2
      else Count(db, op) == IdealCount(table, op) && TracksAll(SharedNext(db, op), IdealNext(table, op), op.redis)
  {
    var id, now := op.Key(), op.redis;
    assert Tracks(db, table, id, now);
    if !(id in table && Ms(now) > table[id].until) {
      var db', table' := SharedNext(db, op), IdealNext(table, op);
      forall other: Id | ':' !in other.name ensures Tracks(db', table', other, now) {
        assert Tracks(db, table, other, now);
        if other != id && Text(other) == Text(id) {
          TextInjective(other, id);
        }
      }
    }
  }

  lemma ReapTracks(db: Counters, table: Table, now: nat)
    requires TracksAll(db, table, now)
    ensures TracksAll(Reaped(db, now), table, now)
  {
    forall id: Id | ':' !in id.name ensures Tracks(Reaped(db, now), table, id, now) {
      assert Tracks(db, table, id, now);
    }
  }

  lemma {:induction false} CountsFollow(db: Counters, table: Table, ops: seq<Op>, now: nat)
    requires Valid(ops) && RedisRuns(ops, now) && TracksAll(db, table, now)
    ensures Counts(db, ops) == IdealCounts(table, ops) <==> InTime(table, ops)
    decreases |ops|
  {
    if ops != [] {
      var op, rest := ops[0], ops[1..];
      var db', table' := SharedNext(db, op), IdealNext(table, op);
      var seen, ideal := Counts(db, ops), IdealCounts(table, ops);
      assert seen[0] == Count(db, op) && ideal[0] == IdealCount(table, op);
      assert seen[1..] == Counts(db', rest) && ideal[1..] == IdealCounts(table', rest);
      if op.Ran() {
        TracksLater(db, table, now, op.redis);
        CallTracks(db, table, op);
        if seen[0] == ideal[0] {
          CountsFollow(db', table', rest, op.redis);
        }
      } else if op.Reap? {
        TracksLater(db, table, now, op.redis);
        ReapTracks(db, table, op.redis);
        CountsFollow(db', table', rest, op.redis);
      } else {
        CountsFollow(db', table', rest, now);
      }
      assert seen == ideal <==> seen[0] == ideal[0] && seen[1..] == ideal[1..];
    }
  }

  /**
   * The counters kept under text keys, expired and dropped by Redis, count exactly as one
   * everlasting counter for each limiter, client and window would, if and only if no call comes
   * after the deadline set by the first call for its counter.
   */
  lemma SharedCountsExactly(ops: seq<Op>)
    requires Valid(ops) && RedisRuns(ops, 0)
    ensures Counts(map[], ops) == IdealCounts(map[], ops) <==> InTime(map[], ops)
  {
    CountsFollow(map[], map[], ops, 0);
  }

  // ---- The doubled time to live ----

  /** Calls with the same limiter name come from limiters configured alike. */
  ghost predicate Alike(ops: seq<Op>)
  {
    forall i, j ::
      0 <= i < |ops| && 0 <= j < |ops| && ops[i].Call? && ops[j].Call? && ops[i].tier.name == ops[j].tier.name ==>
      ops[i].tier == ops[j].tier
  }

  /** How far Redis is ahead of the replica that calls it. */
  function Ahead(op: Op): int
    requires op.Call?
  {
    op.redis - op.clock
  }

  /** From one call to a later one, by whichever replica, that lead grows by at most `skew`. */
  ghost predicate Synchronised(ops: seq<Op>, skew: int)
  {
    forall i, j :: 0 <= i < j < |ops| && ops[i].Ran() && ops[j].Ran() ==> Ahead(ops[j]) - Ahead(ops[i]) <= skew
  }

  /** The time to live, in the whole milliseconds that Redis is told, leaves room for that. */
  ghost predicate OutlivesWindow(window: int, skew: int)
    requires window > 0
  {
    skew + window <= TtlMs(window) * MILLISECOND
  }

  lemma SameIndex(s: nat, t: nat, window: int)
    requires window > 0 && s / window == t / window
    ensures t - s < window
  {
    assert s == window * (s / window) + s % window;
    assert t == window * (t / window) + t % window;
  }

  lemma MeetsDeadline(first: Op, later: Op, skew: int)
    requires first.Ran() && later.Ran() && first.tier.window > 0 && first.tier == later.tier
    requires first.Key() == later.Key()
    requires Ahead(later) - Ahead(first) <= skew && OutlivesWindow(first.tier.window, skew) && skew >= 0
    ensures TtlMs(first.tier.window) > 0 && Ms(later.redis) <= Ms(first.redis) + TtlMs(first.tier.window)
  {
    SameIndex(first.clock, later.clock, first.tier.window);
    assert later.redis < first.redis + TtlMs(first.tier.window) * MILLISECOND;
  }

  /** The calls to come meet the deadlines already set. */
  ghost predicate Covered(table: Table, ops: seq<Op>)
    requires Valid(ops)
  {
    forall i :: 0 <= i < |ops| && ops[i].Ran() && ops[i].Key() in table ==>
      Ms(ops[i].redis) <= table[ops[i].Key()].until
  }

  lemma {:induction false} StaysInTime(table: Table, ops: seq<Op>, skew: int)
    requires Valid(ops) && Alike(ops) && Synchronised(ops, skew) && skew >= 0 && Covered(table, ops)
    requires forall i :: 0 <= i < |ops| && ops[i].Call? ==> OutlivesWindow(ops[i].tier.window, skew)
    ensures InTime(table, ops)
    decreases |ops|
  {
    if ops != [] {
      var op, rest := ops[0], ops[1..];
      var table' := IdealNext(table, op);
      forall i | 0 <= i < |rest| && rest[i].Ran() && rest[i].Key() in table'
        ensures Ms(rest[i].redis) <= table'[rest[i].Key()].until
      {
        assert rest[i] == ops[i + 1];
        if rest[i].Key() !in table {
          MeetsDeadline(op, rest[i], skew);
        }
      }
      StaysInTime(table', rest, skew);
    }
  }

  /** Clocks so close that every time to live leaves room for their differences. */
  ghost predicate ClocksClose(ops: seq<Op>, skew: nat)
    requires Valid(ops)
  {
    && Synchronised(ops, skew) && RedisRuns(ops, 0)
    && forall i :: 0 <= i < |ops| && ops[i].Call? ==> OutlivesWindow(ops[i].tier.window, skew)
  }

  /** While the clocks stay that close, every call is in time: the doubled time to live is enough. */
  lemma ClocksCloseEnough(ops: seq<Op>, skew: nat)
    requires Valid(ops) && Alike(ops) && ClocksClose(ops, skew)
    ensures InTime(map[], ops) && Counts(map[], ops) == IdealCounts(map[], ops)
  {
    StaysInTime(map[], ops, skew);
    SharedCountsExactly(ops);
  }

  /** A window of whole milliseconds tolerates clocks that differ by as much as the window. */
  lemma WholeMilliseconds(window: int, skew: int)
    requires window > 0 && window % MILLISECOND == 0
    ensures OutlivesWindow(window, skew) <==> skew <= window
  {
    var k := window / MILLISECOND;
    assert 2 * window == 2 * k * MILLISECOND;
  }

  /**
   * With a clock so much further behind, the same client gets a second allowance in the same window:
   * whatever the limiter, the client and the time, its next call counts as a first one again.
   */
  lemma SecondAllowance(tier: Limiter, client: string, clock: nat, redis: nat, lead: nat)
    requires tier.Valid() && TtlMs(tier.window) > 0 && lead >= (TtlMs(tier.window) + 1) * MILLISECOND
    ensures var x := Call(1, tier, client, clock, redis, Answered);
      var y := Call(2, tier, client, clock, redis + lead, Answered);
      var ops := [x, y];
      && Valid(ops) && RedisRuns(ops, 0) && Synchronised(ops, lead)
      && Counts(map[], ops) == [1, 1] && IdealCounts(map[], ops) == [1, 2]
  {
    var x, y := Call(1, tier, client, clock, redis, Answered), Call(2, tier, client, clock, redis + lead, Answered);
    assert [x, y][1..] == [y] && [y][1..] == [];
    LaterMilliseconds(redis, lead, TtlMs(tier.window));
    assert x.Key() == y.Key();
    assert Count(map[], x) == 1 && Count(SharedNext(map[], x), y) == 1;
  }

  lemma LaterMilliseconds(t: nat, lead: nat, ms: int)
    requires lead >= (ms + 1) * MILLISECOND
    ensures Ms(t + lead) > Ms(t) + ms
  {
  }

  /** A window under half a millisecond rounds to no time to live, and then nobody is ever limited. */
  lemma {:induction false} TinyWindowNeverLimits(ops: seq<Op>)
    requires Valid(ops) && forall i :: 0 <= i < |ops| && ops[i].Call? ==> 2 * ops[i].tier.window < MILLISECOND
    ensures forall i :: 0 <= i < |ops| && ops[i].Ran() ==> Counts(map[], ops)[i] == 1
  {
    if ops != [] {
      TinyWindowNeverLimits(ops[1..]);
      assert SharedNext(map[], ops[0]) == map[];
      forall i | 0 <= i < |ops| && ops[i].Ran() ensures Counts(map[], ops)[i] == 1 {
        if i > 0 {
          assert ops[i] == ops[1..][i - 1];
        }
      }
    }
  }
}
