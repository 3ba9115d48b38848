// The per-process fixed-window counter and its background cleanup
// (internal/middleware/ratelimit_store.go). Times are nanoseconds.
module MemoryLimiter {
  import opened Prelude

  type Time = int

  datatype Client = Client(count: int, resetTime: Time)
  type Clients = map<string, Client>

  /** The entry that still counts for a key: time.After is strict. */
  function Live(m: Clients, key: string, now: Time): Option<Client>
  {
    if key in m && now <= m[key].resetTime then Some(m[key]) else None
  }

  /** memoryCounterStore.Allow. */
  function Admit(m: Clients, key: string, limit: int, window: nat, now: Time): (Clients, bool)
  {
    match Live(m, key, now)
    case None => (m[key := Client(1, now + window)], true)
    case Some(c) =>
      if c.count >= limit then (m, false)
      else (m[key := c.(count := c.count + 1)], true)
  }

  /** One pass of the cleanup loop. */
  function Cleaned(m: Clients, now: Time): Clients
  {
    map key | key in m && now <= m[key].resetTime :: m[key]
  }

  class MemoryCounterStore {
    var clients: Clients

    constructor ()
      ensures clients == map[]
    {
      clients := map[];
    }

    method Allow(key: string, limit: int, window: nat, now: Time) returns (allowed: bool)
      modifies this
      ensures (clients, allowed) == Admit(old(clients), key, limit, window, now)
      ensures key !in old(clients) || old(clients)[key].resetTime < now ==>
        allowed && clients == old(clients)[key := Client(1, now + window)]
      ensures key in old(clients) && now <= old(clients)[key].resetTime ==>
        var c := old(clients)[key];
        && (allowed <==> c.count < limit)
        && clients == if allowed then old(clients)[key := Client(c.count + 1, c.resetTime)] else old(clients)
    {
      if key !in clients || now > clients[key].resetTime {
        clients := clients[key := Client(1, now + window)];
        return true;
      }
      var c := clients[key];
      if c.count >= limit {
        return false;
      }
      clients := clients[key := c.(count := c.count + 1)];
      return true;
    }

    method Cleanup(now: Time)
      modifies this
      ensures clients == Cleaned(old(clients), now)
      ensures forall key :: key in clients <==> key in old(clients) && now <= old(clients)[key].resetTime
      ensures forall key :: key in clients ==> clients[key] == old(clients)[key]
    {
      var todo := clients.Keys;
      while todo != {}
        invariant todo <= clients.Keys <= old(clients).Keys
        invariant forall key :: key in clients ==> clients[key] == old(clients)[key]
        invariant forall key :: key in old(clients) && key !in todo ==>
          (key in clients <==> now <= old(clients)[key].resetTime)
        decreases |todo|
      {
        var key :| key in todo;
        if now > clients[key].resetTime {
          clients := clients - {key};
        }
        todo := todo - {key};
      }
    }
  }

  // ---- Runs: calls and cleanup passes, in time order ----

  datatype Op = Call(key: string, at: Time) | Cleanup(at: Time)

  ghost predicate InOrder(ops: seq<Op>, now: Time)
  {
    && (forall i :: 0 <= i < |ops| ==> now <= ops[i].at)
    && (forall i, j :: 0 <= i < j < |ops| ==> ops[i].at <= ops[j].at)
  }

  function Next(m: Clients, op: Op, limit: int, window: nat): Clients
  {
    match op
    case Call(key, at) => Admit(m, key, limit, window, at).0
    case Cleanup(at) => Cleaned(m, at)
  }

  /** The answers to the calls of a run. */
  function Answers(m: Clients, ops: seq<Op>, limit: int, window: nat): seq<bool>
    decreases |ops|
  {
    if ops == [] then []
    else (if ops[0].Call? then [Admit(m, ops[0].key, limit, window, ops[0].at).1] else [])
         + Answers(Next(m, ops[0], limit, window), ops[1..], limit, window)
  }

  function CallsOnly(ops: seq<Op>): seq<Op>
  {
    if ops == [] then [] else (if ops[0].Call? then [ops[0]] else []) + CallsOnly(ops[1..])
  }

  /** The two maps cannot be told apart from now on. */
  ghost predicate Agree(m: Clients, n: Clients, now: Time)
  {
    forall key :: Live(m, key, now) == Live(n, key, now)
  }

  lemma AgreeLater(m: Clients, n: Clients, now: Time, later: Time)
    requires Agree(m, n, now) && now <= later
    ensures Agree(m, n, later)
  {
    forall key ensures Live(m, key, later) == Live(n, key, later) {
      assert Live(m, key, now) == Live(n, key, now);
    }
  }

  lemma AgreeAfterCall(m: Clients, n: Clients, key: string, limit: int, window: nat, now: Time)
    requires Agree(m, n, now)
    ensures Admit(m, key, limit, window, now).1 == Admit(n, key, limit, window, now).1
    ensures Agree(Admit(m, key, limit, window, now).0, Admit(n, key, limit, window, now).0, now)
  {
    assert Live(m, key, now) == Live(n, key, now);
    var m', n' := Admit(m, key, limit, window, now).0, Admit(n, key, limit, window, now).0;
    forall k ensures Live(m', k, now) == Live(n', k, now) {
      assert Live(m, k, now) == Live(n, k, now);
    }
  }

  /** Cleanup passes, wherever they fall in a run, change no answer. */
  lemma {:induction false} CleanupInvisible(m: Clients, n: Clients, ops: seq<Op>, limit: int, window: nat, now: Time)
    requires InOrder(ops, now) && Agree(m, n, now)
    ensures Answers(m, ops, limit, window) == Answers(n, CallsOnly(ops), limit, window)
    decreases |ops|
  {
    if ops != [] {
      var op, rest := ops[0], ops[1..];
      AgreeLater(m, n, now, op.at);
      assert InOrder(rest, op.at);
      if op.Call? {
        AgreeAfterCall(m, n, op.key, limit, window, op.at);
        CleanupInvisible(Next(m, op, limit, window), Next(n, op, limit, window), rest, limit, window, op.at);
        assert CallsOnly(ops)[0] == op && CallsOnly(ops)[1..] == CallsOnly(rest);
      } else {
        forall key ensures Live(Cleaned(m, op.at), key, op.at) == Live(n, key, op.at) {
          assert Live(m, key, op.at) == Live(n, key, op.at);
        }
        CleanupInvisible(Cleaned(m, op.at), n, rest, limit, window, op.at);
        assert CallsOnly(ops) == CallsOnly(rest);
      }
    }
  }

  // ---- How many requests get through ----

  /** x / w rounded up, and 0 for what is not positive. */
  function CeilDiv(x: int, w: int): (q: nat)
    requires w > 0
  {
    if x <= 0 then 0 else (x - 1) / w + 1
  }

  lemma DivMonotone(x: int, y: int, w: int)
    requires 0 <= x <= y && w > 0
    ensures x / w <= y / w
  {
    assert x == w * (x / w) + x % w;
    assert y == w * (y / w) + y % w;
    if y / w < x / w {
      Scale(w, y / w + 1, x / w);
    }
  }

  lemma DivUnique(x: int, w: int, q: int, r: int)
    requires w > 0 && x == w * q + r && 0 <= r < w
    ensures x / w == q
  {
    var p := x / w;
    assert x == w * p + x % w;
    if p < q {
      Scale(w, p + 1, q);
    } else if q < p {
      Scale(w, q + 1, p);
    }
  }

  lemma DivStep(y: int, w: int)
    requires w > 0
    ensures y / w == (y - w) / w + 1
  {
    var q := (y - w) / w;
    assert y - w == w * q + (y - w) % w;
    assert w * (q + 1) == w * q + w;
    DivUnique(y, w, q + 1, (y - w) % w);
  }

  lemma CeilMonotone(x: int, y: int, w: int)
    requires x <= y && w > 0
    ensures CeilDiv(x, w) <= CeilDiv(y, w)
  {
    if x > 0 {
      DivMonotone(x - 1, y - 1, w);
    }
  }

  lemma CeilStep(x: int, w: int)
    requires x > 0 && w > 0
    ensures CeilDiv(x, w) >= 1 + CeilDiv(x - w, w)
  {
    if x > w {
      DivStep(x - 1, w);
    }
  }

  lemma Scale(m: int, x: int, y: int)
    requires 0 <= m && x <= y
    ensures m * x <= m * y
  {
  }

  /** The requests for `key` admitted at times in [a, b]. */
  function Admitted(m: Clients, ops: seq<Op>, limit: int, window: nat, key: string, a: Time, b: Time): nat
    decreases |ops|
  {
    if ops == [] then 0
    else
      (if ops[0].Call? && ops[0].key == key && a <= ops[0].at <= b && Admit(m, key, limit, window, ops[0].at).1
       then 1 else 0)
      + Admitted(Next(m, ops[0], limit, window), ops[1..], limit, window, key, a, b)
  }

  /** How many may still get through up to time b, given the entry that is live now. */
  function Budget(c: Option<Client>, most: int, window: nat, now: Time, b: Time): int
    requires window > 0
  {
    if now > b then 0
    else match c
      case None => most * (1 + CeilDiv(b - now - window, window))
      case Some(c) => (most - c.count) + most * CeilDiv(b - c.resetTime, window)
  }

  ghost predicate CountsOk(m: Clients, most: int)
  {
    forall key :: key in m ==> 1 <= m[key].count <= most
  }

  lemma CountsStay(m: Clients, op: Op, limit: int, window: nat)
    requires CountsOk(m, Max(1, limit))
    ensures CountsOk(Next(m, op, limit, window), Max(1, limit))
  {
  }

  /** Waiting never adds to the budget. */
  lemma TimePasses(m: Clients, key: string, most: int, window: nat, now: Time, later: Time, b: Time)
    requires CountsOk(m, most) && most >= 1 && window > 0 && now <= later
    ensures Budget(Live(m, key, later), most, window, later, b) <= Budget(Live(m, key, now), most, window, now, b)
  {
    if later <= b {
      match Live(m, key, now)
      case None =>
        CeilMonotone(b - later - window, b - now - window, window);
        Scale(most, 1 + CeilDiv(b - later - window, window), 1 + CeilDiv(b - now - window, window));
      case Some(c) =>
        if later > c.resetTime {
          CeilStep(b - c.resetTime, window);
          CeilMonotone(b - later - window, b - c.resetTime - window, window);
          Scale(most, 1 + CeilDiv(b - later - window, window), CeilDiv(b - c.resetTime, window));
        }
    } else {
      BudgetNonNegative(Live(m, key, now), most, window, now, b);
    }
  }

  lemma BudgetNonNegative(c: Option<Client>, most: int, window: nat, now: Time, b: Time)
    requires most >= 1 && window > 0 && (c.Some? ==> c.value.count <= most)
    ensures Budget(c, most, window, now, b) >= 0
  {
    if c.Some? {
      Scale(most, 0, CeilDiv(b - c.value.resetTime, window));
    } else {
      Scale(most, 0, 1 + CeilDiv(b - now - window, window));
    }
  }

  /** An admitted request pays for itself; nothing else touches the budget of its key. */
  lemma OpPays(m: Clients, op: Op, limit: int, window: nat, key: string, b: Time)
    requires CountsOk(m, Max(1, limit)) && window > 0 && op.at <= b
    ensures var most, m' := Max(1, limit), Next(m, op, limit, window);
      var paid := if op.Call? && op.key == key && Admit(m, key, limit, window, op.at).1 then 1 else 0;
      Budget(Live(m', key, op.at), most, window, op.at, b) + paid <= Budget(Live(m, key, op.at), most, window, op.at, b)
  {
    var most := Max(1, limit);
    if op.Call? && op.key == key && Live(m, key, op.at).None? {
      var k := CeilDiv(b - op.at - window, window);
      assert most * (1 + k) == most + most * k;
      assert b - op.at - window == b - (op.at + window);
    }
  }

  lemma {:induction false} AdmittedWithinBudget(m: Clients, ops: seq<Op>, limit: int, window: nat, key: string,
                                                a: Time, b: Time, now: Time)
    requires InOrder(ops, now) && a <= now && window > 0 && CountsOk(m, Max(1, limit))
    ensures Admitted(m, ops, limit, window, key, a, b) <= Budget(Live(m, key, now), Max(1, limit), window, now, b)
    decreases |ops|
  {
    var most := Max(1, limit);
    if ops == [] {
      BudgetNonNegative(Live(m, key, now), most, window, now, b);
    } else {
      var op, rest := ops[0], ops[1..];
      var m' := Next(m, op, limit, window);
      CountsStay(m, op, limit, window);
      TimePasses(m, key, most, window, now, op.at, b);
      AdmittedWithinBudget(m', rest, limit, window, key, a, b, op.at);
      if op.at <= b {
        OpPays(m, op, limit, window, key, b);
      }
    }
  }

  /**
   * Over any run of calls and cleanups, at most max(1, limit) * (ceil(L / window) + 1) requests
   * for one key get through in a closed interval of length L.
   */
  lemma {:induction false} AdmittedBound(m: Clients, ops: seq<Op>, limit: int, window: nat, key: string, a: Time,
                                         b: Time, now: Time)
    requires InOrder(ops, now) && a <= b && window > 0 && CountsOk(m, Max(1, limit))
    ensures Admitted(m, ops, limit, window, key, a, b) <= Max(1, limit) * (CeilDiv(b - a, window) + 1)
    decreases |ops|
  {
    var most := Max(1, limit);
    Scale(most, 0, CeilDiv(b - a, window) + 1);
    hide Budget, CeilDiv;
    if ops != [] {
      if ops[0].at < a {
        CountsStay(m, ops[0], limit, window);
        AdmittedBound(Next(m, ops[0], limit, window), ops[1..], limit, window, key, a, b, ops[0].at);
      } else {
        AdmittedWithinBudget(m, ops, limit, window, key, a, b, a);
        BudgetAtMost(Live(m, key, a), most, window, a, b);
      }
    }
  }

  /** A budget never exceeds a full allowance for each window that the interval can touch. */
  lemma BudgetAtMost(c: Option<Client>, most: int, window: nat, a: Time, b: Time)
    requires most >= 1 && window > 0 && a <= b && (c.Some? ==> a <= c.value.resetTime && c.value.count >= 0)
    ensures Budget(c, most, window, a, b) <= most * (CeilDiv(b - a, window) + 1)
  {
    match c
    case None =>
      CeilMonotone(b - a - window, b - a, window);
      Scale(most, 1 + CeilDiv(b - a - window, window), CeilDiv(b - a, window) + 1);
    case Some(c) =>
      CeilMonotone(b - c.resetTime, b - a, window);
      Scale(most, CeilDiv(b - c.resetTime, window), CeilDiv(b - a, window));
      OneMore(most, CeilDiv(b - a, window));
  }

  lemma OneMore(x: int, k: int)
    ensures x * (k + 1) == x * k + x
  {
  }

  function Calls(ops: seq<Op>, key: string): nat
  {
    if ops == [] then 0 else (if ops[0].Call? && ops[0].key == key then 1 else 0) + Calls(ops[1..], key)
  }

  /**
   * And the limiter is not stricter than it should be: while the entry of a key lasts, whatever
   * other keys and the cleanup do, its calls get through until the allowance is used up.
   */
  lemma {:induction false} WindowAdmitsRest(m: Clients, ops: seq<Op>, limit: int, window: nat, key: string, end: Time,
                                            used: nat, a: Time, now: Time)
    requires InOrder(ops, now) && a <= now && Live(m, key, now) == Some(Client(used, end)) && 1 <= used <= Max(1, limit)
    requires forall i :: 0 <= i < |ops| ==> ops[i].at <= end
    ensures Admitted(m, ops, limit, window, key, a, end) == Min(Calls(ops, key), Max(1, limit) - used)
    decreases |ops|
  {
    if ops != [] {
      var op, rest := ops[0], ops[1..];
      assert InOrder(rest, op.at) && forall i :: 0 <= i < |rest| ==> rest[i] == ops[i + 1];
      var m' := Next(m, op, limit, window);
      if op.Call? && op.key == key && used < limit {
        WindowAdmitsRest(m', rest, limit, window, key, end, used + 1, a, op.at);
      } else {
        WindowAdmitsRest(m', rest, limit, window, key, end, used, a, op.at);
      }
    }
  }

  /** Of the calls for a key in one window, from the call that opens it, exactly the first max(1, limit) get through. */
  lemma WindowAdmitsExactly(m: Clients, ops: seq<Op>, limit: int, window: nat, key: string)
    requires ops != [] && InOrder(ops, ops[0].at) && ops[0] == Call(key, ops[0].at) && Live(m, key, ops[0].at).None?
    requires forall i :: 0 <= i < |ops| ==> ops[i].at <= ops[0].at + window
    ensures Admitted(m, ops, limit, window, key, ops[0].at, ops[0].at + window) == Min(Calls(ops, key), Max(1, limit))
  {
    var op, rest := ops[0], ops[1..];
    assert InOrder(rest, op.at) && forall i :: 0 <= i < |rest| ==> rest[i] == ops[i + 1];
    WindowAdmitsRest(Next(m, op, limit, window), rest, limit, window, key, op.at + window, 1, op.at, op.at);
  }

  // ---- The allowance comes back ----

  function After(m: Clients, ops: seq<Op>, limit: int, window: nat): Clients
    decreases |ops|
  {
    if ops == [] then m else After(Next(m, ops[0], limit, window), ops[1..], limit, window)
  }

  /** The entry of a key that ends at `end`: it lasts until then, and no other takes its place. */
  predicate EndsAt(m: Clients, key: string, end: Time, now: Time)
  {
    (key in m ==> m[key].resetTime == end) && (now <= end ==> key in m)
  }

  lemma {:induction false} KeepsItsEnd(m: Clients, ops: seq<Op>, limit: int, window: nat, key: string, end: Time,
                                       now: Time, later: Time)
    requires InOrder(ops, now) && EndsAt(m, key, end, now) && now <= later
    requires forall i :: 0 <= i < |ops| ==>
      ops[i].at <= later && (ops[i].Call? && ops[i].key == key ==> ops[i].at <= end)
    ensures EndsAt(After(m, ops, limit, window), key, end, later)
    decreases |ops|
  {
    if ops != [] {
      var op, rest := ops[0], ops[1..];
      assert InOrder(rest, op.at) && forall i :: 0 <= i < |rest| ==> rest[i] == ops[i + 1];
      KeepsItsEnd(Next(m, op, limit, window), rest, limit, window, key, end, op.at, later);
    }
  }

  /**
   * A window that a call opens at t is over at t + window: whatever else runs, the first call for
   * the key after that gets through, and from it on exactly max(1, limit) calls do so again.
   */
  lemma AllowanceReturns(m: Clients, ops: seq<Op>, limit: int, window: nat, key: string, i: nat, j: nat)
    requires ops != [] && InOrder(ops, ops[0].at) && ops[0] == Call(key, ops[0].at) && Live(m, key, ops[0].at).None?
    requires 0 < i < j <= |ops| && ops[i] == Call(key, ops[i].at) && ops[i].at > ops[0].at + window
    requires forall k :: 0 < k < i && ops[k].Call? && ops[k].key == key ==> ops[k].at <= ops[0].at + window
    requires ops[j - 1].at <= ops[i].at + window
    ensures var s := After(m, ops[..i], limit, window);
      && Admit(s, key, limit, window, ops[i].at).1
      && Admitted(s, ops[i..j], limit, window, key, ops[i].at, ops[i].at + window)
         == Min(Calls(ops[i..j], key), Max(1, limit))
  {
    var t, front, part := ops[0].at, ops[1..i], ops[i..j];
    var first := Next(m, ops[0], limit, window);
    assert InOrder(front, t) && forall k :: 0 <= k < |front| ==> front[k] == ops[k + 1];
    KeepsItsEnd(first, front, limit, window, key, t + window, t, ops[i].at);
    var s := After(first, front, limit, window);
    assert ops[..i][0] == ops[0] && ops[..i][1..] == front;
    assert s == After(m, ops[..i], limit, window);
    assert part[0] == ops[i] && forall k :: 0 <= k < |part| ==> part[k] == ops[i + k];
    assert InOrder(part, ops[i].at);
    WindowAdmitsExactly(s, part, limit, window, key);
  }
}
