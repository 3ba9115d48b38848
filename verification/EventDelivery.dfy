// At-least-once delivery of file events through a Redis stream and its consumer group: many
// workers, retries, cancellation, crashes, reclaiming and dead letters (internal/events/redis.go).
module EventDelivery {
  import opened Prelude

  type MessageId = nat // the position in the stream
  type WorkerId = nat

  const FILE_UPLOADED := "file_uploaded"
  const MAX_RETRIES := 3
  const READ_BATCH := 10

  /** The two fields that decide how a message is handled; a missing one reads as "". */
  datatype Event = Event(kind: string, fileId: string)

  predicate WellFormed(e: Event)
  {
    e.kind == FILE_UPLOADED && e.fileId != ""
  }

  /** Where a worker stands with the message it is handling. */
  datatype Phase =
    | Ready
    | Skipping(id: MessageId)              // unknown or empty: to be acknowledged unhandled
    | Trying(id: MessageId, failures: nat) // about to call the handler
    | Passed(id: MessageId)                // the handler succeeded, not acknowledged
    | Exhausted(id: MessageId)             // the last try failed, no dead letter yet
    | Filed(id: MessageId, appended: bool) // the dead-letter append was tried

  datatype Worker = Worker(queue: seq<MessageId>, phase: Phase)

  datatype DeadLetter = DeadLetter(id: MessageId, event: Event)

  datatype State = State(
    stream: seq<Event>,
    cursor: nat,                   // the group's last delivered position
    pending: set<MessageId>,       // the group's pending entries list
    deadLetters: seq<DeadLetter>,
    workers: map<WorkerId, Worker>,
    // History, read by no step:
    handled: set<MessageId>,       // some handler call for it succeeded
    exhausted: set<MessageId>,     // MAX_RETRIES handler calls failed in one delivery
    lost: set<MessageId>,          // a dead-letter append for it failed
    acked: set<MessageId>)         // an acknowledgement of it reached Redis

  function Init(): State
  {
    State([], 0, {}, [], map[], {}, {}, {}, {})
  }

  datatype Step =
    | Publish(event: Event)
    | Read(w: WorkerId, count: nat)             // XREADGROUP >
    | Claim(w: WorkerId, ids: seq<MessageId>)   // XAUTOCLAIM, or a restart
    | Take(w: WorkerId)
    | Succeed(w: WorkerId)
    | Fail(w: WorkerId)
    | Append(w: WorkerId, ok: bool)
    | Ack(w: WorkerId, ok: bool)
    | Cancel(w: WorkerId)                       // the context ended: leave the message pending
    | Crash(w: WorkerId)

  predicate Enabled(s: State, step: Step)
  {
    match step
    case Publish(_) => true
    case Read(w, n) => w in s.workers ==> s.workers[w] == Worker([], Ready)
    case Claim(w, ids) =>
      (w in s.workers ==> s.workers[w] == Worker([], Ready)) && forall i :: 0 <= i < |ids| ==> ids[i] in s.pending
    case Take(w) => w in s.workers && s.workers[w].phase.Ready? && s.workers[w].queue != []
    case Succeed(w) => w in s.workers && s.workers[w].phase.Trying?
    case Fail(w) => w in s.workers && s.workers[w].phase.Trying?
    case Append(w, _) => w in s.workers && s.workers[w].phase.Exhausted?
    case Ack(w, _) =>
      w in s.workers && (s.workers[w].phase.Skipping? || s.workers[w].phase.Passed? || s.workers[w].phase.Filed?)
    case Cancel(w) => w in s.workers && s.workers[w].phase.Trying?
    case Crash(w) => w in s.workers
  }

  function Range(first: nat, end: nat): (r: seq<MessageId>)
    requires first <= end
    ensures |r| == end - first
    ensures forall i :: 0 <= i < |r| ==> r[i] == first + i
  {
    seq(end - first, i requires 0 <= i => first + i)
  }

  function WithPhase(s: State, w: WorkerId, p: Phase): State
    requires w in s.workers
  {
    s.(workers := s.workers[w := s.workers[w].(phase := p)])
  }

  /** A read hands out what is there, at most a batch. */
  function ReadTo(s: State, count: nat): (to: nat)
    ensures s.cursor <= to && to <= s.cursor + READ_BATCH && (s.cursor <= |s.stream| ==> to <= |s.stream|)
  {
    var wanted := s.cursor + (if count < READ_BATCH then count else READ_BATCH);
    if wanted <= |s.stream| then wanted else if s.cursor <= |s.stream| then |s.stream| else s.cursor
  }

  function Apply(s: State, step: Step): State
    requires Enabled(s, step)
  {
    match step
    case Publish(e) => s.(stream := s.stream + [e])
    case Read(w, n) =>
      var batch := Range(s.cursor, ReadTo(s, n));
      s.(cursor := ReadTo(s, n), pending := s.pending + (set id | id in batch),
         workers := s.workers[w := Worker(batch, Ready)])
    case Claim(w, ids) => s.(workers := s.workers[w := Worker(ids, Ready)])
    case Take(w) =>
      var id := s.workers[w].queue[0];
      var p := if id < |s.stream| && WellFormed(s.stream[id]) then Trying(id, 0) else Skipping(id);
      s.(workers := s.workers[w := Worker(s.workers[w].queue[1..], p)])
    case Succeed(w) => WithPhase(s, w, Passed(s.workers[w].phase.id)).(handled := s.handled + {s.workers[w].phase.id})
    case Fail(w) =>
      var p := s.workers[w].phase;
      if p.failures + 1 < MAX_RETRIES then WithPhase(s, w, Trying(p.id, p.failures + 1))
      else WithPhase(s, w, Exhausted(p.id)).(exhausted := s.exhausted + {p.id})
    case Append(w, ok) =>
      var id := s.workers[w].phase.id;
      var e := if id < |s.stream| then s.stream[id] else Event("", "");
      if ok then WithPhase(s, w, Filed(id, true)).(deadLetters := s.deadLetters + [DeadLetter(id, e)])
      else WithPhase(s, w, Filed(id, false)).(lost := s.lost + {id})
    case Ack(w, ok) =>
      var id := s.workers[w].phase.id;
      if ok then WithPhase(s, w, Ready).(pending := s.pending - {id}, acked := s.acked + {id})
      else WithPhase(s, w, Ready)
    case Cancel(w) => WithPhase(s, w, Ready)
    case Crash(w) => s.(workers := s.workers[w := Worker([], Ready)])
  }

  predicate IsRun(s: State, run: seq<Step>)
    decreases |run|
  {
    run != [] ==> Enabled(s, run[0]) && IsRun(Apply(s, run[0]), run[1..])
  }

  function After(s: State, run: seq<Step>): State
    requires IsRun(s, run)
    decreases |run|
  {
    if run == [] then s else After(Apply(s, run[0]), run[1..])
  }

  // ---- The three places a published message can be ----

  predicate Undelivered(s: State, id: MessageId)
  {
    s.cursor <= id < |s.stream|
  }

  predicate Acknowledged(s: State, id: MessageId)
  {
    id in s.acked
  }

  predicate DeadLettered(s: State, id: MessageId)
  {
    id < |s.stream| && DeadLetter(id, s.stream[id]) in s.deadLetters
  }

  /** A dead letter was written for it, or the attempt to write one failed. */
  predicate AccountedFor(s: State, id: MessageId)
  {
    id in s.handled || (id in s.exhausted && (DeadLettered(s, id) || id in s.lost))
  }

  /** A well-formed message that has been delivered. */
  predicate Genuine(s: State, id: MessageId)
  {
    id < s.cursor && id < |s.stream| && WellFormed(s.stream[id])
  }

  predicate PhaseOk(s: State, p: Phase)
  {
    match p
    case Ready => true
    case Skipping(id) => id < s.cursor && id < |s.stream| && !WellFormed(s.stream[id])
    case Trying(id, n) => Genuine(s, id) && n < MAX_RETRIES
    case Passed(id) => Genuine(s, id) && id in s.handled
    case Exhausted(id) => Genuine(s, id) && id in s.exhausted
    case Filed(id, appended) =>
      Genuine(s, id) && id in s.exhausted && (if appended then DeadLettered(s, id) else id in s.lost)
  }

  /** What was delivered is either acknowledged or pending. */
  ghost predicate Placed(s: State)
  {
    s.acked !! s.pending && forall id: MessageId :: id < s.cursor <==> id in s.acked || id in s.pending
  }

  ghost predicate Inv(s: State)
  {
    && s.cursor <= |s.stream|
    && Placed(s)
    && (forall w :: w in s.workers ==>
          PhaseOk(s, s.workers[w].phase) && forall i :: 0 <= i < |s.workers[w].queue| ==>
            s.workers[w].queue[i] < s.cursor)
    && (forall id: MessageId :: Acknowledged(s, id) && WellFormed(s.stream[id]) ==> AccountedFor(s, id))
    && (forall d :: d in s.deadLetters ==> d.id in s.exhausted && d.id < s.cursor && d.event == s.stream[d.id])
  }

  /** What is known about a message is never forgotten. */
  ghost predicate Grows(s: State, t: State)
  {
    && s.stream <= t.stream && s.cursor <= t.cursor && s.handled <= t.handled && s.exhausted <= t.exhausted
    && s.lost <= t.lost && s.deadLetters <= t.deadLetters && s.acked <= t.acked
    && (forall id :: id in t.pending ==> id in s.pending || id >= s.cursor)
  }

  lemma StepGrows(s: State, step: Step)
    requires Enabled(s, step)
    ensures Grows(s, Apply(s, step))
  {
  }

  lemma StaysAccounted(s: State, t: State, id: MessageId)
    requires Grows(s, t) && AccountedFor(s, id)
    ensures AccountedFor(t, id)
  {
    if DeadLettered(s, id) {
      assert t.stream[id] == s.stream[id];
    }
  }

  lemma PhaseStays(s: State, t: State, p: Phase)
    requires Grows(s, t) && PhaseOk(s, p) && s.cursor <= |s.stream|
    ensures PhaseOk(t, p)
  {
    if !p.Ready? {
      assert t.stream[p.id] == s.stream[p.id];
      if p.Filed? {
        StaysAccounted(s, t, p.id);
      }
    }
  }

  lemma WorkersStay(s: State, t: State, w: WorkerId)
    requires Inv(s) && Grows(s, t) && w in t.workers
    requires forall v :: v in t.workers && v != w ==> v in s.workers && t.workers[v] == s.workers[v]
    requires PhaseOk(t, t.workers[w].phase)
    requires forall i :: 0 <= i < |t.workers[w].queue| ==> t.workers[w].queue[i] < t.cursor
    ensures forall v :: v in t.workers ==>
      PhaseOk(t, t.workers[v].phase) && forall i :: 0 <= i < |t.workers[v].queue| ==> t.workers[v].queue[i] < t.cursor
  {
    forall v | v in t.workers ensures PhaseOk(t, t.workers[v].phase) {
      if v != w {
        PhaseStays(s, t, s.workers[v].phase);
      }
    }
  }

  lemma AcksStay(s: State, t: State, id: MessageId)
    requires Inv(s) && Grows(s, t) && Acknowledged(s, id) && WellFormed(s.stream[id])
    ensures AccountedFor(t, id)
  {
    assert t.stream[id] == s.stream[id];
    StaysAccounted(s, t, id);
  }

  lemma LettersStay(s: State, t: State)
    requires Inv(s) && Grows(s, t)
    requires forall d :: d in t.deadLetters && d !in s.deadLetters ==>
      d.id in t.exhausted && d.id < t.cursor <= |t.stream| && d.event == t.stream[d.id]
    requires t.cursor <= |t.stream|
    ensures forall d :: d in t.deadLetters ==> d.id in t.exhausted && d.id < t.cursor && d.event == t.stream[d.id]
  {
  }

  lemma StepKeeps(s: State, step: Step)
    requires Inv(s) && Enabled(s, step)
    ensures Inv(Apply(s, step))
  {
    var t := Apply(s, step);
    StepGrows(s, step);
    if step.Publish? {
      forall v | v in t.workers ensures PhaseOk(t, t.workers[v].phase) {
        PhaseStays(s, t, s.workers[v].phase);
      }
    } else {
      WorkerStep(s, step);
      WorkersStay(s, t, step.w);
    }
    PlacesStay(s, step);
    forall id: MessageId | Acknowledged(t, id) && WellFormed(t.stream[id]) ensures AccountedFor(t, id) {
      if Acknowledged(s, id) {
        assert t.stream[id] == s.stream[id];
        AcksStay(s, t, id);
      } else {
        AckAccounts(s, step, id);
      }
    }
    LettersStep(s, step);
    LettersStay(s, t);
  }

  lemma PlacesStay(s: State, step: Step)
    requires Inv(s) && Enabled(s, step)
    ensures Placed(Apply(s, step))
  {
    if step.Read? {
      ReadPlaces(s, step.w, step.count);
    } else if step.Ack? {
      assert PhaseOk(s, s.workers[step.w].phase);
    }
  }

  lemma ReadPlaces(s: State, w: WorkerId, count: nat)
    requires Placed(s) && Enabled(s, Read(w, count))
    ensures Placed(Apply(s, Read(w, count)))
  {
    var t := Apply(s, Read(w, count));
    var batch := Range(s.cursor, ReadTo(s, count));
    forall id: MessageId | s.cursor <= id < t.cursor ensures id in t.pending {
      assert batch[id - s.cursor] == id;
    }
  }

  lemma WorkerStep(s: State, step: Step)
    requires Inv(s) && Enabled(s, step) && !step.Publish?
    ensures var t := Apply(s, step);
      && t.cursor <= |t.stream|
      && step.w in t.workers && PhaseOk(t, t.workers[step.w].phase)
      && (forall v :: v in t.workers && v != step.w ==> v in s.workers && t.workers[v] == s.workers[v])
      && forall i :: 0 <= i < |t.workers[step.w].queue| ==> t.workers[step.w].queue[i] < t.cursor
  {
    var t := Apply(s, step);
    if step.Append? && step.ok {
      var d := DeadLetter(s.workers[step.w].phase.id, s.stream[s.workers[step.w].phase.id]);
      assert t.deadLetters[|s.deadLetters|] == d;
    }
  }

  /**
   * The only way out of the pending list is an acknowledgement that reaches Redis, of a message
   * that was skipped as malformed, handled, or filed as a dead letter.
   */
  lemma AckAccounts(s: State, step: Step, id: MessageId)
    requires Inv(s) && Enabled(s, step) && id < |s.stream|
    ensures var t := Apply(s, step);
      (id in s.pending && id !in t.pending) || (!Acknowledged(s, id) && Acknowledged(t, id)) ==>
        && id in s.pending && id !in t.pending && step == Ack(step.w, true)
        && s.workers[step.w].phase in {Skipping(id), Passed(id), Filed(id, true), Filed(id, false)}
        && (WellFormed(s.stream[id]) <==> !s.workers[step.w].phase.Skipping?)
        && (WellFormed(s.stream[id]) ==> AccountedFor(t, id))
  {
    var t := Apply(s, step);
    StepGrows(s, step);
    if step.Ack? {
      var p := s.workers[step.w].phase;
      assert PhaseOk(s, p);
      if p.id == id && !p.Skipping? {
        StaysAccounted(s, t, id);
      }
    }
  }

  lemma LettersStep(s: State, step: Step)
    requires Inv(s) && Enabled(s, step)
    ensures var t := Apply(s, step);
      forall d :: d in t.deadLetters && d !in s.deadLetters ==>
        d.id in t.exhausted && d.id < t.cursor <= |t.stream| && d.event == t.stream[d.id]
  {
    if step.Append? && step.ok {
      assert PhaseOk(s, s.workers[step.w].phase);
    }
  }

  lemma {:induction false} RunKeeps(s: State, run: seq<Step>)
    requires Inv(s) && IsRun(s, run)
    ensures Inv(After(s, run))
    decreases |run|
  {
    hide Inv, Enabled, Apply;
    if run != [] {
      StepKeeps(s, run[0]);
      RunKeeps(Apply(s, run[0]), run[1..]);
    }
  }

  lemma ReachableInv(run: seq<Step>)
    requires IsRun(Init(), run)
    ensures Inv(After(Init(), run))
  {
    hide IsRun, After;
    assert Inv(Init());
    RunKeeps(Init(), run);
  }

  // ---- Theorems ----

  /** Every published message is in exactly one of the three places. */
  lemma InExactlyOnePlace(run: seq<Step>, id: MessageId)
    requires IsRun(Init(), run) && id < |After(Init(), run).stream|
    ensures var s := After(Init(), run);
      && (Undelivered(s, id) || id in s.pending || Acknowledged(s, id))
      && !(Undelivered(s, id) && id in s.pending) && !(Undelivered(s, id) && Acknowledged(s, id))
      && !(id in s.pending && Acknowledged(s, id))
  {
    hide IsRun, After;
    ReachableInv(run);
  }

  /** Messages only move forward: once acknowledged, a message is never delivered again. */
  lemma {:induction false} AcknowledgedForGood(s: State, run: seq<Step>, id: MessageId)
    requires Inv(s) && IsRun(s, run) && Acknowledged(s, id)
    ensures Acknowledged(After(s, run), id) && id !in After(s, run).pending
    decreases |run|
  {
    if run != [] {
      StepGrows(s, run[0]);
      StepKeeps(s, run[0]);
      hide Apply, Enabled, Inv;
      AcknowledgedForGood(Apply(s, run[0]), run[1..], id);
    }
  }

  /**
   * A well-formed message is acknowledged only after a success, or after three failures in one
   * delivery and a dead-letter append.
   */
  lemma AcknowledgedIsAccountedFor(run: seq<Step>, id: MessageId)
    requires IsRun(Init(), run)
    requires var s := After(Init(), run); Acknowledged(s, id) && id < |s.stream| && WellFormed(s.stream[id])
    ensures AccountedFor(After(Init(), run), id)
  {
    hide IsRun, After;
    ReachableInv(run);
  }

  predicate AppendsSucceed(run: seq<Step>)
  {
    forall i :: 0 <= i < |run| && run[i].Append? ==> run[i].ok
  }

  lemma {:induction false} NothingLost(s: State, run: seq<Step>)
    requires IsRun(s, run) && AppendsSucceed(run)
    ensures After(s, run).lost == s.lost
    decreases |run|
  {
    if run != [] {
      assert run[0].Append? ==> run[0].ok;
      assert forall i :: 0 <= i < |run[1..]| ==> run[1..][i] == run[i + 1];
      LostStep(s, run[0]);
      hide Apply, Enabled;
      NothingLost(Apply(s, run[0]), run[1..]);
    }
  }

  lemma LostStep(s: State, step: Step)
    requires Enabled(s, step)
    ensures (step.Append? && !step.ok) || Apply(s, step).lost == s.lost
  {
  }

  /** While dead-letter appends succeed, every acknowledged well-formed event was handled or is dead-lettered. */
  lemma HandledOrDeadLettered(run: seq<Step>, id: MessageId)
    requires IsRun(Init(), run) && AppendsSucceed(run)
    requires var s := After(Init(), run); Acknowledged(s, id) && id < |s.stream| && WellFormed(s.stream[id])
    ensures var s := After(Init(), run); id in s.handled || DeadLettered(s, id)
  {
    NothingLost(Init(), run);
    AcknowledgedIsAccountedFor(run, id);
  }

  /** And it does happen: one event, three failed tries, one failed append. */
  lemma DroppedEvent(fileId: string) returns (run: seq<Step>)
    requires fileId != ""
    ensures IsRun(Init(), run)
    ensures var s := After(Init(), run);
      s.stream == [Event(FILE_UPLOADED, fileId)] && Acknowledged(s, 0) && 0 !in s.handled && s.deadLetters == []
  {
    var e := Event(FILE_UPLOADED, fileId);
    var last := [Fail(0), Append(0, false), Ack(0, true)];
    var s := State([e], 1, {0}, [], map[0 := Worker([], Trying(0, 2))], {}, {}, {}, {});
    LastTryDrops(s, last);
    run := [Publish(e), Read(0, 1), Take(0), Fail(0), Fail(0)] + last;
    FirstTries(e, run, s, last);
  }

  lemma LastTryDrops(s: State, last: seq<Step>)
    requires s.workers == map[0 := Worker([], Trying(0, 2))] && s.pending == {0} && s.cursor == 1
    requires last == [Fail(0), Append(0, false), Ack(0, true)]
    ensures IsRun(s, last)
    ensures var t := After(s, last);
      && t.stream == s.stream && t.pending == {} && t.cursor == 1
      && t.handled == s.handled && t.deadLetters == s.deadLetters
  {
    assert last[1..] == [Append(0, false), Ack(0, true)];
    assert last[1..][1..] == [Ack(0, true)] && last[1..][1..][1..] == [];
    var s1 := Apply(s, last[0]);
    var s2 := Apply(s1, last[1..][0]);
    assert IsRun(s2, [Ack(0, true)]);
    assert IsRun(s1, last[1..]);
    assert After(s2, [Ack(0, true)]) == Apply(s2, Ack(0, true));
  }

  lemma FirstTries(e: Event, run: seq<Step>, s: State, last: seq<Step>)
    requires WellFormed(e) && IsRun(s, last)
    requires s == State([e], 1, {0}, [], map[0 := Worker([], Trying(0, 2))], {}, {}, {}, {})
    requires run == [Publish(e), Read(0, 1), Take(0), Fail(0), Fail(0)] + last
    ensures IsRun(Init(), run) && After(Init(), run) == After(s, last)
  {
    var s1 := State([e], 0, {}, [], map[], {}, {}, {}, {});
    var s2 := State([e], 1, {0}, [], map[0 := Worker([0], Ready)], {}, {}, {}, {});
    var s3 := State([e], 1, {0}, [], map[0 := Worker([], Trying(0, 0))], {}, {}, {}, {});
    var s4 := State([e], 1, {0}, [], map[0 := Worker([], Trying(0, 1))], {}, {}, {}, {});
    assert Range(0, 1) == [0] && s2.workers[0].queue[1..] == [];
    Prepend(s4, Fail(0), s, last);
    Prepend(s3, Fail(0), s4, [Fail(0)] + last);
    Prepend(s2, Take(0), s3, [Fail(0)] + ([Fail(0)] + last));
    Prepend(s1, Read(0, 1), s2, [Take(0)] + ([Fail(0)] + ([Fail(0)] + last)));
    Prepend(Init(), Publish(e), s1, [Read(0, 1)] + ([Take(0)] + ([Fail(0)] + ([Fail(0)] + last))));
    assert run == [Publish(e)] + ([Read(0, 1)] + ([Take(0)] + ([Fail(0)] + ([Fail(0)] + last))));
  }

  lemma Prepend(s: State, step: Step, t: State, run: seq<Step>)
    requires Enabled(s, step) && Apply(s, step) == t && IsRun(t, run)
    ensures IsRun(s, [step] + run) && After(s, [step] + run) == After(t, run)
  {
    hide Apply, Enabled;
    assert ([step] + run)[1..] == run;
  }

  lemma {:induction false} RunAppend(s: State, run: seq<Step>, step: Step)
    requires IsRun(s, run) && Enabled(After(s, run), step)
    ensures IsRun(s, run + [step]) && After(s, run + [step]) == Apply(After(s, run), step)
    decreases |run|
  {
    var more := run + [step];
    hide Apply, Enabled;
    if run == [] {
      assert more[0] == step && more[1..] == [];
    } else {
      assert more[0] == run[0] && more[1..] == run[1..] + [step];
      RunAppend(Apply(s, run[0]), run[1..], step);
    }
  }

  // ---- The code of one worker ----

  /** What the world does to one delivery: handler results, the end of the context, and whether Redis takes writes. */
  datatype Luck = Luck(handler: nat -> bool, cancelledBefore: nat, appendOk: bool, ackOk: bool)

  /** The first success among the tries the context leaves time for. */
  predicate SucceedsAt(luck: Luck, i: nat)
  {
    i < MAX_RETRIES && i < luck.cancelledBefore && luck.handler(i) && forall k :: 0 <= k < i ==> !luck.handler(k)
  }

  predicate FailsThrice(luck: Luck)
  {
    luck.cancelledBefore >= MAX_RETRIES && !luck.handler(0) && !luck.handler(1) && !luck.handler(2)
  }

  /** With time for all tries, a delivery ends in a success or in three failures. */
  lemma EnoughTries(luck: Luck)
    ensures luck.cancelledBefore >= MAX_RETRIES ==> FailsThrice(luck) || exists i :: SucceedsAt(luck, i)
  {
    if luck.handler(0) {
      assert luck.cancelledBefore >= MAX_RETRIES ==> SucceedsAt(luck, 0);
    } else if luck.handler(1) {
      assert luck.cancelledBefore >= MAX_RETRIES ==> SucceedsAt(luck, 1);
    } else if luck.handler(2) {
      assert luck.cancelledBefore >= MAX_RETRIES ==> SucceedsAt(luck, 2);
    }
  }

  /** What handleMessageWithRetry makes of the worker's next message. */
  ghost predicate Delivered(s: State, t: State, w: WorkerId, luck: Luck)
    requires w in s.workers && s.workers[w].queue != []
  {
    var id := s.workers[w].queue[0];
    && t.workers == s.workers[w := Worker(s.workers[w].queue[1..], Ready)]
    && t.stream == s.stream && t.cursor == s.cursor && id < |s.stream|
    && var good := WellFormed(s.stream[id]);
       var served, filed := good && exists i :: SucceedsAt(luck, i), good && FailsThrice(luck);
       var acked := luck.ackOk && (!good || served || filed);
    && t.handled == (if served then s.handled + {id} else s.handled)
    && t.deadLetters == s.deadLetters + (if filed && luck.appendOk then [DeadLetter(id, s.stream[id])] else [])
    && t.pending == (if acked then s.pending - {id} else s.pending)
    && t.acked == (if acked then s.acked + {id} else s.acked)
  }

  /** A well-formed event that is acknowledged and yet neither handled nor kept as a dead letter. */
  predicate Dropped(s: State, id: MessageId)
  {
    id < |s.stream| && WellFormed(s.stream[id]) && Acknowledged(s, id) && id !in s.handled && !DeadLettered(s, id)
  }

  /**
   * A delivery of a pending event that nothing has served drops the event exactly when its three
   * tries fail, the dead-letter append fails too, and the acknowledgement still goes through.
   */
  lemma DropsExactly(s: State, t: State, w: WorkerId, luck: Luck)
    requires Inv(s) && w in s.workers && s.workers[w].queue != [] && Delivered(s, t, w, luck)
    requires var id := s.workers[w].queue[0]; id in s.pending && id !in s.handled && !DeadLettered(s, id)
    ensures var id := s.workers[w].queue[0];
      Dropped(t, id) <==> WellFormed(s.stream[id]) && FailsThrice(luck) && !luck.appendOk && luck.ackOk
  {
    var id := s.workers[w].queue[0];
    var letter := DeadLetter(id, s.stream[id]);
    if luck.appendOk && WellFormed(s.stream[id]) && FailsThrice(luck) {
      assert t.deadLetters[|s.deadLetters|] == letter;
    }
    if exists i :: SucceedsAt(luck, i) {
      assert WellFormed(s.stream[id]) ==> id in t.handled;
    }
  }

  /** Some handler call for the event succeeded, or it is kept as a dead letter. */
  predicate Kept(s: State, id: MessageId)
  {
    id in s.handled || DeadLettered(s, id)
  }

  /** Enough time for all tries, and Redis takes the acknowledgement. */
  predicate Undisturbed(luck: Luck)
  {
    luck.cancelledBefore >= MAX_RETRIES && luck.ackOk
  }

  /** One delivery of a message, with what it leaves of every other. */
  lemma DeliveryKeeps(s: State, t: State, w: WorkerId, luck: Luck)
    requires w in s.workers && s.workers[w].queue != [] && Delivered(s, t, w, luck)
    ensures var id := s.workers[w].queue[0];
      && (forall other :: Kept(s, other) ==> Kept(t, other)) && s.acked <= t.acked && t.pending <= s.pending
      && (forall other :: other in s.pending && other != id ==> other in t.pending)
      && (Undisturbed(luck) ==> id in t.acked && id !in t.pending)
      && (luck.cancelledBefore >= MAX_RETRIES && luck.appendOk && WellFormed(s.stream[id]) ==> Kept(t, id))
  {
    var id := s.workers[w].queue[0];
    EnoughTries(luck);
    var letter := DeadLetter(id, s.stream[id]);
    if WellFormed(s.stream[id]) && FailsThrice(luck) && luck.appendOk {
      assert t.deadLetters[|s.deadLetters|] == letter;
    }
  }

  lemma DeliveryFrame(s: State, t: State, w: WorkerId, luck: Luck)
    requires w in s.workers && s.workers[w].queue != [] && Delivered(s, t, w, luck)
    ensures t.stream == s.stream && t.cursor == s.cursor && s.workers[w].queue[0] < |s.stream|
    ensures t.workers == s.workers[w := Worker(s.workers[w].queue[1..], Ready)]
  {
  }

  lemma CursorWithin(s: State)
    requires Inv(s)
    ensures s.cursor <= |s.stream|
  {
  }

  /**
   * A crash loses no message: it acknowledges nothing and takes nothing off the pending list, and
   * whoever is free, the crashed worker after its restart included, can claim what is pending.
   */
  lemma CrashedWorkRecoverable(s: State, w: WorkerId, claimer: WorkerId, ids: seq<MessageId>)
    requires Enabled(s, Crash(w)) && forall i :: 0 <= i < |ids| ==> ids[i] in s.pending
    requires claimer == w || claimer !in s.workers || s.workers[claimer] == Worker([], Ready)
    ensures var t := Apply(s, Crash(w));
      && t.stream == s.stream && t.cursor == s.cursor && t.pending == s.pending && t.acked == s.acked
      && t.handled == s.handled && t.deadLetters == s.deadLetters
      && Enabled(t, Claim(claimer, ids)) && Apply(t, Claim(claimer, ids)).workers[claimer].queue == ids
  {
  }

  /** What is still pending of the entries that XAUTOCLAIM has come to. */
  function StillPending(pending: set<MessageId>, ids: seq<MessageId>): (claimed: seq<MessageId>)
    ensures forall id :: id in claimed <==> id in ids && id in pending
  {
    if ids == [] then []
    else (if ids[0] in pending then [ids[0]] else []) + StillPending(pending, ids[1..])
  }

  /** One answer of XAUTOCLAIM: the entries it has come to that are old enough, and whether it is through. */
  datatype Page = Page(ids: seq<MessageId>, last: bool)

  class Consumer {
    var s: State
    ghost var run: seq<Step>

    ghost predicate Valid()
      reads this
    {
      IsRun(Init(), run) && After(Init(), run) == s && Inv(s)
    }

    method Do(step: Step)
      requires Valid() && Enabled(s, step)
      modifies this
      ensures Valid() && s == Apply(old(s), step)
    {
      hide Inv, Enabled, Apply;
      RunAppend(Init(), run, step);
      StepKeeps(s, step);
      s := Apply(s, step);
      run := run + [step];
    }

    /**
     * handleMessageWithRetry on the worker's next message. Malformed messages are acknowledged;
     * otherwise the handler gets up to three tries, the context permitting. The message leaves
     * the pending list exactly when it was skipped, handled or filed, and Redis took the
     * acknowledgement.
     */
    method HandleMessageWithRetry(w: WorkerId, luck: Luck)
      requires Valid() && w in s.workers && s.workers[w].phase.Ready? && s.workers[w].queue != []
      modifies this
      ensures Valid() && Delivered(old(s), s, w, luck)
    {
      hide Inv, IsRun, After, Enabled;
      QueueDelivered(s, w);
      OpenToStep(s, w);
      Do(Take(w));
      if s.workers[w].phase.Trying? {
        TryHandler(w, luck);
      }
      Settle(w, luck);
    }

    /** What is left once no more tries follow: the dead letter, if one is due, and the acknowledgement. */
    method Settle(w: WorkerId, luck: Luck)
      requires Valid() && w in s.workers && !s.workers[w].phase.Trying? && !s.workers[w].phase.Filed?
      modifies this
      ensures Valid() && s.workers == old(s).workers[w := Worker(old(s).workers[w].queue, Ready)]
      ensures s.stream == old(s).stream && s.cursor == old(s).cursor && s.handled == old(s).handled
      ensures var p := old(s).workers[w].phase;
        && (p.Ready? ==> s.deadLetters == old(s).deadLetters && s.pending == old(s).pending && s.acked == old(s).acked)
        && (!p.Ready? ==> s.pending == if luck.ackOk then old(s).pending - {p.id} else old(s).pending)
        && (!p.Ready? ==> s.acked == if luck.ackOk then old(s).acked + {p.id} else old(s).acked)
        && (p.Skipping? || p.Passed? ==> s.deadLetters == old(s).deadLetters)
        && (p.Exhausted? ==> p.id < |s.stream|)
        && (p.Exhausted? && luck.appendOk ==> s.deadLetters == old(s).deadLetters + [DeadLetter(p.id, s.stream[p.id])])
        && (p.Exhausted? && !luck.appendOk ==> s.deadLetters == old(s).deadLetters)
    {
      PhaseFacts(s, w);
      hide Inv, IsRun, After, Enabled;
      if s.workers[w].phase.Exhausted? {
        OpenToStep(s, w);
        Do(Append(w, luck.appendOk));
      }
      if !s.workers[w].phase.Ready? {
        OpenToStep(s, w);
        Do(Ack(w, luck.ackOk));
      }
    }

    /** PublishFileUploaded: one more event at the end of the stream. */
    method PublishFileUploaded(fileId: string)
      requires Valid()
      modifies this
      ensures Valid() && s == old(s).(stream := old(s).stream + [Event("file_uploaded", fileId)])
      ensures WellFormed(s.stream[|old(s).stream|]) <==> fileId != ""
    {
      hide Inv, IsRun, After;
      Do(Publish(Event(FILE_UPLOADED, fileId)));
    }

    /**
     * XREADGROUP: the next entries of the stream, at most ten, become pending and are handed to the
     * worker in stream order.
     */
    method Read(w: WorkerId, count: nat)
      requires Valid() && (w in s.workers ==> s.workers[w] == Worker([], Ready))
      modifies this
      ensures Valid() && w in s.workers && s.workers[w].phase.Ready?
      ensures var queue, left := s.workers[w].queue, |old(s).stream| - old(s).cursor;
        && |queue| == Min(Min(count, 10), left) && s.cursor == old(s).cursor + |queue|
        && (forall i :: 0 <= i < |queue| ==> queue[i] == old(s).cursor + i)
        && (forall id :: id in s.pending <==> id in old(s).pending || id in queue)
      ensures s.stream == old(s).stream && s.acked == old(s).acked && s.handled == old(s).handled
      ensures s.deadLetters == old(s).deadLetters && s.workers == old(s).workers[w := s.workers[w]]
    {
      CursorWithin(s);
      hide Inv, IsRun, After;
      Do(Step.Read(w, count));
    }

    /** XAUTOCLAIM: the pending entries it names are handed to the worker, and stay pending. */
    method Claim(w: WorkerId, ids: seq<MessageId>)
      requires Valid() && (w in s.workers ==> s.workers[w] == Worker([], Ready))
      requires forall i :: 0 <= i < |ids| ==> ids[i] in s.pending
      modifies this
      ensures Valid() && s == old(s).(workers := old(s).workers[w := Worker(ids, Ready)])
    {
      hide Inv, IsRun, After;
      Do(Step.Claim(w, ids));
    }

    /** What the messages of one batch come to, given time and a Redis that takes the writes. */
    ghost predicate Processed(before: State, after: State, ids: seq<MessageId>, luck: MessageId -> Luck)
    {
      && after.stream == before.stream && after.pending <= before.pending && before.acked <= after.acked
      && (forall id :: id in before.pending && id !in ids ==> id in after.pending)
      && (forall id :: Kept(before, id) ==> Kept(after, id))
      && (forall i :: 0 <= i < |ids| && Undisturbed(luck(ids[i])) ==> ids[i] in after.acked && ids[i] !in after.pending)
      && (forall i :: 0 <= i < |ids| && luck(ids[i]).cancelledBefore >= MAX_RETRIES && luck(ids[i]).appendOk ==>
            ids[i] < |after.stream| && (WellFormed(after.stream[ids[i]]) ==> Kept(after, ids[i])))
    }

    /**
     * The messages of one read or one claim, in turn. Unless the context ends or an
     * acknowledgement is refused, all of them are acknowledged; unless the context ends or an
     * append fails, each well-formed one is handled or kept as a dead letter. No other is touched.
     */
    method ProcessBatch(w: WorkerId, luck: MessageId -> Luck)
      requires Valid() && w in s.workers && s.workers[w].phase.Ready?
      modifies this
      ensures Valid() && s.workers == old(s).workers[w := Worker([], Ready)] && s.cursor == old(s).cursor
      ensures Processed(old(s), s, old(s).workers[w].queue, luck)
    {
      hide Inv, IsRun, After, Enabled, Apply, Valid, Delivered, Kept, Undisturbed;
      ghost var before := s;
      ghost var queue := s.workers[w].queue;
      ghost var n := 0;
      assert queue[..0] == [];
      while s.workers[w].queue != []
        invariant Valid() && s.workers.Keys == before.workers.Keys && s.cursor == before.cursor
        invariant 0 <= n <= |queue| && s.workers == before.workers[w := Worker(queue[n..], Ready)]
        invariant Processed(before, s, queue[..n], luck)
        decreases |queue| - n
      {
        var id := s.workers[w].queue[0];
        ghost var r := s;
        HandleMessageWithRetry(w, luck(id));
        DeliveryKeeps(r, s, w, luck(id));
        DeliveryFrame(r, s, w, luck(id));
        assert queue[..n + 1] == queue[..n] + [id];
        n := n + 1;
      }
      assert queue[..n] == queue;
    }

    /** One read and its messages. */
    method ReadAndProcess(w: WorkerId, count: nat, luck: MessageId -> Luck)
      requires Valid() && (w in s.workers ==> s.workers[w] == Worker([], Ready))
      modifies this
      ensures Valid() && w in s.workers && s.workers[w] == Worker([], Ready)
      ensures s.cursor == old(s).cursor + Min(Min(count, 10), |old(s).stream| - old(s).cursor)
      ensures forall id :: old(s).cursor <= id < s.cursor && Undisturbed(luck(id)) ==> id in s.acked && id !in s.pending
      ensures forall id: MessageId ::
        (old(s).cursor <= id < s.cursor && luck(id).cancelledBefore >= MAX_RETRIES && luck(id).appendOk) ==>
          id < |s.stream| && (WellFormed(s.stream[id]) ==> Kept(s, id))
    {
      hide Inv, IsRun, After, Valid, Kept, Undisturbed;
      ghost var first := s.cursor;
      Read(w, count);
      ghost var queue := s.workers[w].queue;
      ghost var r := s;
      ProcessBatch(w, luck);
      ReadServed(r, s, queue, first, luck);
    }

    lemma ReadServed(before: State, after: State, queue: seq<MessageId>, first: nat, luck: MessageId -> Luck)
      requires Processed(before, after, queue, luck) && forall i :: 0 <= i < |queue| ==> queue[i] == first + i
      ensures forall id :: first <= id < first + |queue| && Undisturbed(luck(id)) ==>
        id in after.acked && id !in after.pending
      ensures forall id: MessageId ::
        (first <= id < first + |queue| && luck(id).cancelledBefore >= MAX_RETRIES && luck(id).appendOk) ==>
          id < |after.stream| && (WellFormed(after.stream[id]) ==> Kept(after, id))
    {
      hide Undisturbed, Kept;
      forall id: MessageId | first <= id < first + |queue| && Undisturbed(luck(id))
        ensures id in after.acked && id !in after.pending
      {
        assert queue[id - first] == id;
      }
      forall id: MessageId |
        first <= id < first + |queue| && luck(id).cancelledBefore >= MAX_RETRIES && luck(id).appendOk
        ensures id < |after.stream| && (WellFormed(after.stream[id]) ==> Kept(after, id))
      {
        assert queue[id - first] == id;
      }
    }

    /** One claim and its messages: what a crashed worker left behind is served. */
    method ClaimAndProcess(w: WorkerId, ids: seq<MessageId>, luck: MessageId -> Luck)
      requires Valid() && (w in s.workers ==> s.workers[w] == Worker([], Ready))
      requires forall i :: 0 <= i < |ids| ==> ids[i] in s.pending
      modifies this
      ensures Valid() && w in s.workers && s.workers[w] == Worker([], Ready)
      ensures s.cursor == old(s).cursor && Processed(old(s), s, ids, luck)
    {
      hide Inv, IsRun, After, Valid, Undisturbed;
      Claim(w, ids);
      ProcessBatch(w, luck);
    }

    /**
     * claimAndProcessStaleMessages: page after page, until the cursor is through, a page is empty, or
     * the context ends. Whatever the pages visited name is acknowledged afterwards, given time and
     * a Redis that takes the writes.
     */
    method ClaimAndProcessStaleMessages(w: WorkerId, pages: seq<Page>, endsBefore: nat, luck: MessageId -> Luck)
      returns (visited: nat)
      requires Valid() && (w in s.workers ==> s.workers[w] == Worker([], Ready))
      modifies this
      ensures Valid() && visited <= |pages| && visited <= endsBefore && s.pending <= old(s).pending
      ensures forall k, id :: 0 <= k < visited && id in pages[k].ids && Undisturbed(luck(id)) ==> id !in s.pending
      ensures forall k :: 0 <= k < visited - 1 ==> !pages[k].last
      ensures visited < |pages| && visited < endsBefore ==>
        visited > 0 && (pages[visited - 1].last || forall id :: id in pages[visited - 1].ids ==> id !in s.pending)
    {
      hide Inv, IsRun, After, Valid, Undisturbed, Kept;
      ghost var before := s;
      visited := 0;
      while visited < |pages| && visited < endsBefore
        invariant Valid() && visited <= |pages| && visited <= endsBefore && s.pending <= before.pending
        invariant w in s.workers ==> s.workers[w] == Worker([], Ready)
        invariant forall k, id :: 0 <= k < visited && id in pages[k].ids && Undisturbed(luck(id)) ==> id !in s.pending
        invariant forall k :: 0 <= k < visited ==> !pages[k].last
      {
        var page := pages[visited];
        var claimed := StillPending(s.pending, page.ids);
        ghost var r := s;
        ClaimAndProcess(w, claimed, luck);
        ClaimedServed(r, s, page.ids, claimed, luck);
        visited := visited + 1;
        if page.last || claimed == [] {
          return;
        }
      }
    }

    lemma ClaimedServed(before: State, after: State, ids: seq<MessageId>, claimed: seq<MessageId>,
                        luck: MessageId -> Luck)
      requires Processed(before, after, claimed, luck) && claimed == StillPending(before.pending, ids)
      ensures forall id :: id in ids && Undisturbed(luck(id)) ==> id !in after.pending
      ensures claimed == [] ==> forall id :: id in ids ==> id !in after.pending
    {
      hide Undisturbed, Kept;
      forall id | id in ids && Undisturbed(luck(id)) ensures id !in after.pending {
        if id in before.pending {
          assert id in claimed;
          var i :| 0 <= i < |claimed| && claimed[i] == id;
        }
      }
      if claimed == [] {
        forall id | id in ids ensures id !in after.pending {
          assert id in before.pending ==> id in claimed;
        }
      }
    }

    /** The retry loop: it ends in success, in three failures, or with the context. */
    method TryHandler(w: WorkerId, luck: Luck)
      requires Valid() && w in s.workers && s.workers[w].phase.Trying? && s.workers[w].phase.failures == 0
      modifies this
      ensures Valid() && w in s.workers
      ensures var id := old(s).workers[w].phase.id;
        var served := exists i :: SucceedsAt(luck, i);
        s == WithPhase(old(s), w, if served then Passed(id) else if FailsThrice(luck) then Exhausted(id) else Ready).(
          handled := if served then old(s).handled + {id} else old(s).handled,
          exhausted := if !served && FailsThrice(luck) then old(s).exhausted + {id} else old(s).exhausted)
    {
      hide Inv, IsRun, After, Enabled;
      ghost var before := s;
      var id := s.workers[w].phase.id;
      var i := 0;
      while s.workers[w].phase.Trying?
        invariant Valid() && w in s.workers && 0 <= i <= MAX_RETRIES && i <= luck.cancelledBefore
        invariant forall k :: 0 <= k < i ==> !luck.handler(k)
        invariant i < MAX_RETRIES ==> s == WithPhase(before, w, Trying(id, i))
        invariant i == MAX_RETRIES ==> s == WithPhase(before, w, Exhausted(id)).(exhausted := before.exhausted + {id})
        decreases MAX_RETRIES - i
      {
        OpenToStep(s, w);
        if luck.cancelledBefore <= i {
          Do(Cancel(w));
          return;
        }
        if luck.handler(i) {
          assert SucceedsAt(luck, i);
          Do(Succeed(w));
          return;
        }
        Do(Fail(w));
        i := i + 1;
      }
    }
  }

  lemma PhaseFacts(s: State, w: WorkerId)
    requires Inv(s) && w in s.workers
    ensures PhaseOk(s, s.workers[w].phase)
  {
  }

  /** Which steps a worker's phase allows. */
  lemma OpenToStep(s: State, w: WorkerId)
    requires w in s.workers
    ensures s.workers[w].phase.Ready? && s.workers[w].queue != [] ==> Enabled(s, Take(w))
    ensures s.workers[w].phase.Trying? ==> Enabled(s, Succeed(w)) && Enabled(s, Fail(w)) && Enabled(s, Cancel(w))
    ensures s.workers[w].phase.Exhausted? ==> forall ok :: Enabled(s, Append(w, ok))
    ensures s.workers[w].phase.Skipping? || s.workers[w].phase.Passed? || s.workers[w].phase.Filed? ==>
      forall ok :: Enabled(s, Ack(w, ok))
  {
  }

  lemma QueueDelivered(s: State, w: WorkerId)
    requires Inv(s) && w in s.workers && s.workers[w].queue != []
    ensures s.workers[w].queue[0] < s.cursor <= |s.stream|
  {
  }
}
