/** The durable WhatsApp inbox (whatsapp_reliability.py, whatsapp_inbox_worker.py): any number
    of workers claim events under a lease, run the domain command of a message in one
    transaction with its deduplication row, and mark the event afterwards in another. Workers
    crash at any point, leases expire, events are claimed again, and a worker whose lease has
    expired carries on as a zombie. */
module Inbox {
  import opened Prelude
  import opened Claims

  datatype Status = Received | Processing | Processed | Failed | DeadLetter

  // `recoveries` is history: how often the event was taken back from an expired lease.
  datatype Event = Event(message: Id, status: Status, attempts: nat, available: int, locked: Option<int>, recoveries: nat)

  const MAX_ATTEMPTS := 8
  const LEASE := 300

  // ----- the statements of whatsapp_reliability.py -----

  function Backoff(attempts: nat): int {
    var delay := Power2(attempts) * 5;
    if delay < 5 then 5 else if delay > 900 then 900 else delay
  }

  function MarkedProcessed(e: Event): Event {
    e.(status := Processed, locked := None)
  }

  function MarkedFailed(e: Event, now: int): Event {
    e.(status := if e.attempts >= MAX_ATTEMPTS then DeadLetter else Failed,
       available := now + Backoff(e.attempts), locked := None)
  }

  predicate IsStale(e: Event, now: int) {
    e.status == Processing && e.locked.Some? && e.locked.value < now - LEASE
  }

  function StaleAt(now: int): Event -> bool {
    e => IsStale(e, now)
  }

  function Recovered(events: seq<Event>, now: int): (r: seq<Event>)
    ensures |r| == |events|
  {
    seq(|events|, i requires 0 <= i < |events| =>
      if IsStale(events[i], now)
      then events[i].(status := Failed, available := now, locked := None, recoveries := events[i].recoveries + 1)
      else events[i])
  }

  predicate Claimable(e: Event, now: int) {
    e.status in {Received, Failed} && e.available <= now
  }

  function ClaimedEvent(e: Event, now: int): Event {
    e.(status := Processing, attempts := e.attempts + 1, locked := Some(now))
  }

  function ReadyAt(now: int): Event -> bool {
    e => Claimable(e, now)
  }

  function ClaimedRows(events: seq<Event>, now: int, rows: seq<Id>): (r: seq<Event>)
    ensures |r| == |events|
  {
    seq(|events|, i requires 0 <= i < |events| => if i in rows then ClaimedEvent(events[i], now) else events[i])
  }

  /** The inbox table updated in place, as the service does. */
  class Table {
    var events: seq<Event>

    method MarkProcessed(id: Id)
      requires id < |events|
      modifies this
      ensures events == old(events)[id := MarkedProcessed(old(events)[id])]
    {
      events := events[id := events[id].(status := Processed, locked := None)];
    }

    method MarkFailed(id: Id, now: int)
      requires id < |events|
      modifies this
      ensures events == old(events)[id := MarkedFailed(old(events)[id], now)]
    {
      var status := if events[id].attempts >= MAX_ATTEMPTS then DeadLetter else Failed;
      events := events[id := events[id].(status := status, available := now + Backoff(events[id].attempts), locked := None)];
    }

    method Recover(now: int) returns (count: nat)
      modifies this
      ensures events == Recovered(old(events), now)
      ensures count == CountOf(old(events), StaleAt(now))
    {
      count := 0;
      for k := 0 to |events|
        invariant |events| == |old(events)|
        invariant forall i :: k <= i < |events| ==> events[i] == old(events)[i]
        invariant forall i :: 0 <= i < k ==> events[i] == Recovered(old(events), now)[i]
        invariant count == CountOf(old(events)[..k], StaleAt(now))
      {
        CountOneMore(old(events), k, StaleAt(now));
        if events[k].status == Processing && events[k].locked.Some? && events[k].locked.value < now - LEASE {
          events := events[k := events[k].(status := Failed, available := now, locked := None, recoveries := events[k].recoveries + 1)];
          count := count + 1;
        }
      }
      assert old(events)[..|events|] == old(events);
    }

    method Claim(now: int, limit: nat, skipped: set<Id>) returns (rows: seq<Id>)
      modifies this
      ensures rows == Picked(old(events), ReadyAt(now), limit, skipped, 0)
      ensures events == ClaimedRows(old(events), now, rows)
    {
      rows := Pick(events, ReadyAt(now), limit, skipped);
      for k := 0 to |rows|
        invariant |events| == |old(events)|
        invariant forall i :: 0 <= i < |events| ==>
          events[i] == if i in rows[..k] then ClaimedEvent(old(events)[i], now) else old(events)[i]
      {
        events := events[rows[k] := ClaimedEvent(events[rows[k]], now)];
      }
    }
  }

  // ----- workers -----

  datatype Phase =
    | Picking      // about to open the processing transaction of its first row
    | InTx         // the deduplication row is inserted but not committed
    | Effected     // a confirmation committed half-way: effect and deduplication are in, the reply is not
    | Done         // processing returned; the event is still to be marked
    | Failing      // processing raised; the event is still to be marked failed

  datatype Worker = Worker(rows: seq<Id>, phase: Phase)

  datatype State = State(
    now: int,
    events: seq<Event>,
    dedup: set<Id>,
    effects: multiset<Id>,
    replies: multiset<Id>,
    workers: map<Id, Worker>)

  const START := State(0, [], {}, multiset{}, multiset{}, map[])

  datatype Step =
    | Tick(seconds: nat)
    | Record(message: Id)
    | Drain(w: Id, limit: nat, skipped: set<Id>)
    | Open(w: Id)
    | CommitEffect(w: Id, replying: bool)
    | CommitReply(w: Id)
    | Raise(w: Id)
    | MarkProcessed(w: Id)
    | MarkFailed(w: Id)
    | Finish(w: Id)
    | Crash(w: Id)

  predicate Busy(s: State, w: Id, phase: Phase) {
    w in s.workers && s.workers[w].phase == phase && s.workers[w].rows != [] && s.workers[w].rows[0] < |s.events|
  }

  function MessageOf(s: State, w: Id): Id
    requires w in s.workers && s.workers[w].rows != [] && s.workers[w].rows[0] < |s.events|
  {
    s.events[s.workers[w].rows[0]].message
  }

  /** Another open transaction has inserted the same deduplication key: the insert waits. */
  ghost predicate KeyTaken(s: State, w: Id)
    requires Busy(s, w, Picking)
  {
    exists v :: v in s.workers && v != w && Busy(s, v, InTx) && MessageOf(s, v) == MessageOf(s, w)
  }

  function Phased(s: State, w: Id, phase: Phase): State
    requires w in s.workers
  {
    s.(workers := s.workers[w := s.workers[w].(phase := phase)])
  }

  function Marked(s: State, w: Id, e: Event): State
    requires w in s.workers && s.workers[w].rows != [] && s.workers[w].rows[0] < |s.events|
  {
    s.(events := s.events[s.workers[w].rows[0] := e],
       workers := s.workers[w := Worker(s.workers[w].rows[1..], Picking)])
  }

  ghost function Next(s: State, step: Step): State {
    match step
    case Tick(seconds) => s.(now := s.now + seconds)
    case Record(message) => s.(events := s.events + [Event(message, Received, 0, s.now, None, 0)])
    case Drain(w, limit, skipped) =>
      if w in s.workers then s
      else
        var recovered := Recovered(s.events, s.now);
        var rows := Picked(recovered, ReadyAt(s.now), limit, skipped, 0);
        s.(events := ClaimedRows(recovered, s.now, rows), workers := s.workers[w := Worker(rows, Picking)])
    case Open(w) =>
      if !Busy(s, w, Picking) || KeyTaken(s, w) then s
      else Phased(s, w, if MessageOf(s, w) in s.dedup then Done else InTx)
    case CommitEffect(w, replying) =>
      if !Busy(s, w, InTx) then s
      else
        var m := MessageOf(s, w);
        Phased(s, w, if replying then Done else Effected).(
          dedup := s.dedup + {m}, effects := s.effects + multiset{m},
          replies := if replying then s.replies + multiset{m} else s.replies)
    case CommitReply(w) =>
      if !Busy(s, w, Effected) then s
      else Phased(s, w, Done).(replies := s.replies + multiset{MessageOf(s, w)})
    case Raise(w) =>
      if w in s.workers && s.workers[w].rows != [] && s.workers[w].phase != Failing then Phased(s, w, Failing) else s
    case MarkProcessed(w) =>
      if !Busy(s, w, Done) then s else Marked(s, w, MarkedProcessed(s.events[s.workers[w].rows[0]]))
    case MarkFailed(w) =>
      if !Busy(s, w, Failing) then s else Marked(s, w, MarkedFailed(s.events[s.workers[w].rows[0]], s.now))
    case Finish(w) => if w in s.workers && s.workers[w].rows == [] then s.(workers := s.workers - {w}) else s
    case Crash(w) => s.(workers := s.workers - {w})
  }

  ghost function RunSteps(s: State, steps: seq<Step>): State
    decreases |steps|
  {
    if steps == [] then s else RunSteps(Next(s, steps[0]), steps[1..])
  }

  // ----- the invariant -----

  ghost predicate EventOk(s: State, e: Event) {
    && (e.status == Processed ==> e.message in s.dedup)
    && e.attempts <= MAX_ATTEMPTS + e.recoveries
    && (e.status in {Received, Failed} ==> e.attempts < MAX_ATTEMPTS + e.recoveries)
    && (e.status == DeadLetter ==> e.attempts >= MAX_ATTEMPTS)
    && (e.status == Processing <==> e.locked.Some?)
  }

  ghost predicate WorkerOk(s: State, w: Id)
    requires w in s.workers
  {
    var rows := s.workers[w].rows;
    && (forall i :: 0 <= i < |rows| ==> rows[i] < |s.events|)
    && (rows == [] ==> s.workers[w].phase == Picking)
    && (Busy(s, w, InTx) ==> MessageOf(s, w) !in s.dedup)
    && (Busy(s, w, Effected) ==> MessageOf(s, w) in s.dedup && s.replies[MessageOf(s, w)] == 0)
    && (Busy(s, w, Done) ==> MessageOf(s, w) in s.dedup)
  }

  /** No two workers are inside the same message's transaction, or both owe its reply. */
  ghost predicate Apart(s: State, v: Id, w: Id) {
    && (Busy(s, v, InTx) && Busy(s, w, InTx) ==> MessageOf(s, v) != MessageOf(s, w))
    && (Busy(s, v, Effected) && Busy(s, w, Effected) ==> MessageOf(s, v) != MessageOf(s, w))
  }

  ghost predicate CountOk(s: State, m: Id) {
    s.effects[m] == (if m in s.dedup then 1 else 0) && s.replies[m] <= s.effects[m]
  }

  ghost predicate Inv(s: State) {
    && (forall i :: 0 <= i < |s.events| ==> EventOk(s, s.events[i]))
    && (forall w :: w in s.workers ==> WorkerOk(s, w))
    && (forall v, w :: v in s.workers && w in s.workers && v != w ==> Apart(s, v, w))
    && (forall m :: CountOk(s, m))
  }

  // ----- one step -----

  /** Events that keep their messages and the deduplication keys leave the workers in order. */
  lemma EventsMove(s: State, events: seq<Event>, now: int)
    requires Inv(s) && |s.events| <= |events|
    requires forall i :: 0 <= i < |s.events| ==> events[i].message == s.events[i].message
    requires forall i :: 0 <= i < |events| ==> EventOk(s, events[i])
    ensures Inv(s.(events := events, now := now))
  {
    var s' := s.(events := events, now := now);
    forall w | w in s'.workers ensures WorkerOk(s', w) { assert WorkerOk(s, w); }
    forall v, w | v in s'.workers && w in s'.workers && v != w ensures Apart(s', v, w) {
      assert Apart(s, v, w) && WorkerOk(s, v) && WorkerOk(s, w);
    }
    forall m ensures CountOk(s', m) { assert CountOk(s, m); }
  }

  lemma RecoveryKeeps(s: State)
    requires Inv(s)
    ensures Inv(s.(events := Recovered(s.events, s.now)))
  {
    forall i | 0 <= i < |s.events| ensures EventOk(s, Recovered(s.events, s.now)[i]) {
      assert EventOk(s, s.events[i]);
    }
    EventsMove(s, Recovered(s.events, s.now), s.now);
  }

  lemma ClaimKeeps(s: State, rows: seq<Id>)
    requires Inv(s) && forall i :: 0 <= i < |rows| ==> rows[i] < |s.events| && Claimable(s.events[rows[i]], s.now)
    ensures Inv(s.(events := ClaimedRows(s.events, s.now, rows)))
  {
    forall i | 0 <= i < |s.events| ensures EventOk(s, ClaimedRows(s.events, s.now, rows)[i]) {
      assert EventOk(s, s.events[i]);
    }
    EventsMove(s, ClaimedRows(s.events, s.now, rows), s.now);
  }

  /** One worker changes phase or goes on to its next row. */
  lemma WorkerMoves(s: State, w: Id, worker: Worker)
    requires Inv(s)
    requires var s' := s.(workers := s.workers[w := worker]); WorkerOk(s', w)
    requires var s' := s.(workers := s.workers[w := worker]);
             forall v :: v in s.workers && v != w ==> Apart(s', v, w) && Apart(s', w, v)
    ensures Inv(s.(workers := s.workers[w := worker]))
  {
    var s' := s.(workers := s.workers[w := worker]);
    forall v | v in s'.workers ensures WorkerOk(s', v) { if v != w { assert WorkerOk(s, v); } }
    forall u, v | u in s'.workers && v in s'.workers && u != v ensures Apart(s', u, v) {
      if u != w && v != w { assert Apart(s, u, v); }
    }
    forall i | 0 <= i < |s'.events| ensures EventOk(s', s'.events[i]) { assert EventOk(s, s.events[i]); }
    forall m ensures CountOk(s', m) { assert CountOk(s, m); }
  }

  lemma WorkerLeaves(s: State, w: Id)
    requires Inv(s)
    ensures Inv(s.(workers := s.workers - {w}))
  {
    var s' := s.(workers := s.workers - {w});
    forall v | v in s'.workers ensures WorkerOk(s', v) { assert WorkerOk(s, v); }
    forall u, v | u in s'.workers && v in s'.workers && u != v ensures Apart(s', u, v) { assert Apart(s, u, v); }
    forall i | 0 <= i < |s'.events| ensures EventOk(s', s'.events[i]) { assert EventOk(s, s.events[i]); }
    forall m ensures CountOk(s', m) { assert CountOk(s, m); }
  }

  lemma DrainKeeps(s: State, w: Id, limit: nat, skipped: set<Id>)
    requires Inv(s)
    ensures Inv(Next(s, Drain(w, limit, skipped)))
  {
    if w !in s.workers {
      RecoveryKeeps(s);
      var s1 := s.(events := Recovered(s.events, s.now));
      var rows := Picked(s1.events, ReadyAt(s.now), limit, skipped, 0);
      ClaimKeeps(s1, rows);
      var s2 := s1.(events := ClaimedRows(s1.events, s.now, rows));
      WorkerMoves(s2, w, Worker(rows, Picking));
    }
  }

  lemma OpenKeeps(s: State, w: Id)
    requires Inv(s)
    ensures Inv(Next(s, Open(w)))
  {
    if Busy(s, w, Picking) && !KeyTaken(s, w) {
      assert WorkerOk(s, w);
      WorkerMoves(s, w, s.workers[w].(phase := if MessageOf(s, w) in s.dedup then Done else InTx));
    }
  }

  lemma CommitEffectKeeps(s: State, w: Id, replying: bool)
    requires Inv(s)
    ensures Inv(Next(s, CommitEffect(w, replying)))
  {
    if Busy(s, w, InTx) {
      var m := MessageOf(s, w);
      var s' := Next(s, CommitEffect(w, replying));
      assert WorkerOk(s, w) && CountOk(s, m);
      forall v | v in s'.workers ensures WorkerOk(s', v) {
        assert WorkerOk(s, v);
        if v != w { assert Apart(s, v, w); }
      }
      forall u, v | u in s'.workers && v in s'.workers && u != v ensures Apart(s', u, v) {
        assert Apart(s, u, v) && WorkerOk(s, u) && WorkerOk(s, v);
      }
      forall i | 0 <= i < |s'.events| ensures EventOk(s', s'.events[i]) { assert EventOk(s, s.events[i]); }
      forall k ensures CountOk(s', k) { assert CountOk(s, k); }
    }
  }

  lemma CommitReplyKeeps(s: State, w: Id)
    requires Inv(s)
    ensures Inv(Next(s, CommitReply(w)))
  {
    if Busy(s, w, Effected) {
      var s' := Next(s, CommitReply(w));
      assert WorkerOk(s, w);
      forall v | v in s'.workers ensures WorkerOk(s', v) {
        assert WorkerOk(s, v);
        if v != w { assert Apart(s, v, w); }
      }
      forall u, v | u in s'.workers && v in s'.workers && u != v ensures Apart(s', u, v) { assert Apart(s, u, v); }
      forall i | 0 <= i < |s'.events| ensures EventOk(s', s'.events[i]) { assert EventOk(s, s.events[i]); }
      forall k ensures CountOk(s', k) { assert CountOk(s, k); }
    }
  }

  lemma MarkKeeps(s: State, w: Id, e: Event)
    requires Inv(s) && w in s.workers && s.workers[w].rows != [] && s.workers[w].rows[0] < |s.events|
    requires e.message == MessageOf(s, w) && EventOk(s, e)
    ensures Inv(Marked(s, w, e))
  {
    assert WorkerOk(s, w);
    var events := s.events[s.workers[w].rows[0] := e];
    EventsMove(s, events, s.now);
    var s1 := s.(events := events);
    assert WorkerOk(s1, w);
    WorkerMoves(s1, w, Worker(s.workers[w].rows[1..], Picking));
  }

  lemma RaiseKeeps(s: State, w: Id)
    requires Inv(s)
    ensures Inv(Next(s, Raise(w)))
  {
    if w in s.workers && s.workers[w].rows != [] {
      assert WorkerOk(s, w);
      WorkerMoves(s, w, s.workers[w].(phase := Failing));
    }
  }

  lemma MarkingKeeps(s: State, w: Id)
    requires Inv(s)
    ensures Inv(Next(s, MarkProcessed(w))) && Inv(Next(s, MarkFailed(w)))
  {
    if Busy(s, w, Done) {
      assert WorkerOk(s, w) && EventOk(s, s.events[s.workers[w].rows[0]]);
      MarkKeeps(s, w, MarkedProcessed(s.events[s.workers[w].rows[0]]));
    }
    if Busy(s, w, Failing) {
      assert EventOk(s, s.events[s.workers[w].rows[0]]);
      MarkKeeps(s, w, MarkedFailed(s.events[s.workers[w].rows[0]], s.now));
    }
  }

  lemma NextKeeps(s: State, step: Step)
    requires Inv(s)
    ensures Inv(Next(s, step))
  {
    match step
    case Tick(seconds) => EventsMove(s, s.events, s.now + seconds);
    case Record(message) => EventsMove(s, s.events + [Event(message, Received, 0, s.now, None, 0)], s.now);
    case Drain(w, limit, skipped) => DrainKeeps(s, w, limit, skipped);
    case Open(w) => OpenKeeps(s, w);
    case CommitEffect(w, replying) => CommitEffectKeeps(s, w, replying);
    case CommitReply(w) => CommitReplyKeeps(s, w);
    case Raise(w) => RaiseKeeps(s, w);
    case MarkProcessed(w) => MarkingKeeps(s, w);
    case MarkFailed(w) => MarkingKeeps(s, w);
    case Finish(w) => WorkerLeaves(s, w);
    case Crash(w) => WorkerLeaves(s, w);
  }

  lemma {:induction false} RunKeeps(s: State, steps: seq<Step>)
    requires Inv(s)
    ensures Inv(RunSteps(s, steps))
    decreases |steps|
  {
    if steps != [] {
      NextKeeps(s, steps[0]);
      RunKeeps(Next(s, steps[0]), steps[1..]);
    }
  }

  // ----- guarantees over every interleaving -----

  /** The committed effect of a message happens at most once, its reply at most once and
      never without the effect, however many events carry the message and however workers
      crash, expire, come back and race. */
  lemma EffectAtMostOnce(steps: seq<Step>, message: Id)
    ensures var s := RunSteps(START, steps); s.replies[message] <= s.effects[message] <= 1
  {
    RunKeeps(START, steps);
    assert CountOk(RunSteps(START, steps), message);
  }

  /** An event is marked processed only once the effect of its message is committed: exactly one. */
  lemma ProcessedMeansEffected(steps: seq<Step>, id: Id)
    ensures var s := RunSteps(START, steps);
            id < |s.events| && s.events[id].status == Processed ==> s.effects[s.events[id].message] == 1
  {
    RunKeeps(START, steps);
    var s := RunSteps(START, steps);
    if id < |s.events| {
      assert EventOk(s, s.events[id]) && CountOk(s, s.events[id].message);
    }
  }

  /** The retry budget: eight attempts plus one for each lease recovery; a dead letter has had
      at least eight, and exactly eight when no lease of it ever expired. */
  lemma AttemptsAreBudgeted(steps: seq<Step>, id: Id)
    ensures var s := RunSteps(START, steps);
            id < |s.events| ==>
              && s.events[id].attempts <= 8 + s.events[id].recoveries
              && (s.events[id].status == DeadLetter ==> s.events[id].attempts >= 8)
              && (s.events[id].status == DeadLetter && s.events[id].recoveries == 0 ==> s.events[id].attempts == 8)
  {
    RunKeeps(START, steps);
    var s := RunSteps(START, steps);
    if id < |s.events| { assert EventOk(s, s.events[id]); }
  }

  // ----- a message is never lost or undone -----

  ghost predicate Remembers(a: State, b: State) {
    && a.dedup <= b.dedup && |a.events| <= |b.events|
    && forall i :: 0 <= i < |a.events| ==>
         && b.events[i].message == a.events[i].message
         && a.events[i].attempts <= b.events[i].attempts
         && a.events[i].recoveries <= b.events[i].recoveries
  }

  lemma {:induction false} HistoryIsKept(s: State, steps: seq<Step>)
    ensures Remembers(s, RunSteps(s, steps))
    decreases |steps|
  {
    if steps != [] {
      var next := Next(s, steps[0]);
      assert Remembers(s, next);
      HistoryIsKept(next, steps[1..]);
    }
  }

  /** Once committed, an effect is final: it is neither undone nor repeated by anything that follows. */
  lemma EffectIsFinal(steps: seq<Step>, more: seq<Step>, message: Id)
    requires RunSteps(START, steps).effects[message] == 1
    ensures RunSteps(RunSteps(START, steps), more).effects[message] == 1
  {
    var s := RunSteps(START, steps);
    RunKeeps(START, steps);
    RunKeeps(s, more);
    HistoryIsKept(s, more);
    assert CountOk(s, message) && CountOk(RunSteps(s, more), message);
  }

  // ----- what a worker's pass takes -----

  /** Received or failed, and its time has come. */
  predicate IsDue(e: Event, now: int) {
    (e.status == Received || e.status == Failed) && e.available <= now
  }

  /** In process, but its lease is older than five minutes. */
  predicate IsAbandoned(e: Event, now: int) {
    e.status == Processing && e.locked.Some? && e.locked.value + 300 < now
  }

  /** Leased now, at one more attempt; an abandoned event counts as recovered first. */
  ghost predicate IsTaken(e: Event, after: Event, now: int) {
    && after.message == e.message && after.status == Processing && after.locked == Some(now) && after.attempts == e.attempts + 1
    && after.recoveries == e.recoveries + (if IsAbandoned(e, now) then 1 else 0)
  }

  /** Back in the queue at once. */
  ghost predicate IsRecovered(e: Event, after: Event, now: int) {
    after == Event(e.message, Failed, e.attempts, now, None, e.recoveries + 1)
  }

  /** A new worker's pass takes only events that are due or abandoned. An abandoned event it
      does not take it puts back in the queue; every other event stays as it is, also one that
      has been in process for no more than five minutes. */
  lemma PassTakes(s: State, w: Id, limit: nat, skipped: set<Id>, i: Id)
    requires w !in s.workers && i < |s.events|
    ensures var s' := Next(s, Drain(w, limit, skipped));
            var taken := i in s'.workers[w].rows;
            && s' == s.(events := s'.events, workers := s'.workers) && |s'.events| == |s.events| && |s'.workers[w].rows| <= limit
            && (taken ==> (IsDue(s.events[i], s.now) || IsAbandoned(s.events[i], s.now)) && i !in skipped)
            && (if taken then IsTaken(s.events[i], s'.events[i], s.now)
                else if IsAbandoned(s.events[i], s.now) then IsRecovered(s.events[i], s'.events[i], s.now)
                else s'.events[i] == s.events[i])
  {
    var recovered := Recovered(s.events, s.now);
    var rows := Picked(recovered, ReadyAt(s.now), limit, skipped, 0);
    if i in rows { assert Claimable(recovered[i], s.now); }
  }

  /** And it takes every such event that nobody else has locked, as far as its limit goes. */
  lemma PassTakesAll(s: State, w: Id, limit: nat, skipped: set<Id>, i: Id)
    requires w !in s.workers && i < |s.events| && i !in skipped && limit > i
    requires IsDue(s.events[i], s.now) || IsAbandoned(s.events[i], s.now)
    ensures i in Next(s, Drain(w, limit, skipped)).workers[w].rows
  {
    PickedWithRoom(Recovered(s.events, s.now), ReadyAt(s.now), limit, skipped, 0, i);
  }

  /** No event is lost with its worker: in process for ever so long, it is taken up again by the
      first new worker that comes by after its lease ran out. */
  lemma AbandonedIsTakenUp(s: State, w: Id, seconds: nat, limit: nat, skipped: set<Id>, i: Id)
    requires w !in s.workers && i < |s.events| && i !in skipped && limit > i
    requires s.events[i].status == Processing && s.events[i].locked.Some? && s.events[i].locked.value + 300 < s.now + seconds
    ensures var s' := Next(Next(s, Tick(seconds)), Drain(w, limit, skipped));
            && i in s'.workers[w].rows && s'.events[i].status == Processing && s'.events[i].locked == Some(s.now + seconds)
            && s'.events[i].attempts == s.events[i].attempts + 1 && s'.events[i].recoveries == s.events[i].recoveries + 1
  {
    var later := Next(s, Tick(seconds));
    PassTakesAll(later, w, limit, skipped, i);
    PassTakes(later, w, limit, skipped, i);
  }

  /** An event in process always has a lease to run out. */
  lemma ProcessingIsLeased(steps: seq<Step>, i: Id)
    ensures var s := RunSteps(START, steps);
            i < |s.events| ==> (s.events[i].status == Processing <==> s.events[i].locked.Some?)
  {
    RunKeeps(START, steps);
    var s := RunSteps(START, steps);
    if i < |s.events| { assert EventOk(s, s.events[i]); }
  }

  // ----- what a worker does -----

  /** Another open transaction has inserted the message's deduplication key. */
  ghost predicate MustWait(s: State, w: Id, m: Id) {
    exists v :: v in s.workers && v != w && s.workers[v].phase == InTx && s.workers[v].rows != []
                && s.workers[v].rows[0] < |s.events| && s.events[s.workers[v].rows[0]].message == m
  }

  /** Only the worker's phase is another. */
  ghost predicate OnlyPhase(s: State, s': State, w: Id, phase: Phase)
    requires w in s.workers
  {
    s' == s.(workers := s.workers[w := Worker(s.workers[w].rows, phase)])
  }

  /** The worker's first event is `e` now and the worker goes on to its next. */
  ghost predicate IsMarked(s: State, s': State, w: Id, e: Event)
    requires w in s.workers && s.workers[w].rows != [] && s.workers[w].rows[0] < |s.events|
  {
    s' == s.(events := s.events[s.workers[w].rows[0] := e], workers := s.workers[w := Worker(s.workers[w].rows[1..], Picking)])
  }

  /** Processing its first event a worker waits for another transaction with the same message,
      skips one whose key is committed, and otherwise commits effect and key together, with the
      reply or before it. */
  lemma ProcessingDoes(s: State, w: Id)
    requires w in s.workers && s.workers[w].rows != [] && s.workers[w].rows[0] < |s.events|
    ensures var phase, m := s.workers[w].phase, s.events[s.workers[w].rows[0]].message;
            && (if phase == Picking && !MustWait(s, w, m) then OnlyPhase(s, Next(s, Open(w)), w, if m in s.dedup then Done else InTx)
                else Next(s, Open(w)) == s)
            && (if phase == InTx then
                  && OnlyPhase(s.(dedup := s.dedup + {m}, effects := s.effects + multiset{m}), Next(s, CommitEffect(w, false)), w, Effected)
                  && OnlyPhase(s.(dedup := s.dedup + {m}, effects := s.effects + multiset{m}, replies := s.replies + multiset{m}),
                               Next(s, CommitEffect(w, true)), w, Done)
                else Next(s, CommitEffect(w, false)) == s == Next(s, CommitEffect(w, true)))
            && (if phase == Effected then OnlyPhase(s.(replies := s.replies + multiset{m}), Next(s, CommitReply(w)), w, Done)
                else Next(s, CommitReply(w)) == s)
  {
    if s.workers[w].phase == Picking {
      assert Busy(s, w, Picking);
      assert KeyTaken(s, w) <==> MustWait(s, w, MessageOf(s, w));
    }
  }

  /** It may raise at any point; it marks what was processed, and what raised as failed, or dead
      from the eighth attempt on. */
  lemma MarkingDoes(s: State, w: Id)
    requires w in s.workers && s.workers[w].rows != [] && s.workers[w].rows[0] < |s.events|
    ensures var phase, e := s.workers[w].phase, s.events[s.workers[w].rows[0]];
            && (if phase != Failing then OnlyPhase(s, Next(s, Raise(w)), w, Failing) else Next(s, Raise(w)) == s)
            && (if phase == Done then IsMarked(s, Next(s, MarkProcessed(w)), w, e.(status := Processed, locked := None))
                else Next(s, MarkProcessed(w)) == s)
            && (if phase == Failing then
                  IsMarked(s, Next(s, MarkFailed(w)), w,
                    e.(status := if e.attempts >= 8 then DeadLetter else Failed, available := s.now + Backoff(e.attempts), locked := None))
                else Next(s, MarkFailed(w)) == s)
  {
  }

  /** A worker leaves when it has worked off its events, and a crash takes it away at any time;
      either way it leaves the tables as they are. */
  lemma LeavingDoes(s: State, w: Id)
    requires w in s.workers
    ensures Next(s, Crash(w)) == s.(workers := s.workers - {w})
    ensures Next(s, Finish(w)) == if |s.workers[w].rows| == 0 then s.(workers := s.workers - {w}) else s
  {
  }

  // ----- waiting between attempts -----

  /** The wait starts at five seconds and doubles with every attempt up to fifteen minutes. */
  lemma BackoffDoubles(n: nat)
    ensures Backoff(0) == 5 && Backoff(n + 1) == Min(900, 2 * Backoff(n))
  {
    PowersBound(n);
  }

  /** Not being worked on since a failure at `since`, nor due again before the wait is over. */
  ghost predicate Resting(e: Event, attempts: nat, since: int) {
    && e.status !in {Received, Processing} && e.attempts == attempts
    && (e.status == Failed ==> e.available >= since + Backoff(attempts))
  }

  lemma {:induction false} ClockOnlyAdvances(s: State, steps: seq<Step>)
    ensures s.now <= RunSteps(s, steps).now
    decreases |steps|
  {
    if steps != [] { ClockOnlyAdvances(Next(s, steps[0]), steps[1..]); }
  }

  lemma RestingStays(s: State, step: Step, i: Id, attempts: nat, since: int)
    requires i < |s.events| && Resting(s.events[i], attempts, since) && since <= s.now < since + Backoff(attempts)
    ensures var s' := Next(s, step); i < |s'.events| && Resting(s'.events[i], attempts, since)
  {
    if step.Drain? && step.w !in s.workers {
      var recovered := Recovered(s.events, s.now);
      assert i !in Picked(recovered, ReadyAt(s.now), step.limit, step.skipped, 0);
    }
  }

  lemma {:induction false} NobodyStarts(s: State, steps: seq<Step>, i: Id, attempts: nat, since: int)
    requires i < |s.events| && Resting(s.events[i], attempts, since) && since <= s.now
    requires RunSteps(s, steps).now < since + Backoff(attempts)
    ensures var s' := RunSteps(s, steps); i < |s'.events| && s'.events[i].attempts == attempts && s'.events[i].status != Processing
    decreases |steps|
  {
    ClockOnlyAdvances(s, steps);
    if steps != [] {
      RestingStays(s, steps[0], i, attempts, since);
      NobodyStarts(Next(s, steps[0]), steps[1..], i, attempts, since);
    }
  }

  /** After an attempt failed, its worker (or a zombie of it) leaves the event failed or dead, and
      nobody starts another attempt before its wait is over, whatever other workers, recoveries
      and late zombies do to the event meanwhile. */
  lemma RetryWaits(s: State, w: Id, more: seq<Step>)
    requires Busy(s, w, Failing)
    ensures var i := s.workers[w].rows[0];
            var e := s.events[i];
            var failed := Next(s, MarkFailed(w));
            var later := RunSteps(failed, more);
            && failed.events[i] == e.(status := if e.attempts >= 8 then DeadLetter else Failed,
                                      available := s.now + Backoff(e.attempts), locked := None)
            && (later.now < s.now + Backoff(e.attempts) ==>
                 i < |later.events| && later.events[i].attempts == e.attempts && later.events[i].status != Processing)
  {
    var i := s.workers[w].rows[0];
    var e := s.events[i];
    var failed := Next(s, MarkFailed(w));
    assert failed.events[i] == MarkedFailed(e, s.now);
    if RunSteps(failed, more).now < s.now + Backoff(e.attempts) { NobodyStarts(failed, more, i, e.attempts, s.now); }
  }

  // ----- a run without trouble -----

  lemma ClaimsTheOnly(e: Event, w: Id)
    requires Claimable(e, 0)
    ensures Next(START.(events := [e]), Drain(w, 25, {})) ==
            START.(events := [ClaimedEvent(e, 0)], workers := map[w := Worker([0], Picking)])
  {
    assert Recovered([e], 0) == [e];
    assert Picked([e], ReadyAt(0), 25, {}, 0) == [0] by { assert Picked([e], ReadyAt(0), 24, {}, 1) == []; }
    assert ClaimedRows([e], 0, [0]) == [ClaimedEvent(e, 0)];
  }

  lemma FourSteps(s: State, a: Step, b: Step, c: Step, d: Step)
    ensures RunSteps(s, [a, b, c, d]) == Next(Next(Next(Next(s, a), b), c), d)
  {
    var s2 := Next(Next(s, a), b);
    var last := Next(Next(s2, c), d);
    assert [a, b, c, d][1..] == [b, c, d] && [b, c, d][1..] == [c, d] && [c, d][1..] == [d] && [d][1..] == [];
    assert RunSteps(last, []) == last;
    assert RunSteps(Next(s2, c), [d]) == last;
    assert RunSteps(s2, [c, d]) == last;
    assert RunSteps(Next(s, a), [b, c, d]) == last;
  }

  lemma HandlesOne(e: Event, w: Id)
    ensures var s1 := START.(events := [e], workers := map[w := Worker([0], Picking)]);
            var s := Next(Next(Next(s1, Open(w)), CommitEffect(w, true)), MarkProcessed(w));
            s.events == [MarkedProcessed(e)] && s.effects == multiset{e.message} == s.replies
  {
    var s1 := START.(events := [e], workers := map[w := Worker([0], Picking)]);
    assert Busy(s1, w, Picking) && !KeyTaken(s1, w);
    var s2 := Next(s1, Open(w));
    assert Busy(s2, w, InTx) && MessageOf(s2, w) == e.message;
    var s3 := Next(s2, CommitEffect(w, true));
    assert Busy(s3, w, Done);
  }

  ghost function OnePass(s: State, w: Id): State {
    RunSteps(s, [Drain(w, 25, {}), Open(w), CommitEffect(w, true), MarkProcessed(w)])
  }

  /** When nothing goes wrong one worker's pass is enough: the event is processed at its first
      attempt, with its effect and its reply committed. */
  lemma OnePassProcesses(message: Id, w: Id)
    ensures var s := OnePass(START.(events := [Event(message, Received, 0, 0, None, 0)]), w);
            && |s.events| == 1 && s.events[0].status == Processed && s.events[0].attempts == 1
            && s.effects == multiset{message} == s.replies
  {
    var e := Event(message, Received, 0, 0, None, 0);
    var s0 := START.(events := [e]);
    var s1 := START.(events := [ClaimedEvent(e, 0)], workers := map[w := Worker([0], Picking)]);
    assert Next(s0, Drain(w, 25, {})) == s1 by { ClaimsTheOnly(e, w); }
    var s := Next(Next(Next(s1, Open(w)), CommitEffect(w, true)), MarkProcessed(w));
    assert OnePass(s0, w) == s by { FourSteps(s0, Drain(w, 25, {}), Open(w), CommitEffect(w, true), MarkProcessed(w)); }
    HandlesOne(ClaimedEvent(e, 0), w);
  }
}
