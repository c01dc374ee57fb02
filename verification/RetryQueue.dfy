/** The two sending queues. Outgoing channel messages (outbox.py) are drained by two kinds of
    worker (whatsapp_outbox_worker.py, outbox_worker.py) that issue the same statements; domain
    events (realtime.py) are relayed by realtime_worker.py. Both are the same protocol with
    different budgets: claim a batch in one transaction, hand each row over, then mark it sent,
    or failed and retried, in another. A worker may stop anywhere; nothing takes its rows back. */
module RetryQueue {
  import opened Prelude
  import opened Claims

  datatype Queue = Channel | Relay

  datatype Status = Pending | Processing | Sent | Failed

  // `handoffs` is history: how often the transport or the stream accepted the row.
  datatype Row = Row(key: Option<Id>, status: Status, attempts: nat, available: int, handoffs: nat)

  function Max(q: Queue): nat {
    if q == Channel then 5 else 10
  }

  function Delay(q: Queue, attempts: nat): int {
    if q == Channel then Min(300, Power2(attempts) * 5) else Min(600, Power2(Min(attempts, 8)) * 2)
  }

  // ----- the statements -----

  /** Inserting a message whose idempotency key exists does nothing; events carry no key. */
  function Enqueued(rows: seq<Row>, key: Option<Id>, now: int): (r: seq<Row>)
    ensures rows <= r
  {
    if key.Some? && (exists i :: 0 <= i < |rows| && rows[i].key == key) then rows
    else rows + [Row(key, Pending, 0, now, 0)]
  }

  predicate Claimable(row: Row, now: int) {
    row.status == Pending && row.available <= now
  }

  function ReadyAt(now: int): Row -> bool {
    row => Claimable(row, now)
  }

  function ClaimedRow(row: Row): Row {
    row.(status := Processing, attempts := row.attempts + 1)
  }

  function ClaimedRows(rows: seq<Row>, picked: seq<Id>): (r: seq<Row>)
    ensures |r| == |rows|
  {
    seq(|rows|, i requires 0 <= i < |rows| => if i in picked then ClaimedRow(rows[i]) else rows[i])
  }

  function MarkedSent(row: Row): Row {
    row.(status := Sent)
  }

  function MarkedFailed(q: Queue, row: Row, now: int): Row {
    row.(status := if row.attempts >= Max(q) then Failed else Pending, available := now + Delay(q, row.attempts))
  }

  /** The queue's table updated in place, as the services do. */
  class Table {
    const queue: Queue
    var rows: seq<Row>

    constructor (queue: Queue)
      ensures this.queue == queue && rows == []
    {
      this.queue := queue;
      rows := [];
    }

    method Enqueue(key: Option<Id>, now: int)
      modifies this
      ensures rows == Enqueued(old(rows), key, now)
    {
      if key.Some? && exists i :: 0 <= i < |rows| && rows[i].key == key { return; }
      rows := rows + [Row(key, Pending, 0, now, 0)];
    }

    method Claim(now: int, limit: nat, skipped: set<Id>) returns (picked: seq<Id>)
      modifies this
      ensures picked == Picked(old(rows), ReadyAt(now), limit, skipped, 0)
      ensures rows == ClaimedRows(old(rows), picked)
    {
      picked := Pick(rows, ReadyAt(now), limit, skipped);
      for k := 0 to |picked|
        invariant |rows| == |old(rows)|
        invariant forall i :: 0 <= i < |rows| ==>
          rows[i] == if i in picked[..k] then ClaimedRow(old(rows)[i]) else old(rows)[i]
      {
        rows := rows[picked[k] := ClaimedRow(rows[picked[k]])];
      }
    }

    method MarkSent(id: Id)
      requires id < |rows|
      modifies this
      ensures rows == old(rows)[id := MarkedSent(old(rows)[id])]
    {
      rows := rows[id := rows[id].(status := Sent)];
    }

    method MarkFailed(id: Id, now: int)
      requires id < |rows|
      modifies this
      ensures rows == old(rows)[id := MarkedFailed(queue, old(rows)[id], now)]
    {
      var status := if rows[id].attempts >= Max(queue) then Failed else Pending;
      rows := rows[id := rows[id].(status := status, available := now + Delay(queue, rows[id].attempts))];
    }
  }

  // ----- workers -----

  datatype Phase =
    | Ready        // about to hand over its first row
    | HandedOff    // the first row was accepted; it is still to be marked sent
    | Failing      // handing over or marking raised; the row is still to be marked failed

  datatype Worker = Worker(held: seq<Id>, phase: Phase)

  datatype State = State(now: int, rows: seq<Row>, workers: map<Id, Worker>)

  const START := State(0, [], map[])

  datatype Step =
    | Tick(seconds: nat)
    | Enqueue(key: Option<Id>)
    | Drain(w: Id, limit: nat, skipped: set<Id>)
    | HandOff(w: Id)
    | Raise(w: Id)
    | MarkSent(w: Id)
    | MarkFailed(w: Id)
    | Stop(w: Id)      // the batch is finished, or the worker crashed

  predicate Busy(s: State, w: Id, phase: Phase) {
    w in s.workers && s.workers[w].phase == phase && s.workers[w].held != [] && s.workers[w].held[0] < |s.rows|
  }

  function Current(s: State, w: Id): Row
    requires w in s.workers && s.workers[w].held != [] && s.workers[w].held[0] < |s.rows|
  {
    s.rows[s.workers[w].held[0]]
  }

  /** Worker w leaves its first row as `row` and goes on, to its next row if `next`. */
  function Written(s: State, w: Id, row: Row, phase: Phase, next: bool): State
    requires w in s.workers && s.workers[w].held != [] && s.workers[w].held[0] < |s.rows|
  {
    var held := s.workers[w].held;
    s.(rows := s.rows[held[0] := row], workers := s.workers[w := Worker(if next then held[1..] else held, phase)])
  }

  function Next(q: Queue, s: State, step: Step): State {
    match step
    case Tick(seconds) => s.(now := s.now + seconds)
    case Enqueue(key) => s.(rows := Enqueued(s.rows, key, s.now))
    case Drain(w, limit, skipped) =>
      if w in s.workers then s
      else
        var picked := Picked(s.rows, ReadyAt(s.now), limit, skipped, 0);
        s.(rows := ClaimedRows(s.rows, picked), workers := s.workers[w := Worker(picked, Ready)])
    case HandOff(w) =>
      if !Busy(s, w, Ready) then s
      else Written(s, w, Current(s, w).(handoffs := Current(s, w).handoffs + 1), HandedOff, false)
    case Raise(w) =>
      if Busy(s, w, Ready) || Busy(s, w, HandedOff) then Written(s, w, Current(s, w), Failing, false) else s
    case MarkSent(w) =>
      if !Busy(s, w, HandedOff) then s else Written(s, w, MarkedSent(Current(s, w)), Ready, true)
    case MarkFailed(w) =>
      if !Busy(s, w, Failing) then s else Written(s, w, MarkedFailed(q, Current(s, w), s.now), Ready, true)
    case Stop(w) => s.(workers := s.workers - {w})
  }

  function RunSteps(q: Queue, s: State, steps: seq<Step>): State
    decreases |steps|
  {
    if steps == [] then s else RunSteps(q, Next(q, s, steps[0]), steps[1..])
  }

  // ----- the invariant -----

  predicate Holds(s: State, w: Id, i: Id) {
    w in s.workers && i in s.workers[w].held
  }

  ghost predicate RowOk(q: Queue, s: State, i: Id)
    requires i < |s.rows|
  {
    var row := s.rows[i];
    && row.handoffs <= row.attempts <= Max(q)
    && (row.status == Pending ==> row.attempts < Max(q))
    && (row.status == Processing ==> row.attempts > 0)
    && (row.status == Sent ==> row.handoffs > 0)
    && (row.status == Failed ==> row.attempts == Max(q))
  }

  /** A held row is in process and, unless it is the first, not yet handed over this time. */
  ghost predicate HeldOk(s: State, w: Id, k: nat)
    requires w in s.workers && k < |s.workers[w].held|
  {
    var id := s.workers[w].held[k];
    && id < |s.rows|
    && s.rows[id].status == Processing
    && (if k > 0 || s.workers[w].phase == Ready then s.rows[id].handoffs < s.rows[id].attempts
        else s.workers[w].phase == HandedOff ==> s.rows[id].handoffs > 0)
  }

  ghost predicate WorkerOk(s: State, w: Id)
    requires w in s.workers
  {
    var held := s.workers[w].held;
    && (forall k :: 0 <= k < |held| ==> HeldOk(s, w, k))
    && (forall k, l :: 0 <= k < l < |held| ==> held[k] != held[l])
  }

  ghost predicate Inv(q: Queue, s: State) {
    && (forall i :: 0 <= i < |s.rows| ==> RowOk(q, s, i))
    && (forall w :: w in s.workers ==> WorkerOk(s, w))
    && (forall v, w, i :: Holds(s, v, i) && Holds(s, w, i) ==> v == w)
    && (forall i, j :: 0 <= i < j < |s.rows| && s.rows[i].key.Some? ==> s.rows[i].key != s.rows[j].key)
  }

  lemma WorkerFrame(s: State, s': State, w: Id)
    requires w in s.workers && w in s'.workers && s'.workers[w] == s.workers[w] && s.rows <= s'.rows
    requires WorkerOk(s, w)
    ensures WorkerOk(s', w)
  {
    forall k | 0 <= k < |s.workers[w].held| ensures HeldOk(s', w, k) { assert HeldOk(s, w, k); }
  }

  lemma EnqueueKeeps(q: Queue, s: State, key: Option<Id>)
    requires Inv(q, s)
    ensures Inv(q, Next(q, s, Enqueue(key)))
  {
    var s' := Next(q, s, Enqueue(key));
    forall i | 0 <= i < |s'.rows| ensures RowOk(q, s', i) { if i < |s.rows| { assert RowOk(q, s, i); } }
    forall w | w in s'.workers ensures WorkerOk(s', w) { WorkerFrame(s, s', w); }
    forall v, w, i | Holds(s', v, i) && Holds(s', w, i) ensures v == w { assert Holds(s, v, i) && Holds(s, w, i); }
  }

  /** Rows that are being claimed are pending, so nobody holds them. */
  lemma ClaimKeeps(q: Queue, s: State, picked: seq<Id>)
    requires Inv(q, s)
    requires forall k :: 0 <= k < |picked| ==> picked[k] < |s.rows| && s.rows[picked[k]].status == Pending
    ensures forall i :: 0 <= i < |s.rows| ==> RowOk(q, s.(rows := ClaimedRows(s.rows, picked)), i)
    ensures forall v :: v in s.workers ==> WorkerOk(s.(rows := ClaimedRows(s.rows, picked)), v)
    ensures forall v, i :: Holds(s, v, i) ==> i !in picked
  {
    var s' := s.(rows := ClaimedRows(s.rows, picked));
    forall i | 0 <= i < |s.rows| ensures RowOk(q, s', i) { assert RowOk(q, s, i); }
    forall v, i | Holds(s, v, i) ensures i !in picked {
      assert WorkerOk(s, v);
      var k :| 0 <= k < |s.workers[v].held| && s.workers[v].held[k] == i;
      assert HeldOk(s, v, k);
    }
    forall v | v in s.workers ensures WorkerOk(s', v) {
      assert WorkerOk(s, v);
      forall k | 0 <= k < |s.workers[v].held| ensures HeldOk(s', v, k) {
        assert HeldOk(s, v, k) && Holds(s, v, s.workers[v].held[k]);
      }
    }
  }

  lemma ClaimerOk(q: Queue, s: State, w: Id, picked: seq<Id>)
    requires Inv(q, s)
    requires forall k :: 0 <= k < |picked| ==> picked[k] < |s.rows| && s.rows[picked[k]].status == Pending
    requires forall k, l :: 0 <= k < l < |picked| ==> picked[k] < picked[l]
    ensures WorkerOk(s.(rows := ClaimedRows(s.rows, picked), workers := s.workers[w := Worker(picked, Ready)]), w)
  {
    var s' := s.(rows := ClaimedRows(s.rows, picked), workers := s.workers[w := Worker(picked, Ready)]);
    forall k | 0 <= k < |picked| ensures HeldOk(s', w, k) {
      assert RowOk(q, s, picked[k]);
    }
  }

  lemma DrainKeeps(q: Queue, s: State, w: Id, limit: nat, skipped: set<Id>)
    requires Inv(q, s) && w !in s.workers
    ensures Inv(q, Next(q, s, Drain(w, limit, skipped)))
  {
    var s' := Next(q, s, Drain(w, limit, skipped));
    var picked := Picked(s.rows, ReadyAt(s.now), limit, skipped, 0);
    ClaimKeeps(q, s, picked);
    var s1 := s.(rows := ClaimedRows(s.rows, picked));
    forall i | 0 <= i < |s'.rows| ensures RowOk(q, s', i) { assert RowOk(q, s1, i); }
    forall v | v in s'.workers ensures WorkerOk(s', v) {
      if v == w { ClaimerOk(q, s, w, picked); } else { WorkerFrame(s1, s', v); }
    }
    forall u, v, i | Holds(s', u, i) && Holds(s', v, i) ensures u == v {
      if u != w { assert Holds(s, u, i); }
      if v != w { assert Holds(s, v, i); }
    }
  }

  /** The rows stay and workers only leave. */
  lemma LeaveKeeps(q: Queue, s: State, s': State)
    requires Inv(q, s) && s'.rows == s.rows
    requires forall w :: w in s'.workers ==> w in s.workers && s'.workers[w] == s.workers[w]
    ensures Inv(q, s')
  {
    forall i | 0 <= i < |s.rows| ensures RowOk(q, s', i) { assert RowOk(q, s, i); }
    forall w | w in s'.workers ensures WorkerOk(s', w) { WorkerFrame(s, s', w); }
    forall v, w, i | Holds(s', v, i) && Holds(s', w, i) ensures v == w { assert Holds(s, v, i) && Holds(s, w, i); }
  }

  /** A worker's write touches no row that another worker holds. */
  lemma OthersKeep(q: Queue, s: State, w: Id, row: Row, phase: Phase, next: bool, v: Id)
    requires Inv(q, s) && w in s.workers && s.workers[w].held != [] && s.workers[w].held[0] < |s.rows|
    requires v in s.workers && v != w
    ensures WorkerOk(Written(s, w, row, phase, next), v)
  {
    var s' := Written(s, w, row, phase, next);
    assert WorkerOk(s, v) && Holds(s, w, s.workers[w].held[0]);
    forall k | 0 <= k < |s.workers[v].held| ensures HeldOk(s', v, k) {
      assert HeldOk(s, v, k) && Holds(s, v, s.workers[v].held[k]);
    }
  }

  ghost predicate MayWrite(q: Queue, s: State, w: Id, row: Row, phase: Phase, next: bool)
    requires w in s.workers && s.workers[w].held != [] && s.workers[w].held[0] < |s.rows|
  {
    && row.key == Current(s, w).key
    && RowOk(q, Written(s, w, row, phase, next), s.workers[w].held[0])
    && (if next then phase == Ready
        else row.status == Processing && (phase == Ready ==> row.handoffs < row.attempts)
             && (phase == HandedOff ==> row.handoffs > 0))
  }

  lemma WriterKeeps(q: Queue, s: State, w: Id, row: Row, phase: Phase, next: bool)
    requires Inv(q, s) && w in s.workers && s.workers[w].held != [] && s.workers[w].held[0] < |s.rows|
    requires MayWrite(q, s, w, row, phase, next)
    ensures WorkerOk(Written(s, w, row, phase, next), w)
  {
    var s' := Written(s, w, row, phase, next);
    assert WorkerOk(s, w);
    forall k | 0 <= k < |s'.workers[w].held| ensures HeldOk(s', w, k) {
      if next {
        assert HeldOk(s, w, k + 1);
      } else {
        assert HeldOk(s, w, k);
      }
    }
  }

  lemma WriteKeeps(q: Queue, s: State, w: Id, row: Row, phase: Phase, next: bool)
    requires Inv(q, s) && w in s.workers && s.workers[w].held != [] && s.workers[w].held[0] < |s.rows|
    requires MayWrite(q, s, w, row, phase, next)
    ensures Inv(q, Written(s, w, row, phase, next))
  {
    var s' := Written(s, w, row, phase, next);
    forall i | 0 <= i < |s'.rows| ensures RowOk(q, s', i) { if i != s.workers[w].held[0] { assert RowOk(q, s, i); } }
    forall v | v in s'.workers ensures WorkerOk(s', v) {
      if v == w { WriterKeeps(q, s, w, row, phase, next); } else { OthersKeep(q, s, w, row, phase, next, v); }
    }
    forall u, v, i | Holds(s', u, i) && Holds(s', v, i) ensures u == v { assert Holds(s, u, i) && Holds(s, v, i); }
  }

  lemma HandingKeeps(q: Queue, s: State, w: Id)
    requires Inv(q, s)
    ensures Inv(q, Next(q, s, HandOff(w)))
    ensures Inv(q, Next(q, s, Raise(w)))
  {
    if w in s.workers && s.workers[w].held != [] {
      assert WorkerOk(s, w) && HeldOk(s, w, 0) && RowOk(q, s, s.workers[w].held[0]);
      var row := Current(s, w);
      if Busy(s, w, Ready) { WriteKeeps(q, s, w, row.(handoffs := row.handoffs + 1), HandedOff, false); }
      if Busy(s, w, Ready) || Busy(s, w, HandedOff) { WriteKeeps(q, s, w, row, Failing, false); }
    }
  }

  lemma MarkingKeeps(q: Queue, s: State, w: Id)
    requires Inv(q, s)
    ensures Inv(q, Next(q, s, MarkSent(w)))
    ensures Inv(q, Next(q, s, MarkFailed(w)))
  {
    if w in s.workers && s.workers[w].held != [] {
      assert WorkerOk(s, w) && HeldOk(s, w, 0) && RowOk(q, s, s.workers[w].held[0]);
      if Busy(s, w, HandedOff) { WriteKeeps(q, s, w, MarkedSent(Current(s, w)), Ready, true); }
      if Busy(s, w, Failing) { WriteKeeps(q, s, w, MarkedFailed(q, Current(s, w), s.now), Ready, true); }
    }
  }

  lemma NextKeeps(q: Queue, s: State, step: Step)
    requires Inv(q, s)
    ensures Inv(q, Next(q, s, step))
  {
    match step
    case Tick(_) => LeaveKeeps(q, s, Next(q, s, step));
    case Stop(_) => LeaveKeeps(q, s, Next(q, s, step));
    case Enqueue(key) => EnqueueKeeps(q, s, key);
    case Drain(w, limit, skipped) => if w !in s.workers { DrainKeeps(q, s, w, limit, skipped); }
    case HandOff(w) => HandingKeeps(q, s, w);
    case Raise(w) => HandingKeeps(q, s, w);
    case MarkSent(w) => MarkingKeeps(q, s, w);
    case MarkFailed(w) => MarkingKeeps(q, s, w);
  }

  lemma {:induction false} RunKeeps(q: Queue, s: State, steps: seq<Step>)
    requires Inv(q, s)
    ensures Inv(q, RunSteps(q, s, steps))
    decreases |steps|
  {
    if steps != [] {
      NextKeeps(q, s, steps[0]);
      RunKeeps(q, Next(q, s, steps[0]), steps[1..]);
    }
  }

  // ----- guarantees over every interleaving -----

  /** A row has at most one worker at any time. */
  lemma OneHolder(q: Queue, steps: seq<Step>, v: Id, w: Id, i: Id)
    ensures var s := RunSteps(q, START, steps); Holds(s, v, i) && Holds(s, w, i) ==> v == w
  {
    RunKeeps(q, START, steps);
  }

  /** Five attempts for a message, ten for an event. */
  function Budget(q: Queue): nat {
    match q
    case Channel => 5
    case Relay => 10
  }

  /** The budget: no more attempts than that and no more hand-offs than attempts, given up at
      exactly that many and never before, and nothing is called sent that was not handed over. */
  lemma BudgetHolds(q: Queue, steps: seq<Step>, i: Id)
    ensures var s := RunSteps(q, START, steps);
            i < |s.rows| ==>
              && s.rows[i].handoffs <= s.rows[i].attempts <= Budget(q)
              && (s.rows[i].status == Failed ==> s.rows[i].attempts == Budget(q))
              && (s.rows[i].status == Pending ==> s.rows[i].attempts < Budget(q))
              && (s.rows[i].status == Sent ==> s.rows[i].handoffs >= 1)
  {
    RunKeeps(q, START, steps);
    var s := RunSteps(q, START, steps);
    if i < |s.rows| { assert RowOk(q, s, i); }
  }

  function HandoffsOf(rows: seq<Row>, key: Id): nat {
    if rows == [] then 0
    else HandoffsOf(rows[..|rows| - 1], key) + if rows[|rows| - 1].key == Some(key) then rows[|rows| - 1].handoffs else 0
  }

  lemma {:induction false} HandoffsOfOneRow(q: Queue, s: State, rows: seq<Row>, key: Id)
    requires Inv(q, s) && rows <= s.rows
    ensures HandoffsOf(rows, key) <= Max(q)
    ensures (forall i :: 0 <= i < |rows| ==> rows[i].key != Some(key)) ==> HandoffsOf(rows, key) == 0
    decreases |rows|
  {
    if rows != [] {
      assert RowOk(q, s, |rows| - 1);
      HandoffsOfOneRow(q, s, rows[..|rows| - 1], key);
    }
  }

  /** However often a message is enqueued under one idempotency key, it is handed over at most
      five times in all. */
  lemma OneMessagePerKey(q: Queue, steps: seq<Step>, key: Id)
    ensures HandoffsOf(RunSteps(q, START, steps).rows, key) <= Budget(q)
  {
    RunKeeps(q, START, steps);
    HandoffsOfOneRow(q, RunSteps(q, START, steps), RunSteps(q, START, steps).rows, key);
  }

  /** A row that is not pending and that no worker holds never changes again: a sent row stays
      sent, a failed one failed, and one whose worker stopped half-way is stranded in process. */
  lemma {:induction false} UnheldIsFinal(q: Queue, s: State, steps: seq<Step>, i: Id)
    requires i < |s.rows| && s.rows[i].status != Pending && forall w :: !Holds(s, w, i)
    ensures var s' := RunSteps(q, s, steps);
            i < |s'.rows| && s'.rows[i] == s.rows[i] && forall w :: !Holds(s', w, i)
    decreases |steps|
  {
    if steps != [] {
      var s' := Next(q, s, steps[0]);
      forall w ensures !Holds(s', w, i) { assert !Holds(s, w, i); }
      assert i < |s'.rows| && s'.rows[i] == s.rows[i] by {
        match steps[0]
        case Tick(_) => case Enqueue(_) => case Drain(_, _, _) => case Stop(_) =>
        case _ => assert !Holds(s, steps[0].w, i);
      }
      UnheldIsFinal(q, s', steps[1..], i);
    }
  }

  // ----- what a worker's pass takes -----

  predicate IsDue(row: Row, now: int) {
    row.status == Pending && row.available <= now
  }

  /** A new worker's pass takes only pending rows whose time has come, up to its limit, each at
      one more attempt; it takes every such row that nobody else has locked as far as its limit
      goes, and no other row changes. */
  lemma PassTakes(q: Queue, s: State, w: Id, limit: nat, skipped: set<Id>, i: Id)
    requires w !in s.workers && i < |s.rows|
    ensures var s' := Next(q, s, Drain(w, limit, skipped));
            var taken := i in s'.workers[w].held;
            && s' == s.(rows := s'.rows, workers := s'.workers) && |s'.rows| == |s.rows| && |s'.workers[w].held| <= limit
            && (taken ==> IsDue(s.rows[i], s.now) && i !in skipped)
            && (IsDue(s.rows[i], s.now) && i !in skipped && limit > i ==> taken)
            && s'.rows[i] == if taken then s.rows[i].(status := Processing, attempts := s.rows[i].attempts + 1) else s.rows[i]
  {
    if IsDue(s.rows[i], s.now) && i !in skipped && limit > i { PickedWithRoom(s.rows, ReadyAt(s.now), limit, skipped, 0, i); }
  }

  /** A message is queued unless its own key is there already; a message without a key always. */
  lemma EnqueuesWhen(rows: seq<Row>, key: Option<Id>, now: int)
    ensures Enqueued(rows, key, now) ==
            if key != None && (exists i :: 0 <= i < |rows| && rows[i].key == key) then rows
            else rows + [Row(key, Pending, 0, now, 0)]
  {
  }

  /** The worker's first row is `row` now, nothing else changed in the table, and the worker is
      in `phase`, with its next row first if it is done with this one. */
  ghost predicate Worked(s: State, s': State, w: Id, row: Row, phase: Phase, done: bool)
    requires w in s.workers && s.workers[w].held != [] && s.workers[w].held[0] < |s.rows|
  {
    var held := s.workers[w].held;
    && s' == s.(rows := s'.rows, workers := s'.workers) && s'.rows == s.rows[held[0] := row]
    && s'.workers == s.workers[w := Worker(if done then held[1..] else held, phase)]
  }

  /** What a worker does with its first row: hand it over, once; raise, before or after that;
      mark it sent after that; and mark it failed after a raise, for good when its budget is
      spent and otherwise to be tried again later. */
  lemma WorkingDoes(q: Queue, s: State, w: Id)
    requires w in s.workers && s.workers[w].held != [] && s.workers[w].held[0] < |s.rows|
    ensures var row, phase := s.rows[s.workers[w].held[0]], s.workers[w].phase;
            && (if phase == Ready then Worked(s, Next(q, s, HandOff(w)), w, row.(handoffs := row.handoffs + 1), HandedOff, false)
                else Next(q, s, HandOff(w)) == s)
            && (if phase != Failing then Worked(s, Next(q, s, Raise(w)), w, row, Failing, false) else Next(q, s, Raise(w)) == s)
            && (if phase == HandedOff then Worked(s, Next(q, s, MarkSent(w)), w, row.(status := Sent), Ready, true)
                else Next(q, s, MarkSent(w)) == s)
            && (if phase == Failing then
                  Worked(s, Next(q, s, MarkFailed(w)), w,
                    row.(status := if row.attempts >= Budget(q) then Failed else Pending, available := s.now + Delay(q, row.attempts)),
                    Ready, true)
                else Next(q, s, MarkFailed(w)) == s)
  {
  }

  // ----- waiting between attempts -----

  /** The wait doubles from attempt to attempt up to its ceiling: five minutes for messages;
      for events the exponent stops at eight, so their ceiling of ten minutes is never reached. */
  lemma DelaysDouble(n: nat)
    ensures Delay(Channel, 0) == 5 && Delay(Channel, n + 1) == Min(300, 2 * Delay(Channel, n))
    ensures Delay(Relay, 0) == 2 && Delay(Relay, n + 1) == (if n < 8 then 2 * Delay(Relay, n) else 512)
    ensures 0 < Delay(Channel, n) <= 300 && 0 < Delay(Relay, n) <= 512
  {
    PowersBound(n);
    PowersBound(8);
    if n <= 8 { PowersGrow(n, 8); }
    assert Power2(8) == 256 by { assert Power2(4) == 16; }
  }

  lemma {:induction false} ClockOnlyAdvances(q: Queue, s: State, steps: seq<Step>)
    ensures s.now <= RunSteps(q, s, steps).now
    decreases |steps|
  {
    if steps != [] { ClockOnlyAdvances(q, Next(q, s, steps[0]), steps[1..]); }
  }

  /** A pending row rests until its time has come: no worker touches it before. */
  lemma {:induction false} PendingRests(q: Queue, s: State, steps: seq<Step>, i: Id)
    requires i < |s.rows| && s.rows[i].status == Pending && forall w :: !Holds(s, w, i)
    requires RunSteps(q, s, steps).now < s.rows[i].available
    ensures var s' := RunSteps(q, s, steps); i < |s'.rows| && s'.rows[i] == s.rows[i]
    decreases |steps|
  {
    if steps != [] {
      var s' := Next(q, s, steps[0]);
      ClockOnlyAdvances(q, s', steps[1..]);
      forall w ensures !Holds(s', w, i) { assert !Holds(s, w, i); }
      assert i < |s'.rows| && s'.rows[i] == s.rows[i] by {
        match steps[0]
        case Tick(_) => case Enqueue(_) => case Drain(_, _, _) => case Stop(_) =>
        case _ => assert !Holds(s, steps[0].w, i);
      }
      PendingRests(q, s', steps[1..], i);
    }
  }

  lemma HeldIsInProcess(s: State, w: Id, i: Id)
    requires Holds(s, w, i) && WorkerOk(s, w)
    ensures i < |s.rows| && s.rows[i].status == Processing
  {
    var k :| 0 <= k < |s.workers[w].held| && s.workers[w].held[k] == i;
    assert HeldOk(s, w, k);
  }

  /** After a failed attempt that leaves budget the row is back in the queue, and nothing is
      attempted with it again until the delay of that attempt has passed. */
  lemma RetryWaits(q: Queue, before: seq<Step>, w: Id, more: seq<Step>)
    requires var s := RunSteps(q, START, before); Busy(s, w, Failing) && Current(s, w).attempts < Max(q)
    ensures var s := RunSteps(q, START, before);
            var i := s.workers[w].held[0];
            var failed := Next(q, s, MarkFailed(w));
            var later := RunSteps(q, failed, more);
            && failed.rows[i] == s.rows[i].(status := Pending, available := s.now + Delay(q, s.rows[i].attempts))
            && (later.now < s.now + Delay(q, s.rows[i].attempts) ==> i < |later.rows| && later.rows[i] == failed.rows[i])
  {
    var s := RunSteps(q, START, before);
    RunKeeps(q, START, before);
    var i := s.workers[w].held[0];
    var failed := Next(q, s, MarkFailed(w));
    MarkingKeeps(q, s, w);
    forall v ensures !Holds(failed, v, i) {
      if Holds(failed, v, i) { HeldIsInProcess(failed, v, i); }
    }
    if RunSteps(q, failed, more).now < s.now + Delay(q, s.rows[i].attempts) { PendingRests(q, failed, more, i); }
  }

  // ----- delivery is at least once -----

  lemma RunJoins(q: Queue, s: State, steps: seq<Step>, step: Step)
    ensures RunSteps(q, s, steps + [step]) == Next(q, RunSteps(q, s, steps), step)
    decreases |steps|
  {
    if steps == [] {
      assert [step][1..] == [];
    } else {
      assert (steps + [step])[1..] == steps[1..] + [step];
      RunJoins(q, Next(q, s, steps[0]), steps[1..], step);
    }
  }

  ghost predicate Reachable(q: Queue, s: State) {
    exists steps :: RunSteps(q, START, steps) == s
  }

  lemma OneMore(q: Queue, s: State, step: Step) returns (s': State)
    requires Reachable(q, s)
    ensures s' == Next(q, s, step) && Reachable(q, s')
  {
    var steps :| RunSteps(q, START, steps) == s;
    RunJoins(q, START, steps, step);
    s' := Next(q, s, step);
  }

  /** One worker claims the only row and hands it over. */
  function Attempted(s: State, row: Row): State {
    State(s.now, [row.(status := Processing, attempts := row.attempts + 1, handoffs := row.handoffs + 1)],
          map[0 := Worker([0], HandedOff)])
  }

  lemma ClaimsTheOnly(q: Queue, s: State, row: Row)
    requires s.workers == map[] && s.rows == [row] && Claimable(row, s.now)
    ensures Next(q, s, Drain(0, 25, {})) == State(s.now, [ClaimedRow(row)], map[0 := Worker([0], Ready)])
  {
    assert Picked(s.rows, ReadyAt(s.now), 25, {}, 0) == [0] by {
      assert Picked(s.rows, ReadyAt(s.now), 24, {}, 1) == [];
    }
    assert ClaimedRows(s.rows, [0]) == [ClaimedRow(row)];
  }

  lemma HandsOver(q: Queue, s: State, row: Row)
    requires s.workers == map[0 := Worker([0], Ready)] && s.rows == [ClaimedRow(row)]
    ensures Next(q, s, HandOff(0)) == Attempted(s, row)
  {
    assert Busy(s, 0, Ready);
    assert Next(q, s, HandOff(0)).rows == Attempted(s, row).rows;
    assert Next(q, s, HandOff(0)).workers == Attempted(s, row).workers;
  }

  lemma Attempt(q: Queue, s: State, row: Row) returns (s': State)
    requires Reachable(q, s) && s.workers == map[] && s.rows == [row] && Claimable(row, s.now)
    ensures Reachable(q, s') && s' == Attempted(s, row)
  {
    ClaimsTheOnly(q, s, row);
    s' := OneMore(q, s, Drain(0, 25, {}));
    HandsOver(q, s', row);
    s' := OneMore(q, s', HandOff(0));
  }

  lemma GoesBack(s: State, row: Row)
    requires row.attempts == 0 && s.now == 0
    ensures var s1 := Next(Channel, Next(Channel, Attempted(s, row), Raise(0)), MarkFailed(0));
            Next(Channel, Next(Channel, s1, Stop(0)), Tick(10))
            == State(10, [row.(status := Pending, attempts := 1, available := 10, handoffs := row.handoffs + 1)], map[])
  {
    var s0 := Attempted(s, row);
    var s1 := Next(Channel, s0, Raise(0));
    assert Busy(s0, 0, HandedOff);
    assert s1 == State(0, s0.rows, map[0 := Worker([0], Failing)]);
    var s2 := Next(Channel, s1, MarkFailed(0));
    assert Busy(s1, 0, Failing);
    assert Delay(Channel, 1) == 10 by { assert Power2(1) == 2 * Power2(0); }
    assert s2.rows == [row.(status := Pending, attempts := 1, available := 10, handoffs := row.handoffs + 1)];
    assert Next(Channel, s2, Stop(0)).workers == map[];
  }

  /** Delivery is at least once, not exactly once: when marking a delivered message raises, it
      goes back to pending and is handed over again. */
  lemma AMessageCanBeSentTwice()
    ensures exists s :: Reachable(Channel, s) && |s.rows| == 1 && s.rows[0].status == Sent && s.rows[0].handoffs == 2
  {
    assert RunSteps(Channel, START, []) == START;
    var s0 := OneMore(Channel, START, Enqueue(None));
    var row := Row(None, Pending, 0, 0, 0);
    var s := Attempt(Channel, s0, row);
    GoesBack(s0, row);
    s := OneMore(Channel, s, Raise(0));
    s := OneMore(Channel, s, MarkFailed(0));
    s := OneMore(Channel, s, Stop(0));
    s := OneMore(Channel, s, Tick(10));
    var s5 := Attempt(Channel, s, row.(attempts := 1, available := 10, handoffs := 1));
    assert Busy(s5, 0, HandedOff);
    s := OneMore(Channel, s5, MarkSent(0));
    assert s.rows[0].status == Sent && s.rows[0].handoffs == 2;
  }
}
