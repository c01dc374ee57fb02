/** When the sending queues hand a message over exactly once. A worker whose hand-over was
    accepted still has to mark the row; if that raises while the row has attempts left, the
    handler puts the row back in the queue (whatsapp_outbox_worker.py:25-32). That lapse is the
    only way to a second hand-over, and after it a second one is always possible. */
module RetryOnce {
  import opened Prelude
  import opened Claims
  import opened RetryQueue

  predicate Lapses(q: Queue, s: State, step: Step) {
    step.Raise? && Busy(s, step.w, HandedOff) && Current(s, step.w).attempts < Max(q)
  }

  predicate LapseFree(q: Queue, s: State, steps: seq<Step>)
    decreases |steps|
  {
    steps == [] || (!Lapses(q, s, steps[0]) && LapseFree(q, Next(q, s, steps[0]), steps[1..]))
  }

  ghost predicate AllOnce(s: State) {
    forall i :: 0 <= i < |s.rows| ==> s.rows[i].handoffs <= 1
  }

  // ----- without a lapse -----

  predicate RowOnce(row: Row) {
    row.handoffs <= 1 && (row.status == Pending ==> row.handoffs == 0)
  }

  /** A held row was not handed over yet, except the first one once it was accepted; if its
      worker is failing after that, its budget is spent and it will not go back. */
  predicate HeldOnce(q: Queue, row: Row, first: bool, phase: Phase) {
    || row.handoffs == 0
    || (first && phase == HandedOff)
    || (first && phase == Failing && row.attempts >= Max(q))
  }

  ghost predicate WorkerOnce(q: Queue, s: State, w: Id)
    requires w in s.workers
  {
    forall k :: 0 <= k < |s.workers[w].held| ==>
      s.workers[w].held[k] < |s.rows| && HeldOnce(q, s.rows[s.workers[w].held[k]], k == 0, s.workers[w].phase)
  }

  ghost predicate Once(q: Queue, s: State) {
    && (forall i :: 0 <= i < |s.rows| ==> RowOnce(s.rows[i]))
    && (forall w :: w in s.workers ==> WorkerOnce(q, s, w))
  }

  lemma DrainKeepsOnce(q: Queue, s: State, w: Id, limit: nat, skipped: set<Id>)
    requires Inv(q, s) && Once(q, s) && w !in s.workers
    ensures Once(q, Next(q, s, Drain(w, limit, skipped)))
  {
    var s' := Next(q, s, Drain(w, limit, skipped));
    var picked := Picked(s.rows, ReadyAt(s.now), limit, skipped, 0);
    ClaimKeeps(q, s, picked);
    forall v | v in s'.workers ensures WorkerOnce(q, s', v) {
      if v != w {
        assert WorkerOnce(q, s, v);
        forall k | 0 <= k < |s.workers[v].held| ensures s'.rows[s.workers[v].held[k]] == s.rows[s.workers[v].held[k]] {
          assert Holds(s, v, s.workers[v].held[k]);
        }
      }
    }
  }

  lemma WriteKeepsOnce(q: Queue, s: State, w: Id, row: Row, phase: Phase, next: bool)
    requires Inv(q, s) && Once(q, s)
    requires w in s.workers && s.workers[w].held != [] && s.workers[w].held[0] < |s.rows|
    requires RowOnce(row) && (!next ==> HeldOnce(q, row, true, phase))
    ensures Once(q, Written(s, w, row, phase, next))
  {
    var s' := Written(s, w, row, phase, next);
    assert WorkerOk(s, w) && WorkerOnce(q, s, w);
    forall v | v in s'.workers ensures WorkerOnce(q, s', v) {
      assert WorkerOnce(q, s, v);
      if v != w {
        forall k | 0 <= k < |s.workers[v].held| ensures s'.rows[s.workers[v].held[k]] == s.rows[s.workers[v].held[k]] {
          assert Holds(s, v, s.workers[v].held[k]) && Holds(s, w, s.workers[w].held[0]);
        }
      }
    }
  }

  lemma WorkingKeepsOnce(q: Queue, s: State, w: Id, step: Step)
    requires Inv(q, s) && Once(q, s) && !Lapses(q, s, step)
    requires step in {HandOff(w), Raise(w), MarkSent(w), MarkFailed(w)}
    ensures Once(q, Next(q, s, step))
  {
    if w in s.workers && s.workers[w].held != [] {
      assert WorkerOk(s, w) && HeldOk(s, w, 0) && WorkerOnce(q, s, w);
      var row := Current(s, w);
      assert HeldOnce(q, row, true, s.workers[w].phase) && RowOnce(row);
      match step
      case HandOff(_) =>
        if Busy(s, w, Ready) { WriteKeepsOnce(q, s, w, row.(handoffs := row.handoffs + 1), HandedOff, false); }
      case Raise(_) =>
        if Busy(s, w, Ready) || Busy(s, w, HandedOff) { WriteKeepsOnce(q, s, w, row, Failing, false); }
      case MarkSent(_) =>
        if Busy(s, w, HandedOff) { WriteKeepsOnce(q, s, w, MarkedSent(row), Ready, true); }
      case MarkFailed(_) =>
        if Busy(s, w, Failing) { WriteKeepsOnce(q, s, w, MarkedFailed(q, row, s.now), Ready, true); }
    }
  }

  lemma StepKeepsOnce(q: Queue, s: State, step: Step)
    requires Inv(q, s) && Once(q, s) && !Lapses(q, s, step)
    ensures Once(q, Next(q, s, step))
  {
    match step
    case Tick(_) =>
      forall w | w in s.workers ensures WorkerOnce(q, Next(q, s, step), w) { assert WorkerOnce(q, s, w); }
    case Stop(_) =>
      forall w | w in Next(q, s, step).workers ensures WorkerOnce(q, Next(q, s, step), w) { assert WorkerOnce(q, s, w); }
    case Enqueue(_) =>
      forall w | w in s.workers ensures WorkerOnce(q, Next(q, s, step), w) { assert WorkerOnce(q, s, w); }
    case Drain(w, limit, skipped) =>
      if w !in s.workers { DrainKeepsOnce(q, s, w, limit, skipped); }
    case _ => WorkingKeepsOnce(q, s, step.w, step);
  }

  lemma {:induction false} RunKeepsOnce(q: Queue, s: State, steps: seq<Step>)
    requires Inv(q, s) && Once(q, s) && LapseFree(q, s, steps)
    ensures Inv(q, RunSteps(q, s, steps)) && Once(q, RunSteps(q, s, steps))
    decreases |steps|
  {
    if steps != [] {
      NextKeeps(q, s, steps[0]);
      StepKeepsOnce(q, s, steps[0]);
      RunKeepsOnce(q, Next(q, s, steps[0]), steps[1..]);
    }
  }

  /** In every interleaving without a lapse no row is handed over twice. */
  lemma HandedOverOnce(q: Queue, steps: seq<Step>)
    requires LapseFree(q, START, steps)
    ensures AllOnce(RunSteps(q, START, steps))
  {
    RunKeepsOnce(q, START, steps);
    var s := RunSteps(q, START, steps);
    forall i | 0 <= i < |s.rows| ensures s.rows[i].handoffs <= 1 { assert RowOnce(s.rows[i]); }
  }

  // ----- after a lapse -----

  /** A claim that finds every other row locked takes exactly row i. */
  lemma {:induction false} OnlyOneUnlocked(rows: seq<Row>, now: int, i: Id, skipped: set<Id>, k: nat)
    requires k <= |rows| && i < |rows| && Claimable(rows[i], now)
    requires i !in skipped && forall j :: 0 <= j < |rows| && j != i ==> j in skipped
    ensures Picked(rows, ReadyAt(now), 1, skipped, k) == if k <= i then [i] else []
    decreases |rows| - k
  {
    if k < |rows| {
      OnlyOneUnlocked(rows, now, i, skipped, k + 1);
      assert k == i ==> Picked(rows, ReadyAt(now), 0, skipped, k + 1) == [];
    }
  }

  function AllBut(n: nat, i: Id): (others: set<Id>)
    ensures forall j: Id :: j in others <==> j < n && j != i
  {
    if n == 0 then {} else AllBut(n - 1, i) + if n - 1 == i then {} else {n - 1}
  }

  /** The row goes back, its time comes, and another worker takes it while the others wait. */
  function Again(q: Queue, w: Id, v: Id, i: Id, rows: nat, delay: nat): seq<Step> {
    [MarkFailed(w), Tick(delay), Drain(v, 1, AllBut(rows, i)), HandOff(v)]
  }

  lemma PutBack(q: Queue, s: State, w: Id) returns (s1: State)
    requires Inv(q, s) && Lapses(q, s, Raise(w))
    ensures s1 == Next(q, Next(q, s, Raise(w)), MarkFailed(w)) && s1.now == s.now && |s1.rows| == |s.rows|
    ensures s1.workers.Keys == s.workers.Keys
    ensures var i := s.workers[w].held[0];
            s1.rows[i] == s.rows[i].(status := Pending, available := s.now + Delay(q, s.rows[i].attempts))
  {
    assert Busy(Next(q, s, Raise(w)), w, Failing);
    s1 := Next(q, Next(q, s, Raise(w)), MarkFailed(w));
  }

  lemma TakenAgain(q: Queue, s: State, v: Id, i: Id)
    requires i < |s.rows| && Claimable(s.rows[i], s.now) && v !in s.workers
    ensures var s2 := Next(q, Next(q, s, Drain(v, 1, AllBut(|s.rows|, i))), HandOff(v));
            i < |s2.rows| && s2.rows[i].handoffs == s.rows[i].handoffs + 1
  {
    var s1 := Next(q, s, Drain(v, 1, AllBut(|s.rows|, i)));
    OnlyOneUnlocked(s.rows, s.now, i, AllBut(|s.rows|, i), 0);
    assert s1.workers[v] == Worker([i], Ready) && s1.rows[i] == ClaimedRow(s.rows[i]);
    assert Busy(s1, v, Ready);
  }

  lemma FourSteps(q: Queue, s: State, a: Step, b: Step, c: Step, d: Step)
    requires !a.Raise? && !b.Raise? && !c.Raise? && !d.Raise?
    ensures RunSteps(q, s, [a, b, c, d]) == Next(q, Next(q, Next(q, Next(q, s, a), b), c), d)
    ensures LapseFree(q, s, [a, b, c, d])
  {
    var s1 := Next(q, s, a);
    var s2 := Next(q, s1, b);
    var s3 := Next(q, s2, c);
    assert [a, b, c, d][1..] == [b, c, d] && [b, c, d][1..] == [c, d] && [c, d][1..] == [d] && [d][1..] == [];
    assert RunSteps(q, s3, [d]) == Next(q, s3, d) && LapseFree(q, s3, [d]);
    assert RunSteps(q, s2, [c, d]) == Next(q, s3, d) && LapseFree(q, s2, [c, d]);
    assert RunSteps(q, s1, [b, c, d]) == Next(q, s3, d) && LapseFree(q, s1, [b, c, d]);
  }

  /** From any reachable state: once a worker lapses, the row it had handed over can be handed
      over once more, without any further lapse. */
  lemma LapseRepeats(q: Queue, before: seq<Step>, w: Id) returns (more: seq<Step>)
    requires Lapses(q, RunSteps(q, START, before), Raise(w))
    ensures var s := RunSteps(q, START, before);
            var i := s.workers[w].held[0];
            var later := RunSteps(q, Next(q, s, Raise(w)), more);
            && LapseFree(q, Next(q, s, Raise(w)), more)
            && i < |later.rows| && later.rows[i].handoffs == s.rows[i].handoffs + 1 >= 2
  {
    var s := RunSteps(q, START, before);
    RunKeeps(q, START, before);
    assert WorkerOk(s, w) && HeldOk(s, w, 0);
    var i := s.workers[w].held[0];
    var delay := Delay(q, s.rows[i].attempts);
    DelaysDouble(s.rows[i].attempts);
    var v := Unused(s.workers.Keys);
    var s1 := PutBack(q, s, w);
    more := Again(q, w, v, i, |s.rows|, delay);
    TakenAgain(q, Next(q, s1, Tick(delay)), v, i);
    FourSteps(q, Next(q, s, Raise(w)), MarkFailed(w), Tick(delay), Drain(v, 1, AllBut(|s.rows|, i)), HandOff(v));
  }

  /** The exact condition, for either queue. As long as no step lapsed, a step keeps every
      message to one hand-over, whatever follows without a lapse, if and only if it is not
      itself a lapse: a raise after a hand-over with attempts left. */
  lemma OnceExactlyWhen(q: Queue, before: seq<Step>, step: Step)
    requires LapseFree(q, START, before)
    ensures var s := RunSteps(q, START, before);
            var s' := Next(q, s, step);
            !Lapses(q, s, step) <==> forall more :: LapseFree(q, s', more) ==> AllOnce(RunSteps(q, s', more))
  {
    var s := RunSteps(q, START, before);
    var s' := Next(q, s, step);
    if Lapses(q, s, step) {
      var more := LapseRepeats(q, before, step.w);
      assert LapseFree(q, s', more) && !AllOnce(RunSteps(q, s', more));
    } else {
      RunKeepsOnce(q, START, before);
      NextKeeps(q, s, step);
      StepKeepsOnce(q, s, step);
      forall more | LapseFree(q, s', more) ensures AllOnce(RunSteps(q, s', more)) {
        RunKeepsOnce(q, s', more);
      }
    }
  }
}
