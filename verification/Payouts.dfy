/** Paying providers out (reconciliation.py, settlement.py): a payout is prepared or executed
    against a verified destination, each time opening an attempt, and completed by one of them.
    Executing and preparing hold the payout's row lock throughout; completing locks the attempt
    first and the payout only afterwards, so completions interleave with everything else. */
module Payouts {
  import opened Prelude

  datatype Destination = Destination(provider: Id, rail: string, reference: string)

  datatype PayoutStatus = Requested | Processing | Paid | Failed | Cancelled
  // `executed` is history: the destinations the payout was executed against.
  datatype Payout = Payout(provider: Id, amount: int, status: PayoutStatus, executed: seq<Destination>)

  datatype AttemptStatus = Pending | InProcess | Succeeded | Broken
  datatype Attempt = Attempt(payout: Id, number: nat, status: AttemptStatus)

  datatype Db = Db(payouts: seq<Payout>, attempts: seq<Attempt>, verified: set<Destination>)

  datatype Error = NotFound | NotExecutable | NotVerified | InsufficientBalance | AttemptUnavailable | TransitionFailed
  datatype Result = Ok(attempt: Id) | Err(error: Error)

  /** coalesce(max(attempt_no),0) over the payout's attempts. */
  function MaxNumber(attempts: seq<Attempt>, payout: Id): nat {
    if attempts == [] then 0
    else
      var rest := MaxNumber(attempts[..|attempts| - 1], payout);
      var last := attempts[|attempts| - 1];
      if last.payout == payout && last.number > rest then last.number else rest
  }

  lemma {:induction false} MaxNumberIsMax(attempts: seq<Attempt>, payout: Id)
    ensures forall i :: 0 <= i < |attempts| && attempts[i].payout == payout ==> attempts[i].number <= MaxNumber(attempts, payout)
    ensures MaxNumber(attempts, payout) == 0 ||
            exists i :: 0 <= i < |attempts| && attempts[i].payout == payout && attempts[i].number == MaxNumber(attempts, payout)
  {
    if attempts != [] {
      var rest := attempts[..|attempts| - 1];
      MaxNumberIsMax(rest, payout);
      forall i | 0 <= i < |attempts| && attempts[i].payout == payout ensures attempts[i].number <= MaxNumber(attempts, payout) {
        if i < |rest| { assert rest[i] == attempts[i]; }
      }
      if MaxNumber(attempts, payout) == MaxNumber(rest, payout) != 0 {
        var i :| 0 <= i < |rest| && rest[i].payout == payout && rest[i].number == MaxNumber(rest, payout);
        assert attempts[i] == rest[i];
      }
    }
  }

  /** The attempt with this payout and number, unique by the table's index. */
  function FindAttempt(attempts: seq<Attempt>, payout: Id, number: nat): (r: Option<Id>)
    ensures r.Some? ==> r.value < |attempts| && attempts[r.value].payout == payout && attempts[r.value].number == number
    ensures r == None ==> forall i :: 0 <= i < |attempts| ==> !(attempts[i].payout == payout && attempts[i].number == number)
  {
    Find(attempts, (a: Attempt) => a.payout == payout && a.number == number)
  }

  function Execute(db: Db, payout: Id, rail: string, reference: string): (Db, Result) {
    if payout >= |db.payouts| then (db, Err(NotFound))
    else
      var p := db.payouts[payout];
      var d := Destination(p.provider, rail, reference);
      if p.status !in {Requested, Processing} then (db, Err(NotExecutable))
      else if d !in db.verified then (db, Err(NotVerified))
      else
        (db.(attempts := db.attempts + [Attempt(payout, MaxNumber(db.attempts, payout) + 1, InProcess)],
             payouts := db.payouts[payout := p.(status := Processing, executed := p.executed + [d])]), Ok(|db.attempts|))
  }

  /** `spare` is the provider's ledger balance less its held reserves. */
  function Prepare(db: Db, payout: Id, spare: int): (Db, Result) {
    if payout >= |db.payouts| then (db, Err(NotFound))
    else if db.payouts[payout].status !in {Requested, Processing} then (db, Err(NotExecutable))
    else if spare < db.payouts[payout].amount then (db, Err(InsufficientBalance))
    else
      var first := FindAttempt(db.attempts, payout, 1);
      if first.Some? then (db.(attempts := db.attempts[first.value := db.attempts[first.value].(status := InProcess)]), Ok(first.value))
      else (db.(attempts := db.attempts + [Attempt(payout, 1, InProcess)]), Ok(|db.attempts|))
  }

  function Complete(db: Db, attempt: Id): (Db, Result) {
    if attempt >= |db.attempts| || db.attempts[attempt].status != InProcess then (db, Err(AttemptUnavailable))
    else
      var payout := db.attempts[attempt].payout;
      if payout >= |db.payouts| || db.payouts[payout].status != Processing then (db, Err(TransitionFailed))
      else
        (db.(attempts := db.attempts[attempt := db.attempts[attempt].(status := Succeeded)],
             payouts := db.payouts[payout := db.payouts[payout].(status := Paid)]), Ok(attempt))
  }

  /** The tables updated statement by statement; a failed completion is rolled back. */
  class Tables {
    var payouts: seq<Payout>
    var attempts: seq<Attempt>
    var verified: set<Destination>

    ghost function Contents(): Db
      reads this
    {
      Db(payouts, attempts, verified)
    }

    method ExecutePayout(payout: Id, rail: string, reference: string) returns (result: Result)
      modifies this
      ensures (Contents(), result) == Execute(old(Contents()), payout, rail, reference)
    {
      if payout >= |payouts| { return Err(NotFound); }
      var p := payouts[payout];
      if p.status != Requested && p.status != Processing { return Err(NotExecutable); }
      var d := Destination(p.provider, rail, reference);
      if d !in verified { return Err(NotVerified); }
      attempts := attempts + [Attempt(payout, MaxNumber(attempts, payout) + 1, InProcess)];
      payouts := payouts[payout := p.(status := Processing, executed := p.executed + [d])];
      result := Ok(|attempts| - 1);
    }

    method PayoutWithReservation(payout: Id, spare: int) returns (result: Result)
      modifies this
      ensures (Contents(), result) == Prepare(old(Contents()), payout, spare)
    {
      if payout >= |payouts| { return Err(NotFound); }
      if payouts[payout].status != Requested && payouts[payout].status != Processing { return Err(NotExecutable); }
      if spare < payouts[payout].amount { return Err(InsufficientBalance); }
      var first := FindAttempt(attempts, payout, 1);
      if first.Some? {
        attempts := attempts[first.value := attempts[first.value].(status := InProcess)];
        return Ok(first.value);
      }
      attempts := attempts + [Attempt(payout, 1, InProcess)];
      result := Ok(|attempts| - 1);
    }

    method CompletePayout(attempt: Id) returns (result: Result)
      modifies this
      ensures (Contents(), result) == Complete(old(Contents()), attempt)
    {
      if attempt >= |attempts| || attempts[attempt].status != InProcess { return Err(AttemptUnavailable); }
      var savepoint := attempts;
      attempts := attempts[attempt := attempts[attempt].(status := Succeeded)];
      var payout := attempts[attempt].payout;
      if payout >= |payouts| || payouts[payout].status != Processing {
        attempts := savepoint;
        return Err(TransitionFailed);
      }
      payouts := payouts[payout := payouts[payout].(status := Paid)];
      result := Ok(attempt);
    }
  }

  // ----- interleavings -----

  /** `open` are the completions that have updated, and so locked, their attempt but have not
      reached the payout yet; what they wrote is not visible to others. */
  datatype State = State(db: Db, open: map<Id, Id>)

  const START := State(Db([], [], {}), map[])

  datatype Step =
    | Request(provider: Id, amount: int)
    | Verify(destination: Destination)
    | OpExecute(payout: Id, rail: string, reference: string)
    | OpPrepare(payout: Id, spare: int)
    | BeginComplete(tx: Id, attempt: Id)
    | EndComplete(tx: Id)
    | Abort(tx: Id)

  predicate Locked(s: State, attempt: Id) {
    attempt in s.open.Values
  }

  function Next(s: State, step: Step): State {
    match step
    case Request(provider, amount) => s.(db := s.db.(payouts := s.db.payouts + [Payout(provider, amount, Requested, [])]))
    case Verify(d) => s.(db := s.db.(verified := s.db.verified + {d}))
    case OpExecute(payout, rail, reference) => s.(db := Execute(s.db, payout, rail, reference).0)
    case OpPrepare(payout, spare) =>
      var first := FindAttempt(s.db.attempts, payout, 1);
      if first.Some? && Locked(s, first.value) then s     // waits for the completion that has the row
      else s.(db := Prepare(s.db, payout, spare).0)
    case BeginComplete(tx, attempt) =>
      if tx in s.open || Locked(s, attempt) || attempt >= |s.db.attempts| || s.db.attempts[attempt].status != InProcess then s
      else s.(open := s.open[tx := attempt])
    case EndComplete(tx) =>
      if tx !in s.open then s else State(Complete(s.db, s.open[tx]).0, s.open - {tx})
    case Abort(tx) => s.(open := s.open - {tx})
  }

  function RunSteps(s: State, steps: seq<Step>): State
    decreases |steps|
  {
    if steps == [] then s else RunSteps(Next(s, steps[0]), steps[1..])
  }

  ghost predicate Won(db: Db, p: Id, i: Id) {
    i < |db.attempts| && db.attempts[i].payout == p && db.attempts[i].status == Succeeded
  }

  ghost predicate PayoutOk(db: Db, p: Id)
    requires p < |db.payouts|
  {
    && (db.payouts[p].status == Paid <==> exists i :: Won(db, p, i))
    && (forall i, j :: Won(db, p, i) && Won(db, p, j) ==> i == j)
    && (if db.payouts[p].status == Requested then db.payouts[p].executed == []
        else db.payouts[p].status in {Processing, Paid} && db.payouts[p].executed != [])
    && (forall k :: 0 <= k < |db.payouts[p].executed| ==>
         db.payouts[p].executed[k] in db.verified && db.payouts[p].executed[k].provider == db.payouts[p].provider)
  }

  ghost predicate Numbered(attempts: seq<Attempt>) {
    forall i, j :: 0 <= i < j < |attempts| && attempts[i].payout == attempts[j].payout ==> attempts[i].number != attempts[j].number
  }

  ghost predicate DbOk(db: Db) {
    && (forall i :: 0 <= i < |db.attempts| ==> db.attempts[i].payout < |db.payouts|)
    && Numbered(db.attempts)
    && (forall p :: 0 <= p < |db.payouts| ==> PayoutOk(db, p))
  }

  ghost predicate Inv(s: State) {
    && DbOk(s.db)
    && (forall tx :: tx in s.open ==> s.open[tx] < |s.db.attempts| && s.db.attempts[s.open[tx]].status == InProcess)
    && (forall t, u :: t in s.open && u in s.open && s.open[t] == s.open[u] ==> t == u)
  }

  /** What a step does to what is already written: numbers and owners stay, a success and a
      payment are final, and only a completion makes either. */
  ghost predicate Keeps(a: Db, b: Db) {
    && |a.payouts| <= |b.payouts| && |a.attempts| <= |b.attempts| && a.verified <= b.verified
    && (forall i :: 0 <= i < |a.attempts| ==> b.attempts[i].payout == a.attempts[i].payout && b.attempts[i].number == a.attempts[i].number)
    && (forall i :: 0 <= i < |a.attempts| && a.attempts[i].status == Succeeded ==> b.attempts[i].status == Succeeded)
    && (forall p :: 0 <= p < |a.payouts| ==>
         b.payouts[p].provider == a.payouts[p].provider && a.payouts[p].executed <= b.payouts[p].executed)
    && (forall p :: 0 <= p < |a.payouts| && a.payouts[p].status == Paid ==> b.payouts[p] == a.payouts[p])
  }

  lemma OpenAttempt(db: Db, attempts: seq<Attempt>, p: Id)
    requires DbOk(db) && p < |db.payouts|
    requires |db.attempts| <= |attempts|
    requires forall i :: 0 <= i < |db.attempts| ==>
      attempts[i].payout == db.attempts[i].payout && (attempts[i].status == Succeeded <==> db.attempts[i].status == Succeeded)
    requires forall i :: |db.attempts| <= i < |attempts| ==> attempts[i].status != Succeeded
    ensures PayoutOk(db.(attempts := attempts), p)
  {
    var after := db.(attempts := attempts);
    assert PayoutOk(db, p);
    forall i ensures Won(after, p, i) <==> Won(db, p, i) {}
  }

  lemma ExecuteKeeps(db: Db, payout: Id, rail: string, reference: string)
    requires DbOk(db)
    ensures DbOk(Execute(db, payout, rail, reference).0) && Keeps(db, Execute(db, payout, rail, reference).0)
  {
    var after := Execute(db, payout, rail, reference).0;
    if after != db {
      MaxNumberIsMax(db.attempts, payout);
      forall p | 0 <= p < |after.payouts| ensures PayoutOk(after, p) {
        OpenAttempt(db, after.attempts, p);
        var mid := db.(attempts := after.attempts);
        assert PayoutOk(db, p);
        forall i ensures Won(after, p, i) <==> Won(mid, p, i) {}
      }
    }
  }

  lemma PrepareKeeps(db: Db, payout: Id, spare: int)
    requires DbOk(db)
    ensures DbOk(Prepare(db, payout, spare).0) && Keeps(db, Prepare(db, payout, spare).0)
  {
    var after := Prepare(db, payout, spare).0;
    if after != db {
      assert PayoutOk(db, payout);
      forall i ensures !Won(db, payout, i) {}
      var first := FindAttempt(db.attempts, payout, 1);
      if first.Some? {
        assert !Won(db, payout, first.value);
      }
      forall p | 0 <= p < |after.payouts| ensures PayoutOk(after, p) { OpenAttempt(db, after.attempts, p); }
    }
  }

  lemma CompleteKeeps(db: Db, attempt: Id)
    requires DbOk(db)
    ensures DbOk(Complete(db, attempt).0) && Keeps(db, Complete(db, attempt).0)
  {
    var after := Complete(db, attempt).0;
    if after != db {
      var payout := db.attempts[attempt].payout;
      forall p | 0 <= p < |after.payouts| ensures PayoutOk(after, p) {
        assert PayoutOk(db, p);
        forall i | i != attempt ensures Won(after, p, i) <==> Won(db, p, i) {}
        if p == payout {
          assert Won(after, p, attempt);
        } else {
          assert !Won(after, p, attempt) && !Won(db, p, attempt);
        }
      }
    }
  }

  lemma GrowKeeps(db: Db, after: Db)
    requires DbOk(db) && after.attempts == db.attempts && db.verified <= after.verified && db.payouts <= after.payouts
    requires forall p :: |db.payouts| <= p < |after.payouts| ==> after.payouts[p].status == Requested && after.payouts[p].executed == []
    ensures DbOk(after) && Keeps(db, after)
  {
    forall p | 0 <= p < |after.payouts| ensures PayoutOk(after, p) {
      forall i ensures Won(after, p, i) <==> Won(db, p, i) {}
      if p < |db.payouts| { assert PayoutOk(db, p); }
    }
  }

  lemma LocksKeep(s: State, tx: Id, attempt: Id)
    requires Inv(s)
    ensures Inv(Next(s, BeginComplete(tx, attempt)))
  {
    var after := Next(s, BeginComplete(tx, attempt));
    forall t, u | t in after.open && u in after.open && after.open[t] == after.open[u] ensures t == u {}
  }

  lemma EndKeeps(s: State, tx: Id)
    requires Inv(s) && tx in s.open
    ensures Inv(Next(s, EndComplete(tx))) && Keeps(s.db, Next(s, EndComplete(tx)).db)
  {
    CompleteKeeps(s.db, s.open[tx]);
  }

  lemma WriteKeeps(s: State, db: Db)
    requires Inv(s) && DbOk(db) && |s.db.attempts| <= |db.attempts|
    requires forall i :: 0 <= i < |s.db.attempts| && s.db.attempts[i].status == InProcess ==> db.attempts[i].status == InProcess
    ensures Inv(s.(db := db))
  {
    forall tx | tx in s.open ensures s.open[tx] < |db.attempts| && db.attempts[s.open[tx]].status == InProcess {}
  }

  ghost predicate StepKeeps(s: State, s': State) {
    Inv(s') && Keeps(s.db, s'.db)
  }

  lemma WritingKeeps(s: State, step: Step)
    requires Inv(s) && !step.BeginComplete? && !step.EndComplete? && !step.Abort?
    ensures StepKeeps(s, Next(s, step))
  {
    var db := Next(s, step).db;
    match step {
    case OpExecute(payout, rail, reference) => ExecuteKeeps(s.db, payout, rail, reference);
    case OpPrepare(payout, spare) => PrepareKeeps(s.db, payout, spare);
    case _ => GrowKeeps(s.db, db);
    }
    WriteKeeps(s, db);
  }

  lemma NextKeeps(s: State, step: Step)
    requires Inv(s)
    ensures StepKeeps(s, Next(s, step))
  {
    match step
    case BeginComplete(tx, attempt) => LocksKeep(s, tx, attempt);
    case EndComplete(tx) => if tx in s.open { EndKeeps(s, tx); }
    case Abort(_) =>
    case _ => WritingKeeps(s, step);
  }

  lemma {:induction false} RunKeeps(s: State, steps: seq<Step>)
    requires Inv(s)
    ensures Inv(RunSteps(s, steps)) && Keeps(s.db, RunSteps(s, steps).db)
    decreases |steps|
  {
    if steps != [] {
      NextKeeps(s, steps[0]);
      RunKeeps(Next(s, steps[0]), steps[1..]);
    }
  }

  // ----- guarantees over every interleaving -----

  /** A payout is paid exactly when one of its attempts succeeded, and it is exactly one. */
  lemma PaidByOneAttempt(steps: seq<Step>, p: Id)
    ensures var db := RunSteps(START, steps).db;
            p < |db.payouts| ==>
              && (db.payouts[p].status == Paid <==> exists i :: Won(db, p, i))
              && (forall i, j :: Won(db, p, i) && Won(db, p, j) ==> i == j)
  {
    RunKeeps(START, steps);
    var db := RunSteps(START, steps).db;
    if p < |db.payouts| { assert PayoutOk(db, p); }
  }

  lemma AttemptNumbersAreDistinct(steps: seq<Step>)
    ensures Numbered(RunSteps(START, steps).db.attempts)
  {
    RunKeeps(START, steps);
  }

  /** A payout in process or paid was executed, against destinations verified for its provider. */
  lemma PaidWasExecuted(steps: seq<Step>, p: Id)
    ensures var db := RunSteps(START, steps).db;
            p < |db.payouts| && db.payouts[p].status in {Processing, Paid} ==>
              && |db.payouts[p].executed| >= 1
              && db.payouts[p].executed[0] in db.verified
              && db.payouts[p].executed[0].provider == db.payouts[p].provider
  {
    RunKeeps(START, steps);
    var db := RunSteps(START, steps).db;
    if p < |db.payouts| { assert PayoutOk(db, p); }
  }

  /** Success is final: whatever is prepared, executed or completed afterwards, a succeeded
      attempt is never reopened and its payout never moves. */
  lemma SuccessIsFinal(steps: seq<Step>, more: seq<Step>, i: Id)
    requires var db := RunSteps(START, steps).db; i < |db.attempts| && db.attempts[i].status == Succeeded
    ensures var db, later := RunSteps(START, steps).db, RunSteps(RunSteps(START, steps), more).db;
            var p := db.attempts[i].payout;
            && i < |later.attempts| && later.attempts[i] == db.attempts[i]
            && p < |later.payouts| && later.payouts[p].status == Paid
            && forall j :: Won(later, p, j) ==> j == i
  {
    var s := RunSteps(START, steps);
    RunKeeps(START, steps);
    RunKeeps(s, more);
    var later := RunSteps(s, more).db;
    assert Won(later, s.db.attempts[i].payout, i);
    assert PayoutOk(later, s.db.attempts[i].payout);
  }

  /** A completion that has begun goes through unless another attempt paid the payout or the
      payout was only prepared and never executed: then it leaves everything as it was. */
  lemma CompletesUnlessOvertaken(steps: seq<Step>, tx: Id)
    requires tx in RunSteps(START, steps).open
    ensures var s := RunSteps(START, steps);
            var i := s.open[tx];
            var after := Next(s, EndComplete(tx)).db;
            && i < |s.db.attempts| && s.db.attempts[i].payout < |s.db.payouts| &&
            var p := s.db.attempts[i].payout;
            && (after == s.db <==> s.db.payouts[p].executed == [] || exists j :: Won(s.db, p, j))
            && (after != s.db <==> Won(after, p, i))
  {
    RunKeeps(START, steps);
    var s := RunSteps(START, steps);
    assert PayoutOk(s.db, s.db.attempts[s.open[tx]].payout);
  }

  // ----- exactly when -----

  /** Executing succeeds exactly for a payout that is requested or in process, against a
      destination verified for its provider. It opens one attempt, numbered one above all the
      payout's others, and leaves the payout in process; otherwise nothing changes. */
  lemma ExecutesWhen(db: Db, payout: Id, rail: string, reference: string)
    ensures var (after, r) := Execute(db, payout, rail, reference);
            && (r.Ok? <==>
                 && payout < |db.payouts| && (db.payouts[payout].status == Requested || db.payouts[payout].status == Processing)
                 && Destination(db.payouts[payout].provider, rail, reference) in db.verified)
            && (r.Err? ==> after == db)
            && (r.Ok? ==>
                 && r == Ok(|db.attempts|) && |after.attempts| == |db.attempts| + 1 && after.attempts[..|db.attempts|] == db.attempts
                 && Numbers(db.attempts, after.attempts[|db.attempts|], payout)
                 && after.attempts[|db.attempts|].status == InProcess && after.verified == db.verified
                 && after.payouts == db.payouts[payout := db.payouts[payout].(status := Processing,
                      executed := db.payouts[payout].executed + [Destination(db.payouts[payout].provider, rail, reference)])])
  {
    MaxNumberIsMax(db.attempts, payout);
  }

  /** The attempt is the payout's, with the number after its last one. */
  ghost predicate Numbers(attempts: seq<Attempt>, a: Attempt, payout: Id) {
    && a.payout == payout && a.number >= 1
    && (forall i :: 0 <= i < |attempts| && attempts[i].payout == payout ==> attempts[i].number < a.number)
    && (a.number == 1 || exists i :: 0 <= i < |attempts| && attempts[i].payout == payout && attempts[i].number == a.number - 1)
  }

  /** Preparing succeeds exactly for such a payout when the balance spared covers it. It puts
      the payout's first attempt in process, or opens it, and leaves the payout as it is. */
  lemma PreparesWhen(db: Db, payout: Id, spare: int)
    ensures var (after, r) := Prepare(db, payout, spare);
            && (r.Ok? <==>
                 && payout < |db.payouts| && (db.payouts[payout].status == Requested || db.payouts[payout].status == Processing)
                 && db.payouts[payout].amount <= spare)
            && (r.Err? ==> after == db)
            && (r.Ok? ==>
                 && after == db.(attempts := after.attempts) && r.attempt < |after.attempts|
                 && after.attempts[r.attempt] == Attempt(payout, 1, InProcess)
                 && (if |after.attempts| == |db.attempts| then
                       && db.attempts[r.attempt].payout == payout && db.attempts[r.attempt].number == 1
                       && after.attempts == db.attempts[r.attempt := after.attempts[r.attempt]]
                     else after.attempts == db.attempts + [Attempt(payout, 1, InProcess)] && r.attempt == |db.attempts|
                          && forall i :: 0 <= i < |db.attempts| ==> !(db.attempts[i].payout == payout && db.attempts[i].number == 1)))
  {
  }

  /** Completing succeeds exactly for an attempt in process whose payout is in process too. */
  lemma CompletesWhen(db: Db, attempt: Id)
    ensures var (after, r) := Complete(db, attempt);
            && (r.Ok? <==>
                 && attempt < |db.attempts| && db.attempts[attempt].status == InProcess
                 && db.attempts[attempt].payout < |db.payouts| && db.payouts[db.attempts[attempt].payout].status == Processing)
            && (r.Err? ==> after == db)
            && (r.Ok? ==>
                 && after.attempts == db.attempts[attempt := db.attempts[attempt].(status := Succeeded)]
                 && after.payouts == db.payouts[db.attempts[attempt].payout := db.payouts[db.attempts[attempt].payout].(status := Paid)]
                 && after.verified == db.verified)
  {
  }

  lemma ThreeSteps(s: State, a: Step, b: Step, c: Step)
    ensures RunSteps(s, [a, b, c]) == Next(Next(Next(s, a), b), c)
  {
    var s2 := Next(Next(s, a), b);
    assert [a, b, c][1..] == [b, c] && [b, c][1..] == [c] && [c][1..] == [];
    assert RunSteps(s2, [c]) == RunSteps(Next(s2, c), []);
    assert RunSteps(Next(s, a), [b, c]) == RunSteps(s2, [c]);
  }

  /** From every reachable state a payout that may be executed can be paid: execute it and
      complete the attempt that opens. */
  lemma CanBePaid(steps: seq<Step>, payout: Id, rail: string, reference: string) returns (more: seq<Step>)
    requires Execute(RunSteps(START, steps).db, payout, rail, reference).1.Ok?
    ensures var later := RunSteps(RunSteps(START, steps), more).db;
            payout < |later.payouts| && later.payouts[payout].status == Paid
  {
    var s := RunSteps(START, steps);
    RunKeeps(START, steps);
    var i := |s.db.attempts|;
    var tx := Unused(s.open.Keys);
    more := [OpExecute(payout, rail, reference), BeginComplete(tx, i), EndComplete(tx)];
    ThreeSteps(s, more[0], more[1], more[2]);
    var s1 := Next(s, more[0]);
    ExecutesWhen(s.db, payout, rail, reference);
    assert !Locked(s1, i);
    assert Next(s1, more[1]).open[tx] == i;
    CompletesWhen(s1.db, i);
  }

  lemma {:induction false} RunJoins(s: State, a: seq<Step>, b: seq<Step>)
    ensures RunSteps(s, a + b) == RunSteps(RunSteps(s, a), b)
    decreases |a|
  {
    if a == [] {
      assert a + b == b;
    } else {
      assert (a + b)[1..] == a[1..] + b;
      RunJoins(Next(s, a[0]), a[1..], b);
    }
  }

  /** And some run pays a payout. */
  lemma SomethingIsPaid()
    ensures exists steps :: var db := RunSteps(START, steps).db; |db.payouts| > 0 && db.payouts[0].status == Paid
  {
    var d := Destination(1, "mpesa", "x");
    var steps := [Request(1, 100), Verify(d)];
    assert steps[1..] == [Verify(d)] && [Verify(d)][1..] == [];
    assert RunSteps(Next(START, steps[0]), [Verify(d)]) == Next(Next(START, steps[0]), Verify(d));
    assert RunSteps(START, steps).db == Db([Payout(1, 100, Requested, [])], [], {d});
    var more := CanBePaid(steps, 0, "mpesa", "x");
    RunJoins(START, steps, more);
  }
}
