/** The dispatch lease (realtime.py): one row per service request saying who may dispatch it
    and until when. Owners act on what they were told when they acquired it. */
module Lease {
  import opened Prelude

  datatype Lock = Lock(owner: Id, until: int)

  /** `insert ... on conflict do update ... where lease_until<=now() or owner=:owner`. */
  predicate Free(locks: map<Id, Lock>, request: Id, owner: Id, now: int) {
    request !in locks || locks[request].until <= now || locks[request].owner == owner
  }

  function Acquired(locks: map<Id, Lock>, request: Id, owner: Id, now: int, ttl: int): map<Id, Lock> {
    if Free(locks, request, owner, now) then locks[request := Lock(owner, now + ttl)] else locks
  }

  /** `delete ... where service_request_id=:rid and owner=:owner`. */
  function Released(locks: map<Id, Lock>, request: Id, owner: Id): map<Id, Lock> {
    if request in locks && locks[request].owner == owner then locks - {request} else locks
  }

  class Table {
    var locks: map<Id, Lock>

    constructor ()
      ensures locks == map[]
    {
      locks := map[];
    }

    method Acquire(request: Id, owner: Id, now: int, ttl: int) returns (granted: bool)
      modifies this
      ensures locks == Acquired(old(locks), request, owner, now, ttl)
      ensures granted <==> Free(old(locks), request, owner, now)
    {
      granted := true;
      if request in locks {
        granted := locks[request].until <= now || locks[request].owner == owner;
      }
      if granted { locks := locks[request := Lock(owner, now + ttl)]; }
    }

    method Release(request: Id, owner: Id)
      modifies this
      ensures locks == Released(old(locks), request, owner)
    {
      if request in locks && locks[request].owner == owner { locks := locks - {request}; }
    }
  }

  // ----- owners -----

  /** `told` is what each owner knows: the end of the lease it was last granted on a request and
      has not released. Nobody tells an owner that its lease ran out or passed to another. */
  datatype State = State(now: int, locks: map<Id, Lock>, told: map<(Id, Id), int>)

  const START := State(0, map[], map[])

  datatype Step =
    | Tick(seconds: nat)
    | Acquire(request: Id, owner: Id, ttl: int)
    | Release(request: Id, owner: Id)

  function Next(s: State, step: Step): State {
    match step
    case Tick(seconds) => s.(now := s.now + seconds)
    case Acquire(request, owner, ttl) =>
      s.(locks := Acquired(s.locks, request, owner, s.now, ttl),
         told := if Free(s.locks, request, owner, s.now) then s.told[(request, owner) := s.now + ttl] else s.told)
    case Release(request, owner) =>
      s.(locks := Released(s.locks, request, owner), told := s.told - {(request, owner)})
  }

  function RunSteps(s: State, steps: seq<Step>): State
    decreases |steps|
  {
    if steps == [] then s else RunSteps(Next(s, steps[0]), steps[1..])
  }

  /** The owner has every reason to act: its lease is neither released nor expired. */
  predicate Holds(s: State, request: Id, owner: Id) {
    (request, owner) in s.told && s.now < s.told[(request, owner)]
  }

  ghost predicate Inv(s: State) {
    && (forall r, o :: (r, o) in s.told && s.now < s.told[(r, o)] ==> r in s.locks && s.locks[r] == Lock(o, s.told[(r, o)]))
    && (forall r :: r in s.locks ==> (r, s.locks[r].owner) in s.told && s.told[(r, s.locks[r].owner)] == s.locks[r].until)
  }

  lemma {:induction false} RunKeeps(s: State, steps: seq<Step>)
    requires Inv(s)
    ensures Inv(RunSteps(s, steps))
    ensures RunSteps(s, steps).now >= s.now
    decreases |steps|
  {
    if steps != [] {
      assert Inv(Next(s, steps[0]));
      RunKeeps(Next(s, steps[0]), steps[1..]);
    }
  }

  /** Mutual exclusion, for whatever time-to-live each call asks for. */
  lemma OneOwner(steps: seq<Step>, request: Id, a: Id, b: Id)
    ensures var s := RunSteps(START, steps); Holds(s, request, a) && Holds(s, request, b) ==> a == b
  {
    RunKeeps(START, steps);
  }

  /** A lease is granted exactly when no other owner holds one. */
  lemma GrantedWhenUnheld(steps: seq<Step>, request: Id, owner: Id)
    ensures var s := RunSteps(START, steps);
            Free(s.locks, request, owner, s.now) <==> forall o :: o != owner ==> !Holds(s, request, o)
  {
    RunKeeps(START, steps);
    var s := RunSteps(START, steps);
    if !Free(s.locks, request, owner, s.now) {
      assert Holds(s, request, s.locks[request].owner);
    }
  }

  predicate IsOwn(step: Step, request: Id, owner: Id) {
    !step.Tick? && step.request == request && step.owner == owner
  }

  lemma LeaseLastsOneStep(s: State, step: Step, request: Id, owner: Id)
    requires Inv(s) && Holds(s, request, owner) && !IsOwn(step, request, owner)
    ensures var s' := Next(s, step);
            Inv(s') && (request, owner) in s'.told && s'.told[(request, owner)] == s.told[(request, owner)]
  {
  }

  /** A lease lasts: until it runs out nothing that others do ends or shortens it, however late
      an earlier owner releases and whoever tries to take it. */
  lemma {:induction false} LeaseLasts(s: State, steps: seq<Step>, request: Id, owner: Id)
    requires Inv(s) && Holds(s, request, owner)
    requires forall i :: 0 <= i < |steps| ==> !IsOwn(steps[i], request, owner)
    requires RunSteps(s, steps).now < s.told[(request, owner)]
    ensures var s' := RunSteps(s, steps);
            && Holds(s', request, owner) && s'.told[(request, owner)] == s.told[(request, owner)]
            && request in s'.locks && s'.locks[request] == Lock(owner, s.told[(request, owner)])
    decreases |steps|
  {
    if steps != [] {
      LeaseLastsOneStep(s, steps[0], request, owner);
      RunKeeps(Next(s, steps[0]), steps[1..]);
      LeaseLasts(Next(s, steps[0]), steps[1..], request, owner);
    }
  }

  ghost predicate FixedTtl(steps: seq<Step>, ttl: int) {
    forall i :: 0 <= i < |steps| && steps[i].Acquire? ==> steps[i].ttl == ttl
  }

  lemma {:induction false} EndsWithinTtl(s: State, steps: seq<Step>, ttl: int)
    requires FixedTtl(steps, ttl)
    requires forall key :: key in s.told ==> s.told[key] <= s.now + ttl
    ensures forall key :: key in RunSteps(s, steps).told ==> RunSteps(s, steps).told[key] <= RunSteps(s, steps).now + ttl
    decreases |steps|
  {
    if steps != [] {
      assert steps[0].Acquire? ==> steps[0].ttl == ttl;
      EndsWithinTtl(Next(s, steps[0]), steps[1..], ttl);
    }
  }

  /** With one time-to-live for all calls, renewing is always granted and never shortens. */
  lemma RenewalNeverShortens(steps: seq<Step>, request: Id, owner: Id, ttl: int)
    requires FixedTtl(steps, ttl) && Holds(RunSteps(START, steps), request, owner)
    ensures var s := RunSteps(START, steps);
            var s' := Next(s, Acquire(request, owner, ttl));
            Holds(s', request, owner) && s'.told[(request, owner)] >= s.told[(request, owner)]
  {
    RunKeeps(START, steps);
    EndsWithinTtl(START, steps, ttl);
  }

  /** In general renewing shortens exactly when it asks for less than is left. */
  lemma RenewalShortensWhen(steps: seq<Step>, request: Id, owner: Id, ttl: int)
    requires Holds(RunSteps(START, steps), request, owner)
    ensures var s := RunSteps(START, steps);
            Next(s, Acquire(request, owner, ttl)).told[(request, owner)] < s.told[(request, owner)]
            <==> ttl < s.told[(request, owner)] - s.now
  {
    RunKeeps(START, steps);
  }
}
