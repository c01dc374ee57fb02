/** The marketplace guarantees, stated of every reachable state and of everything that can
    happen after it. */
module MarketplaceTheorems {
  import opened Prelude
  import opened Marketplace
  import opened MarketplaceRuns

  ghost predicate Reachable(db: Db) {
    exists calls :: db == Run(EmptyDb, calls)
  }

  lemma ReachableIsOrdered(db: Db)
    requires Reachable(db)
    ensures Inv(db)
  {
    var calls :| db == Run(EmptyDb, calls);
    RunKeeps(EmptyDb, calls);
  }

  /** While a request is looking for a provider it has none, and once a provider is recorded
      no later operation of any writer replaces or removes it. */
  lemma AcceptedProviderIsSetOnce(db: Db, calls: seq<Call>, rid: Id)
    requires Reachable(db) && rid < |db.requests|
    ensures rid < |Run(db, calls).requests|
    ensures db.requests[rid].status in {Searching, Offered} ==> db.requests[rid].provider.None?
    ensures db.requests[rid].provider.Some? ==> Run(db, calls).requests[rid].provider == db.requests[rid].provider
    ensures db.requests[rid].provider.Some? ==> Run(db, calls).requests[rid].status !in {Open, Searching, Offered}
  {
    ReachableIsOrdered(db);
    RunKeeps(db, calls);
    var later := Run(db, calls);
    assert RequestOk(db.requests[rid]) && RequestEvolves(db.requests[rid], later.requests[rid]);
    assert RequestOk(later.requests[rid]);
  }

  /** At most one offer of a request is ever awarded, and it belongs to the accepted provider. */
  lemma OneAwardedOffer(db: Db, i: Id, j: Id)
    requires Reachable(db) && i < |db.offers| && j < |db.offers|
    requires db.offers[i].status == Awarded && db.offers[j].status == Awarded
    requires db.offers[i].request == db.offers[j].request
    ensures i == j
    ensures db.offers[i].request < |db.requests|
    ensures db.requests[db.offers[i].request].provider == Some(db.offers[i].provider)
  {
    ReachableIsOrdered(db);
    assert OfferOk(db.requests, db.offers[i]) && OfferOk(db.requests, db.offers[j]);
  }

  /** An offer leaves `pending` at most once: its answer is final, and so is everything else in its row. */
  lemma OfferIsAnsweredOnce(db: Db, calls: seq<Call>, oid: Id)
    requires Reachable(db) && oid < |db.offers| && db.offers[oid].status != Pending
    ensures oid < |Run(db, calls).offers| && Run(db, calls).offers[oid] == db.offers[oid]
  {
    ReachableIsOrdered(db);
    RunKeeps(db, calls);
    assert OfferEvolves(db.offers[oid], Run(db, calls).offers[oid]);
  }

  /** Accepting answers every visible offer of the request and touches no other request's offers. */
  lemma AcceptClearsTheField(db: Db, now: int, oid: Id, pid: Id, visible: nat, i: Id)
    requires AcceptOffer(db, now, oid, pid, visible).error.None? && i < |db.offers|
    ensures var db' := AcceptOffer(db, now, oid, pid, visible).db;
            && |db'.offers| == |db.offers| && db'.jobs == db.jobs
            && (db.offers[i].request == db.offers[oid].request && i < visible ==> db'.offers[i].status != Pending)
            && (db.offers[i].request != db.offers[oid].request ==> db'.offers[i] == db.offers[i])
            && (i != oid && db.offers[i].status != Pending ==> db'.offers[i] == db.offers[i])
            && (db'.offers[i].status == Awarded ==> i == oid || db.offers[i].status == Awarded)
            && db'.offers[oid].status == Awarded
            && db'.requests[db.offers[oid].request].provider == Some(pid)
            && db'.requests[db.offers[oid].request].status == Accepted
  {
  }

  /** Completed and cancelled requests, and delivered, failed and cancelled jobs, never change again. */
  lemma TerminalStatesAbsorb(db: Db, calls: seq<Call>)
    requires Reachable(db)
    ensures var later := Run(db, calls);
            && |db.requests| <= |later.requests| && |db.jobs| <= |later.jobs|
            && (forall r :: 0 <= r < |db.requests| && db.requests[r].status in {Completed, Cancelled}
                  ==> later.requests[r] == db.requests[r])
            && (forall j :: 0 <= j < |db.jobs| && db.jobs[j].status in {Delivered, Failed, Aborted}
                  ==> later.jobs[j] == db.jobs[j])
  {
    ReachableIsOrdered(db);
    RunKeeps(db, calls);
    var later := Run(db, calls);
    forall r | 0 <= r < |db.requests| && db.requests[r].status in {Completed, Cancelled}
      ensures later.requests[r] == db.requests[r]
    {
      assert RequestEvolves(db.requests[r], later.requests[r]);
    }
    forall j | 0 <= j < |db.jobs| && db.jobs[j].status in {Delivered, Failed, Aborted}
      ensures later.jobs[j] == db.jobs[j]
    {
      assert JobEvolves(db.jobs[j], later.jobs[j]);
    }
  }

  /** Every write of a request raises its version, so equal versions mean an untouched row. */
  lemma VersionDetectsEveryWrite(db: Db, calls: seq<Call>, rid: Id)
    requires Reachable(db) && rid < |db.requests|
    ensures rid < |Run(db, calls).requests|
    ensures db.requests[rid].version <= Run(db, calls).requests[rid].version
    ensures db.requests[rid].version == Run(db, calls).requests[rid].version
            ==> db.requests[rid] == Run(db, calls).requests[rid]
  {
    ReachableIsOrdered(db);
    RunKeeps(db, calls);
    assert RequestEvolves(db.requests[rid], Run(db, calls).requests[rid]);
  }

  /** The delivery machine and the request machine stay coupled, now and in every later state. */
  lemma DeliveryStaysCoupled(db: Db, calls: seq<Call>, jid: Id)
    requires Reachable(db) && jid < |db.jobs|
    ensures var job := db.jobs[jid];
            && job.request < |db.requests|
            && (job.status != Unassigned ==>
                  && job.courier.Some?
                  && db.requests[job.request].status !in {Searching, Offered}
                  && jid < |Run(db, calls).jobs|
                  && Run(db, calls).jobs[jid].courier == job.courier)
            && (job.status in {PickedUp, InTransit} ==> db.requests[job.request].status in {InProgress, Completed, Cancelled})
            && (job.status in {Delivered, Aborted} ==> db.requests[job.request].status in {Completed, Cancelled})
  {
    ReachableIsOrdered(db);
    RunKeeps(db, calls);
    assert JobOk(db.requests, db.jobs[jid]) && JobEvolves(db.jobs[jid], Run(db, calls).jobs[jid]);
  }

  /** The request machine: every edge that some writer may take. */
  predicate IsEdge(a: RequestStatus, b: RequestStatus) {
    a == b || match a
              case Searching => b in {Offered, Accepted, Cancelled}
              case Offered => b in {Searching, Accepted, Cancelled}
              case Accepted => b in {InProgress, Cancelled}
              case InProgress => b in {Completed, Cancelled}
              case _ => false
  }

  ghost predicate FollowsEdges(a: seq<Request>, b: seq<Request>) {
    |a| <= |b| && forall i :: 0 <= i < |a| ==> IsEdge(a[i].status, b[i].status)
  }

  lemma DispatchFollows(db: Db, rid: Id, ranked: seq<Id>, size: nat, now: int)
    ensures FollowsEdges(db.requests, DispatchWave(db, rid, ranked, size, now).db.requests)
  {
  }

  lemma DeliveryFollows(db: Db, jid: Id, courier: Id, target: JobStatus)
    requires Inv(db)
    ensures FollowsEdges(db.requests, TransitionDelivery(db, jid, courier, target).db.requests)
  {
    if jid < |db.jobs| { assert JobOk(db.requests, db.jobs[jid]); }
  }

  lemma ReassignFollows(db: Db, rid: Id, ranked: seq<Id>, size: nat, now: int, swept: nat, checked: nat)
    ensures FollowsEdges(db.requests, Reassign(db, rid, ranked, size, now, swept, checked).db.requests)
  {
    var db1 := ExpireOffers(db, Some(rid), now, swept).db;
    if rid < |db.requests| && db.requests[rid].status == Offered {
      DispatchFollows(WithStatus(db1, rid, Searching), rid, ranked, size, now);
    }
  }

  lemma CreateJobFollows(db: Db, order: Id, owner: Id, ranked: seq<Id>, now: int)
    ensures FollowsEdges(db.requests, CreateJob(db, order, owner, ranked, now).db.requests)
  {
    var rid := |db.requests|;
    var db1 := db.(requests := db.requests + [Request(owner, Searching, None, 1)],
                   jobs := db.jobs + [Job(rid, order, None, Unassigned, false, [Created])]);
    DispatchFollows(db1, rid, ranked, WAVE_SIZE, now);
  }

  lemma AcceptFollows(db: Db, now: int, oid: Id, pid: Id, visible: nat)
    ensures FollowsEdges(db.requests, AcceptOffer(db, now, oid, pid, visible).db.requests)
  {
  }

  lemma OperationFollows(db: Db, op: Op)
    requires Inv(db)
    ensures FollowsEdges(db.requests, Execute(db, op).db.requests)
  {
    match op
    case OpAccept(now, oid, pid, visible) => AcceptFollows(db, now, oid, pid, visible);
    case OpDispatch(rid, ranked, size, now) => DispatchFollows(db, rid, ranked, size, now);
    case OpReassign(rid, ranked, size, now, swept, checked) => ReassignFollows(db, rid, ranked, size, now, swept, checked);
    case OpCreateJob(order, owner, ranked, now) => CreateJobFollows(db, order, owner, ranked, now);
    case OpDeliver(jid, courier, stage) => DeliveryFollows(db, jid, courier, stage);
    case _ =>
  }

  /** Whoever writes, a request only moves along the edges of its machine: it is accepted from
      searching or offered, starts only when accepted and completes only once in progress, also
      when it is a courier's delivery that completes it. */
  lemma RequestsFollowTheirMachine(db: Db, call: Call)
    requires Reachable(db)
    ensures FollowsEdges(db.requests, Commit(db, call).requests)
  {
    ReachableIsOrdered(db);
    OperationFollows(db, call.op);
  }

  // ----- the story of a delivered job -----

  function Proofs(n: nat): seq<JobEvent> {
    seq(n, i => ProofRecorded)
  }

  const TO_TRANSIT := [Created, Moved(Assigned), Moved(AtPickup), Moved(PickedUp), Moved(InTransit)]

  ghost predicate InTransitLog(log: seq<JobEvent>, n: nat) {
    log == TO_TRANSIT + Proofs(n)
  }

  lemma Unlog(log: seq<JobEvent>)
    requires |log| > 1 && Stage(log).Some?
    ensures var e, before := log[|log| - 1], log[..|log| - 1];
            && log == before + [e] && Stage(before).Some?
            && (e.ProofRecorded? ==> Stage(before) == Some(InTransit) && Stage(log) == Some(InTransit))
            && (e.Moved? ==> Stage(log) == Some(e.to) && e.to in JobSuccessors(Stage(before).value))
            && !e.Created?
  {
  }

  /** Up to pick-up the log is the prefix of stages; in transit it may be followed by proofs. */
  lemma {:induction false} LogUpTo(log: seq<JobEvent>)
    requires Stage(log).Some? && Stage(log).value !in {Delivered, Failed, Aborted}
    ensures Stage(log).value == Unassigned ==> log == TO_TRANSIT[..1]
    ensures Stage(log).value == Assigned ==> log == TO_TRANSIT[..2]
    ensures Stage(log).value == AtPickup ==> log == TO_TRANSIT[..3]
    ensures Stage(log).value == PickedUp ==> log == TO_TRANSIT[..4]
    ensures Stage(log).value == InTransit ==> InTransitLog(log, if |log| < 5 then 0 else |log| - 5)
    decreases |log|
  {
    if |log| > 1 {
      Unlog(log);
      var before := log[..|log| - 1];
      LogUpTo(before);
      if log[|log| - 1].ProofRecorded? {
        assert Proofs(|before| - 5) + [ProofRecorded] == Proofs(|log| - 5);
        assert TO_TRANSIT + (Proofs(|before| - 5) + [ProofRecorded]) == (TO_TRANSIT + Proofs(|before| - 5)) + [ProofRecorded];
      } else if Stage(log).value == InTransit {
        assert before == TO_TRANSIT[..4] && log == TO_TRANSIT[..4] + [Moved(InTransit)];
        assert TO_TRANSIT[..4] + [Moved(InTransit)] == TO_TRANSIT + Proofs(0);
      }
    }
  }

  /** A delivered job went through every stage in order, and at least one proof of delivery
      was recorded while it was in transit. */
  lemma DeliveredJobsStory(db: Db, jid: Id)
    requires Reachable(db) && jid < |db.jobs| && db.jobs[jid].status == Delivered
    ensures exists n: nat :: n >= 1 && db.jobs[jid].log == TO_TRANSIT + Proofs(n) + [Moved(Delivered)]
  {
    ReachableIsOrdered(db);
    var job := db.jobs[jid];
    assert JobOk(db.requests, job);
    Unlog(job.log);
    var before := job.log[..|job.log| - 1];
    assert Stage(before) == Some(InTransit);
    LogUpTo(before);
    var n := if |before| < 5 then 0 else |before| - 5;
    assert job.log == TO_TRANSIT + Proofs(n) + [Moved(Delivered)];
    var k :| 0 <= k < |job.log| && job.log[k] == ProofRecorded;
    assert 5 <= k < 5 + n;
  }

  // ----- dispatch waves -----

  /** The candidates a request has never been offered to, in ranking order. */
  function NeverOffered(offers: seq<Offer>, rid: Id, ranked: seq<Id>, seen: set<Id>): seq<Id>
    decreases |ranked|
  {
    if ranked == [] then []
    else if HasOffer(offers, rid, ranked[0]) || ranked[0] in seen then NeverOffered(offers, rid, ranked[1..], seen)
    else [ranked[0]] + NeverOffered(offers, rid, ranked[1..], seen + {ranked[0]})
  }

  function ProvidersOf(offers: seq<Offer>): seq<Id> {
    seq(|offers|, i requires 0 <= i < |offers| => offers[i].provider)
  }

  function Capped(xs: seq<Id>, room: nat): seq<Id> {
    if room <= 1 then xs[..Min(|xs|, 1)] else xs[..Min(|xs|, room)]
  }

  lemma OneIsTaken(x: Id, rest: seq<Id>, room: nat)
    ensures Capped([x] + rest, room) == if room <= 1 then [x] else [x] + Capped(rest, room - 1)
  {
    assert ([x] + rest)[..1] == [x];
    if 1 < room <= |rest| { assert ([x] + rest)[..room] == [x] + rest[..room - 1]; }
  }

  lemma ProvidersFollow(r: seq<Offer>, offers: seq<Offer>, o: Offer)
    requires |offers| < |r| && r[..|offers| + 1] == offers + [o]
    ensures ProvidersOf(r[|offers|..]) == [o.provider] + ProvidersOf(r[|offers| + 1..])
  {
    assert r[|offers|] == r[..|offers| + 1][|offers|] == o;
    assert r[|offers|..] == [o] + r[|offers| + 1..];
  }

  lemma {:induction false} SelectionIsAPrefix(
    offers0: seq<Offer>, offers: seq<Offer>, rid: Id, ranked: seq<Id>, room: nat, expires: int, seen: set<Id>)
    requires forall p :: HasOffer(offers, rid, p) <==> HasOffer(offers0, rid, p) || p in seen
    ensures var r := SelectWave(offers, rid, ranked, room, expires);
            && |r| >= |offers|
            && ProvidersOf(r[|offers|..]) == Capped(NeverOffered(offers0, rid, ranked, seen), room)
    decreases |ranked|
  {
    var r := SelectWave(offers, rid, ranked, room, expires);
    if ranked == [] {
      assert r[|offers|..] == [];
    } else if HasOffer(offers, rid, ranked[0]) {
      SelectionIsAPrefix(offers0, offers, rid, ranked[1..], room, expires, seen);
    } else {
      var o := Offer(rid, ranked[0], Pending, Some(expires), NextWave(offers, rid));
      var more := offers + [o];
      OneIsTaken(ranked[0], NeverOffered(offers0, rid, ranked[1..], seen + {ranked[0]}), room);
      ProvidersFollow(r, offers, o);
      if room <= 1 {
        assert r[|more|..] == [];
      } else {
        AppendedIsOffered(offers, o, rid);
        SelectionIsAPrefix(offers0, more, rid, ranked[1..], room - 1, expires, seen + {ranked[0]});
      }
    }
  }

  lemma AppendedIsOffered(offers: seq<Offer>, o: Offer, rid: Id)
    requires o.request == rid
    ensures forall p :: HasOffer(offers + [o], rid, p) <==> HasOffer(offers, rid, p) || p == o.provider
  {
    forall p ensures HasOffer(offers + [o], rid, p) <==> HasOffer(offers, rid, p) || p == o.provider {
      var more := offers + [o];
      assert more[|offers|] == o;
      if HasOffer(offers, rid, p) {
        var i :| 0 <= i < |offers| && offers[i].request == rid && offers[i].provider == p;
        assert more[i] == offers[i];
      }
    }
  }

  /** The offer's number is one above that of an earlier offer of its request, or the first. */
  ghost predicate Successive(r: seq<Offer>, j: Id)
    requires j < |r|
  {
    r[j].wave == 1 || exists i :: 0 <= i < j && r[i].request == r[j].request && r[i].wave == r[j].wave - 1
  }

  /** From index `start` on, the rows are pending offers of the request whose wave numbers are
      above all the request's earlier ones. */
  ghost predicate FreshWave(r: seq<Offer>, start: nat, rid: Id, expires: int) {
    && (forall j :: start <= j < |r| ==> r[j].request == rid && r[j].status == Pending && r[j].expires == Some(expires))
    && (forall i, j :: 0 <= i < j < |r| && start <= j && r[i].request == rid ==> r[i].wave < r[j].wave)
  }

  /** Each of these numbers is one above the highest before it. */
  ghost predicate Consecutive(r: seq<Offer>, start: nat) {
    forall j :: start <= j < |r| ==> Successive(r, j)
  }

  /** Wave numbers increase inside a wave as well as across waves. */
  lemma {:induction false} WaveNumbersIncrease(offers: seq<Offer>, rid: Id, ranked: seq<Id>, room: nat, expires: int)
    ensures FreshWave(SelectWave(offers, rid, ranked, room, expires), |offers|, rid, expires)
    ensures Consecutive(SelectWave(offers, rid, ranked, room, expires), |offers|)
    decreases |ranked|
  {
    var r := SelectWave(offers, rid, ranked, room, expires);
    if ranked != [] {
      if HasOffer(offers, rid, ranked[0]) {
        WaveNumbersIncrease(offers, rid, ranked[1..], room, expires);
        assert r == SelectWave(offers, rid, ranked[1..], room, expires);
      } else {
        MaxWaveIsMaximum(offers, rid);
        var more := offers + [Offer(rid, ranked[0], Pending, Some(expires), NextWave(offers, rid))];
        assert FreshWave(more, |offers|, rid, expires);
        NextIsSuccessive(offers, more, rid);
        if room > 1 {
          WaveNumbersIncrease(more, rid, ranked[1..], room - 1, expires);
          assert r == SelectWave(more, rid, ranked[1..], room - 1, expires);
          FreshWavesJoin(more, r, |offers|, rid, expires);
        }
      }
    }
  }

  lemma NextIsSuccessive(offers: seq<Offer>, more: seq<Offer>, rid: Id)
    requires |more| == |offers| + 1 && more[..|offers|] == offers
    requires more[|offers|].request == rid && more[|offers|].wave == NextWave(offers, rid)
    ensures Successive(more, |offers|)
  {
    MaxWaveIsMaximum(offers, rid);
    if MaxWave(offers, rid).Some? {
      var i :| 0 <= i < |offers| && offers[i].request == rid && offers[i].wave == MaxWave(offers, rid).value;
      assert more[i] == offers[i];
    }
  }

  lemma FreshWavesJoin(more: seq<Offer>, r: seq<Offer>, start: nat, rid: Id, expires: int)
    requires FreshWave(more, start, rid, expires) && FreshWave(r, |more|, rid, expires)
    requires Consecutive(more, start) && Consecutive(r, |more|)
    requires |more| <= |r| && r[..|more|] == more
    ensures FreshWave(r, start, rid, expires) && Consecutive(r, start)
  {
    assert forall i :: 0 <= i < |more| ==> r[i] == more[i];
    forall j | start <= j < |r| ensures Successive(r, j) {
      if j < |more| { assert Successive(more, j); }
    }
  }

  /** Nothing is written when nobody is selected; otherwise the wave is, with its attempt. */
  lemma DispatchRecords(db: Db, rid: Id, ranked: seq<Id>, size: nat, now: int)
    requires Inv(db) && rid < |db.requests|
    ensures var r := DispatchWave(db, rid, ranked, size, now);
            var offers := SelectWave(db.offers, rid, ranked, size, now + OFFER_TTL);
            && r.error.None? && r.db.offers == offers
            && (|offers| == |db.offers| ==> r.db == db)
            && (|offers| > |db.offers| ==> r.db.attempts == db.attempts + {(rid, offers[|db.offers|].wave)}
                                           && (rid, offers[|db.offers|].wave) !in db.attempts)
  {
    WaveNumberIsFresh(db, rid, ranked, size, now);
  }

  /** In every state in order, so in every reachable one, a dispatch never fails. It offers the
      request to exactly the first `size` candidates it was never offered to, with fresh
      consecutive wave numbers, and records the first of those numbers as the attempt. Nothing
      happens when there is no such candidate. */
  lemma WaveSelection(db: Db, rid: Id, ranked: seq<Id>, size: nat, now: int)
    requires Inv(db) && rid < |db.requests|
    ensures var r := DispatchWave(db, rid, ranked, size, now);
            var picked := Capped(NeverOffered(db.offers, rid, ranked, {}), size);
            && r.error.None?
            && |r.db.offers| == |db.offers| + |picked|
            && r.db.offers[..|db.offers|] == db.offers
            && ProvidersOf(r.db.offers[|db.offers|..]) == picked
            && FreshWave(r.db.offers, |db.offers|, rid, now + OFFER_TTL) && Consecutive(r.db.offers, |db.offers|)
            && (picked == [] ==> r.db == db)
            && (picked != [] ==> r.db.attempts == db.attempts + {(rid, r.db.offers[|db.offers|].wave)}
                                 && (rid, r.db.offers[|db.offers|].wave) !in db.attempts)
  {
    DispatchRecords(db, rid, ranked, size, now);
    SelectionIsAPrefix(db.offers, db.offers, rid, ranked, size, now + OFFER_TTL, {});
    WaveNumbersIncrease(db.offers, rid, ranked, size, now + OFFER_TTL);
    var offers := DispatchWave(db, rid, ranked, size, now).db.offers;
    assert |ProvidersOf(offers[|db.offers|..])| == |offers| - |db.offers|;
  }

  // ----- wave numbers over whole runs -----

  /** An offer's number is the column's default or above all the request's earlier ones. */
  ghost predicate NumberOk(offers: seq<Offer>, j: Id)
    requires j < |offers|
  {
    offers[j].wave == 1 || forall i :: 0 <= i < j && offers[i].request == offers[j].request ==> offers[i].wave < offers[j].wave
  }

  ghost predicate NumbersOk(offers: seq<Offer>) {
    forall j :: 0 <= j < |offers| ==> NumberOk(offers, j)
  }

  lemma NumbersMove(a: seq<Offer>, b: seq<Offer>)
    requires NumbersOk(a) && OffersEvolve(a, b)
    requires forall j :: |a| <= j < |b| ==> NumberOk(b, j)
    ensures NumbersOk(b)
  {
    forall j | 0 <= j < |b| ensures NumberOk(b, j) {
      if j < |a| {
        assert NumberOk(a, j);
        assert forall i :: 0 <= i <= j ==> OfferEvolves(a[i], b[i]);
      }
    }
  }

  lemma {:induction false} InsertsDefaults(offers: seq<Offer>, rid: Id, found: seq<Id>, expires: int)
    ensures var r := InsertOffers(offers, rid, found, expires);
            offers <= r && forall j :: |offers| <= j < |r| ==> r[j].wave == 1
    decreases |found|
  {
    if found != [] {
      var more := if HasOffer(offers, rid, found[0]) then offers else offers + [Offer(rid, found[0], Pending, Some(expires), 1)];
      InsertsDefaults(more, rid, found[1..], expires);
      var r := InsertOffers(more, rid, found[1..], expires);
      assert |offers| < |more| ==> r[|offers|] == more[|offers|];
    }
  }

  lemma DispatchNumbers(db: Db, rid: Id, ranked: seq<Id>, size: nat, now: int)
    requires NumbersOk(db.offers)
    ensures NumbersOk(DispatchWave(db, rid, ranked, size, now).db.offers)
  {
    var r := SelectWave(db.offers, rid, ranked, size, now + OFFER_TTL);
    WaveNumbersIncrease(db.offers, rid, ranked, size, now + OFFER_TTL);
    forall i | 0 <= i < |db.offers| ensures r[i] == db.offers[i] { assert r[..|db.offers|][i] == r[i]; }
    forall j | |db.offers| <= j < |r| ensures NumberOk(r, j) { assert r[j].request == rid; }
    NumbersMove(db.offers, r);
  }

  lemma ReassignNumbers(db: Db, rid: Id, ranked: seq<Id>, size: nat, now: int, swept: nat, checked: nat)
    requires NumbersOk(db.offers)
    ensures NumbersOk(Reassign(db, rid, ranked, size, now, swept, checked).db.offers)
  {
    var db1 := ExpireOffers(db, Some(rid), now, swept).db;
    NumbersMove(db.offers, db1.offers);
    if rid < |db1.requests| { DispatchNumbers(WithStatus(db1, rid, Searching), rid, ranked, size, now); }
  }

  predicate AddsOffers(op: Op) {
    op.OpCreateOffers? || op.OpDispatch? || op.OpReassign? || op.OpCreateJob?
  }

  lemma OthersAddNone(db: Db, op: Op)
    requires !AddsOffers(op)
    ensures |Execute(db, op).db.offers| == |db.offers|
  {
  }

  lemma ExecuteNumbers(db: Db, op: Op)
    requires Inv(db) && NumbersOk(db.offers)
    ensures NumbersOk(Execute(db, op).db.offers)
  {
    match op
    case OpCreateOffers(rid, found, now) =>
      ExecuteKeeps(db, op);
      InsertsDefaults(db.offers, rid, found, now + OFFER_TTL);
      NumbersMove(db.offers, Execute(db, op).db.offers);
    case OpDispatch(rid, ranked, size, now) => DispatchNumbers(db, rid, ranked, size, now);
    case OpReassign(rid, ranked, size, now, swept, checked) => ReassignNumbers(db, rid, ranked, size, now, swept, checked);
    case OpCreateJob(order, owner, ranked, now) =>
      var db1 := db.(requests := db.requests + [Request(owner, Searching, None, 1)],
                     jobs := db.jobs + [Job(|db.requests|, order, None, Unassigned, false, [Created])]);
      DispatchNumbers(db1, |db.requests|, ranked, WAVE_SIZE, now);
    case _ =>
      ExecuteKeeps(db, op);
      OthersAddNone(db, op);
      NumbersMove(db.offers, Execute(db, op).db.offers);
  }

  lemma {:induction false} RunNumbers(db: Db, calls: seq<Call>)
    requires Inv(db) && NumbersOk(db.offers)
    ensures NumbersOk(Run(db, calls).offers)
    decreases |calls|
  {
    if calls != [] {
      ExecuteKeeps(db, calls[0].op);
      ExecuteNumbers(db, calls[0].op);
      RunNumbers(Commit(db, calls[0]), calls[1..]);
    }
  }

  ghost predicate NumbersIncrease(offers: seq<Offer>, rid: Id) {
    forall i, j :: 0 <= i < j < |offers| && offers[i].request == rid && offers[j].request == rid ==> offers[i].wave < offers[j].wave
  }

  ghost predicate DefaultOnlyFirst(offers: seq<Offer>, rid: Id) {
    forall i, j :: 0 <= i < j < |offers| && offers[i].request == rid && offers[j].request == rid ==> offers[j].wave != 1
  }

  /** In every reachable state a request's wave numbers increase from offer to offer exactly
      when none of its offers but the first carries the column's default. */
  lemma NumbersIncreaseWhen(db: Db, rid: Id)
    requires Reachable(db)
    ensures NumbersIncrease(db.offers, rid) <==> DefaultOnlyFirst(db.offers, rid)
  {
    ReachableIsOrdered(db);
    var calls :| db == Run(EmptyDb, calls);
    RunNumbers(EmptyDb, calls);
    forall i, j | 0 <= i < j < |db.offers| && db.offers[i].request == rid && db.offers[j].request == rid
      ensures db.offers[i].wave < db.offers[j].wave <==> db.offers[j].wave != 1
    {
      assert NumberOk(db.offers, j) && OfferOk(db.requests, db.offers[i]);
    }
  }

  /** What a dispatch numbers stays above everything offered before it, whatever happens later. */
  lemma DispatchedStayAbove(db: Db, rid: Id, ranked: seq<Id>, size: nat, now: int, calls: seq<Call>, i: Id, j: Id)
    requires Reachable(db) && rid < |db.requests|
    requires var sent := DispatchWave(db, rid, ranked, size, now).db.offers;
             i < j < |sent| && |db.offers| <= j && sent[i].request == rid
    ensures var later := Run(DispatchWave(db, rid, ranked, size, now).db, calls).offers;
            j < |later| && later[i].request == rid == later[j].request && later[i].wave < later[j].wave
  {
    ReachableIsOrdered(db);
    DispatchKeeps(db, rid, ranked, size, now);
    WaveSelection(db, rid, ranked, size, now);
    var sent := DispatchWave(db, rid, ranked, size, now).db;
    RunKeeps(sent, calls);
    var later := Run(sent, calls);
    assert OfferEvolves(sent.offers[i], later.offers[i]) && OfferEvolves(sent.offers[j], later.offers[j]);
  }

  /** Two dispatches computed from the same tables record the same attempt, whomever they
      select: if the service let them overlap, the unique index would refuse the second. */
  lemma OverlappingDispatchesClash(db: Db, rid: Id, a: seq<Id>, b: seq<Id>, sizeA: nat, sizeB: nat, now: int, later: int)
    requires Inv(db) && rid < |db.requests|
    requires |DispatchWave(db, rid, a, sizeA, now).db.offers| > |db.offers|
    requires |DispatchWave(db, rid, b, sizeB, later).db.offers| > |db.offers|
    ensures exists wave :: (rid, wave) !in db.attempts
                           && DispatchWave(db, rid, a, sizeA, now).db.attempts == db.attempts + {(rid, wave)}
                           && DispatchWave(db, rid, b, sizeB, later).db.attempts == db.attempts + {(rid, wave)}
  {
    WaveNumberIsFresh(db, rid, a, sizeA, now);
    WaveNumberIsFresh(db, rid, b, sizeB, later);
    FirstOfWave(db.offers, rid, a, sizeA, now + OFFER_TTL);
    FirstOfWave(db.offers, rid, b, sizeB, later + OFFER_TTL);
    assert (rid, NextWave(db.offers, rid)) !in db.attempts;
  }

  lemma TwoCalls(a: Call, b: Call)
    ensures Run(EmptyDb, [a, b]) == Commit(Commit(EmptyDb, a), b)
  {
    assert [a, b][1..] == [b] && [b][1..] == [];
    assert Run(Commit(Commit(EmptyDb, a), b), []) == Commit(Commit(EmptyDb, a), b);
    assert Run(Commit(EmptyDb, a), [b]) == Commit(Commit(EmptyDb, a), b);
  }

  lemma InsertTwo(expires: int)
    ensures InsertOffers([], 0, [0, 1], expires) == [Offer(0, 0, Pending, Some(expires), 1), Offer(0, 1, Pending, Some(expires), 1)]
  {
    var one := [Offer(0, 0, Pending, Some(expires), 1)];
    assert [0, 1][1..] == [1] && [1][1..] == [];
    assert InsertOffers(one, 0, [1], expires) == InsertOffers(one + [Offer(0, 1, Pending, Some(expires), 1)], 0, [], expires);
    assert InsertOffers([], 0, [0, 1], expires) == InsertOffers([] + one, 0, [1], expires);
  }

  /** The offers of one create_offers call all carry the default. */
  lemma DefaultNumbersRepeat()
    ensures exists db :: Reachable(db) && |db.offers| == 2 && db.offers[0].request == db.offers[1].request
                         && db.offers[0].wave == db.offers[1].wave
  {
    var a, b := Call(OpPostRequest(0, false), false), Call(OpCreateOffers(0, [0, 1], 0), false);
    TwoCalls(a, b);
    InsertTwo(OFFER_TTL);
    var posted := Commit(EmptyDb, a);
    assert posted.requests == [Request(0, Searching, None, 1)] && posted.offers == [];
    assert Commit(posted, b).offers == InsertOffers([], 0, [0, 1], OFFER_TTL);
    assert Reachable(Commit(posted, b));
  }

  lemma {:induction false} SameHistorySameCandidates(a: seq<Offer>, b: seq<Offer>, rid: Id, ranked: seq<Id>, seen: set<Id>)
    requires forall p :: HasOffer(a, rid, p) <==> HasOffer(b, rid, p)
    ensures NeverOffered(a, rid, ranked, seen) == NeverOffered(b, rid, ranked, seen)
    decreases |ranked|
  {
    if ranked != [] {
      SameHistorySameCandidates(a, b, rid, ranked[1..], seen);
      SameHistorySameCandidates(a, b, rid, ranked[1..], seen + {ranked[0]});
    }
  }

  lemma LapsingKeepsTheRest(offers: seq<Offer>, rid: Id, now: int)
    ensures var after := LapsedOffers(offers, Some(rid), now, |offers|);
            && (forall p :: HasOffer(after, rid, p) <==> HasOffer(offers, rid, p))
            && (HasLiveOffer(after, rid, now, |offers|) <==> HasLiveOffer(offers, rid, now, |offers|))
            && (!HasLiveOffer(offers, rid, now, |offers|) ==>
                 forall i :: 0 <= i < |offers| && offers[i].request == rid && offers[i].expires.Some? ==> after[i].status != Pending)
  {
    var after := LapsedOffers(offers, Some(rid), now, |offers|);
    forall p ensures HasOffer(after, rid, p) <==> HasOffer(offers, rid, p) {
      if HasOffer(offers, rid, p) {
        var i :| 0 <= i < |offers| && offers[i].request == rid && offers[i].provider == p;
        assert after[i].request == rid && after[i].provider == p;
      }
    }
    if HasLiveOffer(offers, rid, now, |offers|) {
      var i :| 0 <= i < |offers| && offers[i].request == rid && offers[i].status == Pending
               && offers[i].expires.Some? && offers[i].expires.value > now;
      assert after[i] == offers[i];
    }
  }

  /** Reassigning an offered request lapses exactly its overdue offers. If a live offer remains
      nothing else happens; if none does, the first never-offered candidates get a new wave, and
      the request goes back to searching when there are no such candidates. */
  lemma ReassignSendsOrSearches(db: Db, rid: Id, ranked: seq<Id>, size: nat, now: int)
    requires Reachable(db) && rid < |db.requests| && db.requests[rid].status == Offered
    ensures var n := |db.offers|;
            var r := Reassign(db, rid, ranked, size, now, n, n);
            var picked := Capped(NeverOffered(db.offers, rid, ranked, {}), size);
            && r.error.None? && |r.db.offers| >= n
            && (forall i :: 0 <= i < n ==>
                 r.db.offers[i] == if IsLapsed(db.offers[i], Some(rid), now) then db.offers[i].(status := Lapsed) else db.offers[i])
            && if HasLiveOffer(db.offers, rid, now, n) then r.db.requests == db.requests && |r.db.offers| == n
               else
                 && ProvidersOf(r.db.offers[n..]) == picked
                 && r.db.requests[rid].status == (if picked == [] then Searching else Offered)
                 && (forall i :: 0 <= i < n && db.offers[i].request == rid && db.offers[i].expires.Some?
                      ==> r.db.offers[i].status != Pending)
  {
    ReachableIsOrdered(db);
    var n := |db.offers|;
    var db1 := ExpireOffers(db, Some(rid), now, n).db;
    ExpireKeeps(db, Some(rid), now, n);
    LapsingKeepsTheRest(db.offers, rid, now);
    if !HasLiveOffer(db.offers, rid, now, n) {
      assert RequestOk(db1.requests[rid]);
      StatusMove(db1, rid, Searching);
      SameHistorySameCandidates(db.offers, db1.offers, rid, ranked, {});
      var db2 := WithStatus(db1, rid, Searching);
      WaveSelection(db2, rid, ranked, size, now);
      var after := DispatchWave(db2, rid, ranked, size, now).db;
      assert after.offers[..n] == db1.offers;
      forall i | 0 <= i < n ensures after.offers[i] == db1.offers[i] { assert after.offers[..n][i] == db1.offers[i]; }
    }
  }

  /** A request is sent out in at most as many waves as there are providers it was offered to. */
  lemma WavesAreBounded(db: Db, rid: Id, waves: set<int>, pool: set<Id>)
    requires Reachable(db)
    requires forall w :: w in waves ==> (rid, w) in db.attempts
    requires forall i :: 0 <= i < |db.offers| && db.offers[i].request == rid ==> db.offers[i].provider in pool
    ensures |waves| <= |pool|
  {
    ReachableIsOrdered(db);
    var f := (w: int) => ProviderOfWave(db.offers, rid, w);
    forall w | w in waves ensures f(w) in pool && WaveUsed(db.offers, rid, w) {
      assert (rid, w) in db.attempts;
    }
    forall v, w | v in waves && w in waves && f(v) == f(w) ensures v == w {
      assert WaveUsed(db.offers, rid, v) && WaveUsed(db.offers, rid, w);
      var i, j := FirstOfferOf(db.offers, rid, v), FirstOfferOf(db.offers, rid, w);
      assert i == j;
    }
    InjectionBound(waves, pool, f);
  }

  /** Some offer of the request that carries the wave number. */
  ghost function FirstOfferOf(offers: seq<Offer>, rid: Id, wave: int): (i: Id)
    requires WaveUsed(offers, rid, wave)
    ensures i < |offers| && offers[i].request == rid && offers[i].wave == wave
  {
    var i :| 0 <= i < |offers| && offers[i].request == rid && offers[i].wave == wave; i
  }

  ghost function ProviderOfWave(offers: seq<Offer>, rid: Id, wave: int): Id {
    if WaveUsed(offers, rid, wave) then offers[FirstOfferOf(offers, rid, wave)].provider else 0
  }
}
