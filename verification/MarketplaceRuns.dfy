/** What every operation of the marketplace keeps, and therefore what every run keeps. */
module MarketplaceRuns {
  import opened Prelude
  import opened Marketplace

  // ----- the one-state invariant -----

  ghost predicate RequestOk(r: Request) {
    && (r.status in {Open, Searching, Offered} ==> r.provider.None?)
    && (r.status in {Accepted, InProgress, Completed} ==> r.provider.Some?)
  }

  ghost predicate OfferOk(requests: seq<Request>, o: Offer) {
    && o.request < |requests|
    && o.wave >= 1
    && (o.status == Awarded ==> requests[o.request].provider == Some(o.provider))
  }

  /** One offer per request and provider. */
  ghost predicate PairsUnique(offers: seq<Offer>) {
    forall i, j :: 0 <= i < j < |offers| && offers[i].request == offers[j].request
      ==> offers[i].provider != offers[j].provider
  }

  /** Reads a job's event log back into the stage it leaves the job in. */
  function Stage(log: seq<JobEvent>): Option<JobStatus> {
    if log == [] then None
    else if |log| == 1 then (if log[0] == Created then Some(Unassigned) else None)
    else
      var before := Stage(log[..|log| - 1]);
      match log[|log| - 1]
      case Created => None
      case ProofRecorded => if before == Some(InTransit) then before else None
      case Moved(s) => if before.Some? && s in JobSuccessors(before.value) then Some(s) else None
  }

  ghost predicate JobOk(requests: seq<Request>, j: Job) {
    && j.request < |requests|
    && requests[j.request].status != Open
    && (j.status == Unassigned <==> j.courier.None?)
    && (j.status != Unassigned ==> requests[j.request].status !in {Searching, Offered})
    && (j.status in {PickedUp, InTransit} ==> requests[j.request].status in {InProgress, Completed, Cancelled})
    && (j.status in {Delivered, Aborted} ==> requests[j.request].status in {Completed, Cancelled})
    && Stage(j.log) == Some(j.status)
    && (j.proof <==> ProofRecorded in j.log)
    && (j.status == Delivered ==> j.proof)
  }

  ghost predicate JobsUnique(jobs: seq<Job>) {
    forall i, j :: 0 <= i < j < |jobs| ==> jobs[i].request != jobs[j].request && jobs[i].order != jobs[j].order
  }

  /** Every recorded wave number is the wave of one of the request's offers. */
  ghost predicate WaveUsed(offers: seq<Offer>, rid: Id, wave: int) {
    exists i :: 0 <= i < |offers| && offers[i].request == rid && offers[i].wave == wave
  }

  ghost predicate Inv(db: Db) {
    && (forall i :: 0 <= i < |db.requests| ==> RequestOk(db.requests[i]))
    && (forall i :: 0 <= i < |db.offers| ==> OfferOk(db.requests, db.offers[i]))
    && PairsUnique(db.offers)
    && (forall i :: 0 <= i < |db.jobs| ==> JobOk(db.requests, db.jobs[i]))
    && JobsUnique(db.jobs)
    && (forall a :: a in db.attempts ==> WaveUsed(db.offers, a.0, a.1))
  }

  // ----- the two-state invariant: how a row may evolve -----

  ghost predicate RequestEvolves(a: Request, b: Request) {
    && a.owner == b.owner
    && a.version <= b.version
    && (a.version == b.version ==> a == b)
    && (a.provider.Some? ==> b.provider == a.provider)
    && (a.status in {Completed, Cancelled} ==> a == b)
    && (a.status == Open <==> b.status == Open)
    && (b.status in {Searching, Offered} ==> a.status in {Searching, Offered})
  }

  ghost predicate OfferEvolves(a: Offer, b: Offer) {
    && b == a.(status := b.status)
    && (a.status != Pending ==> a == b)
  }

  ghost predicate JobEvolves(a: Job, b: Job) {
    && a.request == b.request && a.order == b.order
    && (a.courier.Some? ==> b.courier == a.courier)
    && a.log <= b.log
    && (a.status in {Delivered, Failed, Aborted} ==> a == b)
  }

  ghost predicate RequestsEvolve(a: seq<Request>, b: seq<Request>) {
    |a| <= |b| && forall i :: 0 <= i < |a| ==> RequestEvolves(a[i], b[i])
  }

  ghost predicate OffersEvolve(a: seq<Offer>, b: seq<Offer>) {
    |a| <= |b| && forall i :: 0 <= i < |a| ==> OfferEvolves(a[i], b[i])
  }

  ghost predicate JobsEvolve(a: seq<Job>, b: seq<Job>) {
    |a| <= |b| && forall i :: 0 <= i < |a| ==> JobEvolves(a[i], b[i])
  }

  ghost predicate Evolves(a: Db, b: Db) {
    && RequestsEvolve(a.requests, b.requests)
    && OffersEvolve(a.offers, b.offers)
    && JobsEvolve(a.jobs, b.jobs)
    && a.attempts <= b.attempts
  }

  lemma EvolvesTransitively(a: Db, b: Db, c: Db)
    requires Evolves(a, b) && Evolves(b, c)
    ensures Evolves(a, c)
  {
    forall i | 0 <= i < |a.requests| ensures RequestEvolves(a.requests[i], c.requests[i]) {
      assert RequestEvolves(a.requests[i], b.requests[i]) && RequestEvolves(b.requests[i], c.requests[i]);
    }
    forall i | 0 <= i < |a.offers| ensures OfferEvolves(a.offers[i], c.offers[i]) {
      assert OfferEvolves(a.offers[i], b.offers[i]) && OfferEvolves(b.offers[i], c.offers[i]);
    }
    forall i | 0 <= i < |a.jobs| ensures JobEvolves(a.jobs[i], c.jobs[i]) {
      assert JobEvolves(a.jobs[i], b.jobs[i]) && JobEvolves(b.jobs[i], c.jobs[i]);
    }
  }

  // ----- request rows: what the other tables need of them -----

  /** A request row may change this way without disturbing its offers or its job. */
  ghost predicate RequestStep(a: Request, b: Request) {
    && RequestOk(b)
    && RequestEvolves(a, b)
    && (a.status in {Completed, Cancelled} ==> b.status in {Completed, Cancelled})
    && (a.status == InProgress ==> b.status in {InProgress, Completed, Cancelled})
  }

  /** Offers and jobs stay in order when request rows move by RequestStep. */
  lemma RequestsMove(db: Db, requests: seq<Request>)
    requires Inv(db)
    requires |db.requests| <= |requests|
    requires forall i :: 0 <= i < |db.requests| ==> RequestStep(db.requests[i], requests[i])
    requires forall i :: |db.requests| <= i < |requests| ==> RequestOk(requests[i])
    ensures Inv(db.(requests := requests)) && Evolves(db, db.(requests := requests))
  {
    forall i | 0 <= i < |db.offers| ensures OfferOk(requests, db.offers[i]) {
      assert OfferOk(db.requests, db.offers[i]);
      assert RequestStep(db.requests[db.offers[i].request], requests[db.offers[i].request]);
    }
    forall i | 0 <= i < |db.jobs| ensures JobOk(requests, db.jobs[i]) {
      assert JobOk(db.requests, db.jobs[i]);
      assert RequestStep(db.requests[db.jobs[i].request], requests[db.jobs[i].request]);
    }
    forall i | 0 <= i < |db.requests| ensures RequestEvolves(db.requests[i], requests[i]) {
      assert RequestStep(db.requests[i], requests[i]);
    }
  }

  lemma StatusMove(db: Db, rid: Id, status: RequestStatus)
    requires Inv(db) && rid < |db.requests|
    requires var r := db.requests[rid]; RequestStep(r, r.(status := status, version := r.version + 1))
    ensures Inv(WithStatus(db, rid, status)) && Evolves(db, WithStatus(db, rid, status))
  {
    RequestsMove(db, WithStatus(db, rid, status).requests);
  }

  lemma ProviderMove(db: Db, rid: Id, provider: Id)
    requires Inv(db) && rid < |db.requests| && db.requests[rid].status in {Searching, Offered}
    ensures Inv(WithProvider(db, rid, provider)) && Evolves(db, WithProvider(db, rid, provider))
  {
    RequestsMove(db, WithProvider(db, rid, provider).requests);
  }

  // ----- offers -----

  /** Offer rows may leave `pending` without being awarded, and new pending rows may follow. */
  lemma OffersMove(db: Db, offers: seq<Offer>)
    requires Inv(db) && OffersEvolve(db.offers, offers)
    requires forall i :: 0 <= i < |db.offers| && db.offers[i].status == Pending ==> offers[i].status != Awarded
    requires forall i :: |db.offers| <= i < |offers| ==> OfferOk(db.requests, offers[i])
    requires PairsUnique(offers)
    ensures Inv(db.(offers := offers)) && Evolves(db, db.(offers := offers))
  {
    forall i | 0 <= i < |offers| ensures OfferOk(db.requests, offers[i]) {
      if i < |db.offers| {
        assert OfferOk(db.requests, db.offers[i]) && OfferEvolves(db.offers[i], offers[i]);
      }
    }
    forall a | a in db.attempts ensures WaveUsed(offers, a.0, a.1) {
      var i :| 0 <= i < |db.offers| && db.offers[i].request == a.0 && db.offers[i].wave == a.1;
      assert OfferEvolves(db.offers[i], offers[i]);
    }
    forall i | 0 <= i < |db.requests| ensures RequestEvolves(db.requests[i], db.requests[i]) {}
  }

  lemma PairsKept(a: seq<Offer>, b: seq<Offer>)
    requires PairsUnique(a) && OffersEvolve(a, b) && |a| == |b|
    ensures PairsUnique(b)
  {
    forall i, j | 0 <= i < j < |b| && b[i].request == b[j].request ensures b[i].provider != b[j].provider {
      assert OfferEvolves(a[i], b[i]) && OfferEvolves(a[j], b[j]);
    }
  }

  lemma AwardKeeps(db: Db, oid: Id, visible: nat)
    requires Inv(db) && oid < |db.offers| && db.offers[oid].status == Pending
    requires db.requests[db.offers[oid].request].status in {Searching, Offered}
    ensures var o := db.offers[oid];
            var db' := WithProvider(db.(offers := AwardedOffers(db.offers, oid, visible)), o.request, o.provider);
            Inv(db') && Evolves(db, db')
  {
    var o := db.offers[oid];
    var db1 := WithProvider(db, o.request, o.provider);
    ProviderMove(db, o.request, o.provider);
    var offers := AwardedOffers(db.offers, oid, visible);
    assert OffersEvolve(db.offers, offers);
    PairsKept(db.offers, offers);
    forall i | 0 <= i < |offers| ensures OfferOk(db1.requests, offers[i]) {
      assert OfferOk(db1.requests, db1.offers[i]);
    }
    forall a | a in db.attempts ensures WaveUsed(offers, a.0, a.1) {
      var i :| 0 <= i < |db.offers| && db.offers[i].request == a.0 && db.offers[i].wave == a.1;
      assert offers[i].request == a.0 && offers[i].wave == a.1;
    }
  }

  /** Offers appended for a request whose rows they do not repeat. */
  ghost predicate Grown(a: seq<Offer>, b: seq<Offer>, rid: Id) {
    && |a| <= |b| && b[..|a|] == a
    && PairsUnique(b)
    && forall i :: |a| <= i < |b| ==> b[i].request == rid && b[i].status == Pending && b[i].wave >= 1
  }

  lemma OneMore(a: seq<Offer>, b: seq<Offer>, o: Offer)
    requires Grown(a, b, o.request) && !HasOffer(b, o.request, o.provider)
    requires o.status == Pending && o.wave >= 1
    ensures Grown(a, b + [o], o.request)
  {
  }

  lemma {:induction false} InsertGrows(offers0: seq<Offer>, offers: seq<Offer>, rid: Id, found: seq<Id>, expires: int)
    requires Grown(offers0, offers, rid)
    ensures Grown(offers0, InsertOffers(offers, rid, found, expires), rid)
    decreases |found|
  {
    if found != [] {
      if HasOffer(offers, rid, found[0]) {
        InsertGrows(offers0, offers, rid, found[1..], expires);
      } else {
        var o := Offer(rid, found[0], Pending, Some(expires), 1);
        OneMore(offers0, offers, o);
        InsertGrows(offers0, offers + [o], rid, found[1..], expires);
      }
    }
  }

  ghost predicate WavesPositive(offers: seq<Offer>) {
    forall i :: 0 <= i < |offers| ==> offers[i].wave >= 1
  }

  /** The recorded maximum bounds every wave of the request and is one of them. */
  lemma {:induction false} MaxWaveIsMaximum(offers: seq<Offer>, rid: Id)
    ensures forall i :: 0 <= i < |offers| && offers[i].request == rid ==> offers[i].wave < NextWave(offers, rid)
    ensures MaxWave(offers, rid).Some? <==> exists i :: 0 <= i < |offers| && offers[i].request == rid
    ensures MaxWave(offers, rid).Some? ==> WaveUsed(offers, rid, MaxWave(offers, rid).value)
  {
    if offers != [] {
      var n := |offers| - 1;
      MaxWaveIsMaximum(offers[..n], rid);
      if MaxWave(offers[..n], rid).Some? {
        var i :| 0 <= i < n && offers[..n][i].request == rid && offers[..n][i].wave == MaxWave(offers[..n], rid).value;
        assert offers[i].request == rid && offers[i].wave == offers[..n][i].wave;
      }
      forall i | 0 <= i < |offers| && offers[i].request == rid ensures offers[i].wave < NextWave(offers, rid) {
        if i < n { assert offers[..n][i] == offers[i]; }
      }
    }
  }

  lemma NextWavePositive(offers: seq<Offer>, rid: Id)
    requires WavesPositive(offers)
    ensures NextWave(offers, rid) >= 1
  {
    MaxWaveIsMaximum(offers, rid);
  }

  lemma {:induction false} SelectGrows(offers0: seq<Offer>, offers: seq<Offer>, rid: Id, ranked: seq<Id>, room: nat, expires: int)
    requires Grown(offers0, offers, rid) && WavesPositive(offers)
    ensures Grown(offers0, SelectWave(offers, rid, ranked, room, expires), rid)
    decreases |ranked|
  {
    if ranked != [] {
      if HasOffer(offers, rid, ranked[0]) {
        SelectGrows(offers0, offers, rid, ranked[1..], room, expires);
      } else {
        NextWavePositive(offers, rid);
        var o := Offer(rid, ranked[0], Pending, Some(expires), NextWave(offers, rid));
        OneMore(offers0, offers, o);
        if room > 1 { SelectGrows(offers0, offers + [o], rid, ranked[1..], room - 1, expires); }
      }
    }
  }

  /** The first offer a wave appends carries a number above every earlier one of the request. */
  lemma {:induction false} FirstOfWave(offers: seq<Offer>, rid: Id, ranked: seq<Id>, room: nat, expires: int)
    ensures var r := SelectWave(offers, rid, ranked, room, expires);
            |r| > |offers| ==> r[|offers|].wave == NextWave(offers, rid)
    decreases |ranked|
  {
    if ranked != [] {
      if HasOffer(offers, rid, ranked[0]) {
        FirstOfWave(offers, rid, ranked[1..], room, expires);
      } else {
        var more := offers + [Offer(rid, ranked[0], Pending, Some(expires), NextWave(offers, rid))];
        var r := SelectWave(offers, rid, ranked, room, expires);
        assert r[..|more|] == more;
        assert r[|offers|] == more[|offers|];
      }
    }
  }

  lemma GrownMove(db: Db, offers: seq<Offer>, rid: Id)
    requires Inv(db) && rid < |db.requests| && Grown(db.offers, offers, rid)
    ensures Inv(db.(offers := offers)) && Evolves(db, db.(offers := offers))
  {
    forall i | 0 <= i < |db.offers| ensures OfferEvolves(db.offers[i], offers[i]) {
      assert offers[..|db.offers|][i] == offers[i];
    }
    forall i | 0 <= i < |db.offers| && db.offers[i].status == Pending ensures offers[i].status != Awarded {
      assert offers[..|db.offers|][i] == offers[i];
    }
    OffersMove(db, offers);
  }

  /** A wave's number is never one the request has recorded before, so the unique index on
      (request, wave) never rejects a dispatch. */
  lemma WaveNumberIsFresh(db: Db, rid: Id, ranked: seq<Id>, size: nat, now: int)
    requires Inv(db) && rid < |db.requests|
    ensures DispatchWave(db, rid, ranked, size, now).error.None?
  {
    var offers := SelectWave(db.offers, rid, ranked, size, now + OFFER_TTL);
    if |offers| > |db.offers| {
      FirstOfWave(db.offers, rid, ranked, size, now + OFFER_TTL);
      MaxWaveIsMaximum(db.offers, rid);
      assert !WaveUsed(db.offers, rid, offers[|db.offers|].wave);
    }
  }

  lemma DispatchKeeps(db: Db, rid: Id, ranked: seq<Id>, size: nat, now: int)
    requires Inv(db) && rid < |db.requests|
    ensures var r := DispatchWave(db, rid, ranked, size, now); r.error.None? && Inv(r.db) && Evolves(db, r.db)
    ensures |DispatchWave(db, rid, ranked, size, now).db.jobs| == |db.jobs|
  {
    WaveNumberIsFresh(db, rid, ranked, size, now);
    var offers := SelectWave(db.offers, rid, ranked, size, now + OFFER_TTL);
    assert WavesPositive(db.offers) by {
      forall i | 0 <= i < |db.offers| ensures db.offers[i].wave >= 1 { assert OfferOk(db.requests, db.offers[i]); }
    }
    SelectGrows(db.offers, db.offers, rid, ranked, size, now + OFFER_TTL);
    if |offers| == |db.offers| {
      Same(db);
    } else {
      GrownMove(db, offers, rid);
      var db1 := db.(offers := offers);
      var wave := offers[|db.offers|].wave;
      var db2 := db1.(attempts := db.attempts + {(rid, wave)});
      assert WaveUsed(offers, rid, wave);
      assert Inv(db2) && Evolves(db, db2);
      if db.requests[rid].status in {Searching, Offered} {
        assert RequestOk(db2.requests[rid]);
        StatusMove(db2, rid, Offered);
        EvolvesTransitively(db, db2, WithStatus(db2, rid, Offered));
      }
    }
  }

  lemma Same(db: Db)
    ensures Evolves(db, db)
  {
  }

  lemma ExpireKeeps(db: Db, scope: Option<Id>, now: int, visible: nat)
    requires Inv(db)
    ensures var r := ExpireOffers(db, scope, now, visible); Inv(r.db) && Evolves(db, r.db)
  {
    var offers := LapsedOffers(db.offers, scope, now, visible);
    PairsKept(db.offers, offers);
    OffersMove(db, offers);
  }

  lemma ReassignKeeps(db: Db, rid: Id, ranked: seq<Id>, size: nat, now: int, swept: nat, checked: nat)
    requires Inv(db)
    ensures var r := Reassign(db, rid, ranked, size, now, swept, checked); r.error.None? && Inv(r.db) && Evolves(db, r.db)
  {
    ExpireKeeps(db, Some(rid), now, swept);
    var db1 := ExpireOffers(db, Some(rid), now, swept).db;
    if rid < |db1.requests| && db1.requests[rid].status == Offered && !HasLiveOffer(db1.offers, rid, now, checked) {
      assert RequestOk(db1.requests[rid]);
      StatusMove(db1, rid, Searching);
      var db2 := WithStatus(db1, rid, Searching);
      DispatchKeeps(db2, rid, ranked, size, now);
      EvolvesTransitively(db, db1, db2);
      EvolvesTransitively(db, db2, DispatchWave(db2, rid, ranked, size, now).db);
    }
  }

  lemma CreateOffersKeeps(db: Db, rid: Id, found: seq<Id>, now: int)
    requires Inv(db)
    ensures var r := CreateOffers(db, rid, found, now); Inv(r.db) && Evolves(db, r.db)
  {
    if rid < |db.requests| {
      var offers := InsertOffers(db.offers, rid, found, now + OFFER_TTL);
      InsertGrows(db.offers, db.offers, rid, found, now + OFFER_TTL);
      GrownMove(db, offers, rid);
      var db1 := db.(offers := offers);
      if db.requests[rid].status == Searching {
        assert RequestOk(db1.requests[rid]);
        StatusMove(db1, rid, Offered);
        EvolvesTransitively(db, db1, WithStatus(db1, rid, Offered));
      }
    }
  }

  // ----- jobs -----

  lemma JobMove(db: Db, jid: Id, job: Job)
    requires Inv(db) && jid < |db.jobs|
    requires JobEvolves(db.jobs[jid], job) && JobOk(db.requests, job)
    ensures Inv(WithJob(db, jid, job)) && Evolves(db, WithJob(db, jid, job))
  {
    Same(db);
  }

  /** A request and the job it belongs to move together. */
  lemma JobAndRequestMove(db: Db, jid: Id, job: Job, request: Request)
    requires Inv(db) && jid < |db.jobs| && db.jobs[jid].request == job.request
    requires RequestStep(db.requests[job.request], request)
    requires var requests := db.requests[job.request := request];
             JobEvolves(db.jobs[jid], job) && JobOk(requests, job)
    ensures var db' := WithJob(db.(requests := db.requests[job.request := request]), jid, job);
            Inv(db') && Evolves(db, db')
  {
    var db1 := db.(requests := db.requests[job.request := request]);
    RequestsMove(db, db1.requests);
    JobMove(db1, jid, job);
    EvolvesTransitively(db, db1, WithJob(db1, jid, job));
  }

  lemma LogGrows(log: seq<JobEvent>, e: JobEvent)
    requires log != []
    ensures Stage(log + [e]) ==
            (match e
             case Created => None
             case ProofRecorded => if Stage(log) == Some(InTransit) then Some(InTransit) else None
             case Moved(s) => if Stage(log).Some? && s in JobSuccessors(Stage(log).value) then Some(s) else None)
    ensures log <= log + [e]
  {
    assert (log + [e])[..|log|] == log;
  }

  lemma CourierRow(requests: seq<Request>, before: Job, courier: Id, after: seq<Request>)
    requires JobOk(requests, before) && before.status == Unassigned
    requires before.request < |after| && after[before.request].status !in {Open, Searching, Offered}
    ensures var job := MovedJob(before, Assigned).(courier := Some(courier)); JobOk(after, job) && JobEvolves(before, job)
  {
    MoveIsLogged(before, Assigned);
  }

  lemma AssignKeeps(db: Db, jid: Id, courier: Id)
    requires Inv(db)
    ensures var r := AssignCourier(db, jid, courier); Inv(r.db) && Evolves(db, r.db)
  {
    if jid < |db.jobs| && db.jobs[jid].status == Unassigned {
      var before := db.jobs[jid];
      assert JobOk(db.requests, before);
      var job := MovedJob(before, Assigned).(courier := Some(courier));
      assert RequestOk(db.requests[job.request]);
      if db.requests[job.request].status in {Searching, Offered} {
        var r := db.requests[job.request];
        var request := r.(status := Accepted, provider := Some(courier), version := r.version + 1);
        var requests := db.requests[job.request := request];
        assert AssignCourier(db, jid, courier).db == WithJob(db.(requests := requests), jid, job);
        CourierRow(db.requests, before, courier, requests);
        JobAndRequestMove(db, jid, job, request);
      } else {
        CourierRow(db.requests, before, courier, db.requests);
        JobMove(db, jid, job);
      }
    }
  }

  lemma MoveIsLogged(job: Job, target: JobStatus)
    requires Stage(job.log) == Some(job.status) && target in JobSuccessors(job.status)
    ensures Stage(MovedJob(job, target).log) == Some(target)
    ensures ProofRecorded in MovedJob(job, target).log <==> ProofRecorded in job.log
    ensures job.log <= MovedJob(job, target).log
  {
    LogGrows(job.log, Moved(target));
  }

  lemma EffectIsAStep(r: Request, target: JobStatus)
    requires RequestOk(r) && r.status !in {Open, Searching, Offered} && RequestEffect(target, r.status).Some?
    ensures var s := RequestEffect(target, r.status).value;
            && RequestStep(r, r.(status := s, version := r.version + 1))
            && s in {InProgress, Completed, Cancelled}
            && (target in {Delivered, Aborted} ==> s in {Completed, Cancelled})
  {
  }

  lemma MovedJobOk(requests: seq<Request>, before: Job, target: JobStatus, after: seq<Request>)
    requires JobOk(requests, before) && before.courier.Some? && target in JobSuccessors(before.status)
    requires target == Delivered ==> before.proof
    requires before.request < |after| && after[before.request].status !in {Open, Searching, Offered}
    requires target in {PickedUp, InTransit} ==> after[before.request].status in {InProgress, Completed, Cancelled}
    requires target in {Delivered, Aborted} ==> after[before.request].status in {Completed, Cancelled}
    ensures JobOk(after, MovedJob(before, target)) && JobEvolves(before, MovedJob(before, target))
  {
    MoveIsLogged(before, target);
  }

  function MovedRequest(r: Request, status: RequestStatus): Request {
    r.(status := status, version := r.version + 1)
  }

  lemma DeliveredRows(requests: seq<Request>, before: Job, target: JobStatus, status: RequestStatus)
    requires JobOk(requests, before) && before.courier.Some? && target in JobSuccessors(before.status)
    requires target == Delivered ==> before.proof
    requires RequestOk(requests[before.request])
    requires RequestEffect(target, requests[before.request].status) == Some(status)
    ensures var moved := MovedRequest(requests[before.request], status);
            && RequestStep(requests[before.request], moved)
            && JobOk(requests[before.request := moved], MovedJob(before, target))
            && JobEvolves(before, MovedJob(before, target))
  {
    EffectIsAStep(requests[before.request], target);
    MovedJobOk(requests, before, target, requests[before.request := MovedRequest(requests[before.request], status)]);
  }

  lemma DeliveredWith(db: Db, jid: Id, target: JobStatus, status: RequestStatus)
    requires Inv(db) && jid < |db.jobs| && db.jobs[jid].courier.Some? && target in JobSuccessors(db.jobs[jid].status)
    requires target == Delivered ==> db.jobs[jid].proof
    requires db.jobs[jid].request < |db.requests|
    requires RequestEffect(target, db.requests[db.jobs[jid].request].status) == Some(status)
    ensures var after := WithStatus(WithJob(db, jid, MovedJob(db.jobs[jid], target)), db.jobs[jid].request, status);
            Inv(after) && Evolves(db, after)
  {
    var before := db.jobs[jid];
    DeliveredRows(db.requests, before, target, status) by {
      assert JobOk(db.requests, before) && RequestOk(db.requests[before.request]);
    }
    JobAndRequestMove(db, jid, MovedJob(before, target), MovedRequest(db.requests[before.request], status));
  }

  lemma DeliverKeeps(db: Db, jid: Id, courier: Id, target: JobStatus)
    requires Inv(db)
    ensures var r := TransitionDelivery(db, jid, courier, target); Inv(r.db) && Evolves(db, r.db)
  {
    if TransitionDelivery(db, jid, courier, target).error.Some? {
      Same(db);
    } else {
      var before := db.jobs[jid];
      assert JobOk(db.requests, before);
      var effect := RequestEffect(target, db.requests[before.request].status);
      if effect.None? {
        MovedJobOk(db.requests, before, target, db.requests);
        JobMove(db, jid, MovedJob(before, target));
      } else {
        DeliveredWith(db, jid, target, effect.value);
      }
    }
  }

  lemma ProofKeeps(db: Db, jid: Id)
    requires Inv(db) && jid < |db.jobs| && db.jobs[jid].status == InTransit
    ensures Inv(RecordProof(db, jid)) && Evolves(db, RecordProof(db, jid))
  {
    var before := db.jobs[jid];
    assert JobOk(db.requests, before);
    LogGrows(before.log, ProofRecorded);
    JobMove(db, jid, RecordProof(db, jid).jobs[jid]);
  }

  lemma CreateJobKeeps(db: Db, order: Id, owner: Id, ranked: seq<Id>, now: int)
    requires Inv(db)
    ensures var r := CreateJob(db, order, owner, ranked, now); r.error.None? && Inv(r.db) && Evolves(db, r.db)
  {
    if !HasJob(db.jobs, order) {
      var rid := |db.requests|;
      var requests := db.requests + [Request(owner, Searching, None, 1)];
      forall i | 0 <= i < |db.requests| ensures RequestStep(db.requests[i], requests[i]) {
        assert RequestOk(db.requests[i]);
      }
      RequestsMove(db, requests);
      var db1 := db.(requests := requests);
      var job := Job(rid, order, None, Unassigned, false, [Created]);
      var db2 := db1.(jobs := db.jobs + [job]);
      assert JobOk(requests, job);
      assert JobsUnique(db2.jobs) by {
        forall i | 0 <= i < |db.jobs| ensures db.jobs[i].request != rid && db.jobs[i].order != order {
          assert JobOk(db.requests, db.jobs[i]);
        }
      }
      assert Inv(db2);
      Same(db1);
      assert Evolves(db1, db2);
      EvolvesTransitively(db, db1, db2);
      DispatchKeeps(db2, rid, ranked, WAVE_SIZE, now);
      EvolvesTransitively(db, db2, DispatchWave(db2, rid, ranked, WAVE_SIZE, now).db);
    }
  }

  // ----- requests -----

  lemma TransitionKeeps(db: Db, rid: Id, target: RequestStatus)
    requires Inv(db)
    ensures var r := TransitionRequest(db, rid, target); Inv(r.db) && Evolves(db, r.db)
  {
    if rid < |db.requests| && target in Successors(db.requests[rid].status) {
      assert RequestOk(db.requests[rid]);
      StatusMove(db, rid, target);
    }
  }

  lemma ProviderTransitionKeeps(db: Db, pid: Id, rid: Id, target: RequestStatus)
    requires Inv(db)
    ensures var r := ProviderTransition(db, pid, rid, target); Inv(r.db) && Evolves(db, r.db)
  {
    Same(db);
    TransitionKeeps(db, rid, target);
  }

  lemma CancelKeeps(db: Db, rid: Id, owner: Id)
    requires Inv(db)
    ensures var r := CancelRequest(db, rid, owner); Inv(r.db) && Evolves(db, r.db)
  {
    if CancelRequest(db, rid, owner).error.None? {
      assert RequestOk(db.requests[rid]);
      StatusMove(db, rid, Cancelled);
    }
  }

  lemma PostKeeps(db: Db, owner: Id, legacy: bool)
    requires Inv(db)
    ensures var r := Execute(db, OpPostRequest(owner, legacy)); Inv(r.db) && Evolves(db, r.db)
  {
    var requests := db.requests + [Request(owner, if legacy then Open else Searching, None, 1)];
    forall i | 0 <= i < |db.requests| ensures RequestStep(db.requests[i], requests[i]) {
      assert RequestOk(db.requests[i]);
    }
    RequestsMove(db, requests);
  }

  lemma OfferLapses(db: Db, oid: Id, status: OfferStatus)
    requires Inv(db) && oid < |db.offers| && db.offers[oid].status == Pending && status != Awarded
    ensures var db' := db.(offers := db.offers[oid := db.offers[oid].(status := status)]); Inv(db') && Evolves(db, db')
  {
    var offers := db.offers[oid := db.offers[oid].(status := status)];
    PairsKept(db.offers, offers);
    OffersMove(db, offers);
  }

  // ----- every operation, every run -----

  ghost predicate Keeps(db: Db, op: Op) {
    Inv(Execute(db, op).db) && Evolves(db, Execute(db, op).db)
  }

  lemma AnswerKeeps(db: Db, op: Op)
    requires Inv(db) && (op.OpAccept? || op.OpReject?)
    ensures Keeps(db, op)
  {
    Same(db);
    match op
    case OpAccept(now, oid, pid, visible) =>
      if AcceptOffer(db, now, oid, pid, visible).error.None? {
        AwardKeeps(db, oid, visible);
      } else if AcceptOffer(db, now, oid, pid, visible).error == Some(OfferExpired) {
        OfferLapses(db, oid, Lapsed);
      }
    case OpReject(oid, pid) =>
      if RejectOffer(db, oid, pid).error.None? { OfferLapses(db, oid, Declined); }
  }

  lemma ProofOpKeeps(db: Db, op: Op)
    requires Inv(db) && (op.OpProof? || op.OpReceipt?)
    ensures Keeps(db, op)
  {
    Same(db);
    if Execute(db, op).error.None? { ProofKeeps(db, op.jid); }
  }

  lemma RequestOpKeeps(db: Db, op: Op)
    requires Inv(db) && (op.OpPostRequest? || op.OpTransition? || op.OpProviderTransition? || op.OpCancel?)
    ensures Keeps(db, op)
  {
    match op
    case OpPostRequest(owner, legacy) => PostKeeps(db, owner, legacy);
    case OpTransition(rid, target) => TransitionKeeps(db, rid, target);
    case OpProviderTransition(pid, rid, target) => ProviderTransitionKeeps(db, pid, rid, target);
    case OpCancel(rid, owner) => CancelKeeps(db, rid, owner);
  }

  lemma WaveOpKeeps(db: Db, op: Op)
    requires Inv(db) && (op.OpCreateOffers? || op.OpDispatch? || op.OpExpire? || op.OpReassign?)
    ensures Keeps(db, op)
  {
    match op
    case OpCreateOffers(rid, found, now) =>
      assert Execute(db, op) == CreateOffers(db, rid, found, now);
      CreateOffersKeeps(db, rid, found, now);
    case OpDispatch(rid, ranked, size, now) =>
      assert Execute(db, op) == DispatchWave(db, rid, ranked, size, now);
      if rid < |db.requests| { DispatchKeeps(db, rid, ranked, size, now); } else { Same(db); }
    case OpExpire(scope, now, visible) =>
      assert Execute(db, op) == ExpireOffers(db, scope, now, visible);
      ExpireKeeps(db, scope, now, visible);
    case OpReassign(rid, ranked, size, now, swept, checked) =>
      assert Execute(db, op) == Reassign(db, rid, ranked, size, now, swept, checked);
      ReassignKeeps(db, rid, ranked, size, now, swept, checked);
  }

  lemma JobOpKeeps(db: Db, op: Op)
    requires Inv(db) && (op.OpCreateJob? || op.OpAssign? || op.OpDeliver?)
    ensures Keeps(db, op)
  {
    match op
    case OpCreateJob(order, owner, ranked, now) =>
      assert Execute(db, op) == CreateJob(db, order, owner, ranked, now);
      CreateJobKeeps(db, order, owner, ranked, now);
    case OpAssign(jid, courier) =>
      assert Execute(db, op) == AssignCourier(db, jid, courier);
      AssignKeeps(db, jid, courier);
    case OpDeliver(jid, courier, stage) =>
      assert Execute(db, op) == TransitionDelivery(db, jid, courier, stage);
      DeliverKeeps(db, jid, courier, stage);
  }

  /** Every operation, whether it succeeds or raises part-way, keeps the invariant and moves
      every row forwards. */
  lemma ExecuteKeeps(db: Db, op: Op)
    requires Inv(db)
    ensures Keeps(db, op)
  {
    if op.OpAccept? || op.OpReject? {
      AnswerKeeps(db, op);
    } else if op.OpProof? || op.OpReceipt? {
      ProofOpKeeps(db, op);
    } else if op.OpCreateJob? || op.OpAssign? || op.OpDeliver? {
      JobOpKeeps(db, op);
    } else if op.OpCreateOffers? || op.OpDispatch? || op.OpExpire? || op.OpReassign? {
      WaveOpKeeps(db, op);
    } else {
      RequestOpKeeps(db, op);
    }
  }

  lemma {:induction false} RunKeeps(db: Db, calls: seq<Call>)
    requires Inv(db)
    ensures Inv(Run(db, calls)) && Evolves(db, Run(db, calls))
    decreases |calls|
  {
    if calls == [] {
      Same(db);
    } else {
      ExecuteKeeps(db, calls[0].op);
      Same(db);
      var next := Commit(db, calls[0]);
      RunKeeps(next, calls[1..]);
      EvolvesTransitively(db, next, Run(db, calls));
    }
  }
}
