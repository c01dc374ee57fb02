/** What each marketplace operation does and exactly when, row by row and with the statuses and
    constants written out. */
module MarketplaceEffects {
  import opened Prelude
  import opened Marketplace
  import opened MarketplaceRuns
  import opened MarketplaceTheorems

  // ----- what an operation leaves alone -----

  ghost predicate OnlyRequest(a: Db, b: Db, rid: Id) {
    && b == a.(requests := b.requests) && |b.requests| == |a.requests|
    && forall i :: 0 <= i < |a.requests| && i != rid ==> b.requests[i] == a.requests[i]
  }

  ghost predicate OnlyOffer(a: Db, b: Db, oid: Id) {
    && b == a.(offers := b.offers) && |b.offers| == |a.offers|
    && forall i :: 0 <= i < |a.offers| && i != oid ==> b.offers[i] == a.offers[i]
  }

  /** Only this job, and only the request behind it, may differ. */
  ghost predicate OnlyDelivery(a: Db, b: Db, jid: Id)
    requires jid < |a.jobs|
  {
    && b == a.(jobs := b.jobs, requests := b.requests) && |b.jobs| == |a.jobs| && |b.requests| == |a.requests|
    && (forall i :: 0 <= i < |a.jobs| && i != jid ==> b.jobs[i] == a.jobs[i])
    && (forall i :: 0 <= i < |a.requests| && i != a.jobs[jid].request ==> b.requests[i] == a.requests[i])
  }

  /** The request's status was written, which raises its version. */
  predicate StatusWritten(before: Request, after: Request, status: RequestStatus) {
    after == before.(status := status, version := before.version + 1)
  }

  // ----- offers -----

  predicate IsOverdue(o: Offer, now: int) {
    o.expires.Some? && o.expires.value <= now
  }

  /** An accept succeeds exactly for a pending offer of that provider which has not expired and
      whose request still looks for a provider. It awards the offer, rejects the pending offers
      of the request that its statement saw, and moves the request. An expired offer is marked
      so although the call raises; any other refusal changes nothing. */
  lemma AcceptsWhen(db: Db, now: int, oid: Id, pid: Id, visible: nat)
    requires Reachable(db)
    ensures var r := AcceptOffer(db, now, oid, pid, visible);
            var pending := oid < |db.offers| && db.offers[oid].provider == pid && db.offers[oid].status == Pending;
            && (r.error.None? <==> pending && !IsOverdue(db.offers[oid], now) && db.offers[oid].request < |db.requests|
                                   && db.requests[db.offers[oid].request].status in {Searching, Offered})
            && (r.error.None? ==> AcceptWrites(db, r.db, oid, visible))
            && (r.error.Some? && pending && IsOverdue(db.offers[oid], now) ==>
                 OnlyOffer(db, r.db, oid) && r.db.offers[oid] == db.offers[oid].(status := Lapsed))
            && (r.error.Some? && !(pending && IsOverdue(db.offers[oid], now)) ==> r.db == db)
  {
    ReachableIsOrdered(db);
    if oid < |db.offers| { assert OfferOk(db.requests, db.offers[oid]); }
  }

  ghost predicate AcceptWrites(db: Db, after: Db, oid: Id, visible: nat)
    requires oid < |db.offers| && db.offers[oid].request < |db.requests|
  {
    var o := db.offers[oid];
    && after == db.(offers := after.offers, requests := after.requests) && |after.offers| == |db.offers|
    && OnlyRequest(db, after.(offers := db.offers), o.request)
    && after.requests[o.request] == Request(db.requests[o.request].owner, Accepted, Some(o.provider), db.requests[o.request].version + 1)
    && forall i :: 0 <= i < |db.offers| ==>
         after.offers[i] ==
           if i == oid then o.(status := Awarded)
           else if db.offers[i].request == o.request && db.offers[i].status == Pending && i < visible then db.offers[i].(status := Declined)
           else db.offers[i]
  }

  /** A provider rejects exactly its own pending offers. */
  lemma RejectsWhen(db: Db, oid: Id, pid: Id)
    ensures var r := RejectOffer(db, oid, pid);
            && (r.error.None? <==> oid < |db.offers| && db.offers[oid].provider == pid && db.offers[oid].status == Pending)
            && (r.error.None? ==> OnlyOffer(db, r.db, oid) && r.db.offers[oid] == db.offers[oid].(status := Declined))
            && (r.error.Some? ==> r.db == db)
  {
  }

  predicate WasOffered(offers: seq<Offer>, rid: Id, pid: Id) {
    exists i :: 0 <= i < |offers| && offers[i].request == rid && offers[i].provider == pid
  }

  /** The new offers are pending, good for two minutes, for providers found and not offered before. */
  ghost predicate NewOffers(before: seq<Offer>, after: seq<Offer>, rid: Id, found: seq<Id>, now: int) {
    forall j :: |before| <= j < |after| ==>
      && after[j] == Offer(rid, after[j].provider, Pending, Some(now + 120), 1)
      && after[j].provider in found && !WasOffered(before, rid, after[j].provider)
  }

  ghost predicate EverybodyAsked(before: seq<Offer>, after: seq<Offer>, rid: Id, found: seq<Id>) {
    forall p :: p in found && !WasOffered(before, rid, p) ==> exists j :: |before| <= j < |after| && after[j].provider == p
  }

  ghost predicate NobodyTwice(before: seq<Offer>, after: seq<Offer>) {
    forall i, j :: |before| <= i < j < |after| ==> after[i].provider != after[j].provider
  }

  /** One new offer for each found provider that had none, and no other. */
  ghost predicate OneEach(before: seq<Offer>, after: seq<Offer>, rid: Id, found: seq<Id>, now: int) {
    && |before| <= |after| && after[..|before|] == before
    && NewOffers(before, after, rid, found, now) && EverybodyAsked(before, after, rid, found) && NobodyTwice(before, after)
  }

  lemma {:induction false} InsertsOneEach(offers: seq<Offer>, rid: Id, found: seq<Id>, now: int)
    ensures OneEach(offers, InsertOffers(offers, rid, found, now + 120), rid, found, now)
    decreases |found|
  {
    if found != [] {
      if WasOffered(offers, rid, found[0]) {
        InsertsOneEach(offers, rid, found[1..], now);
      } else {
        var more := offers + [Offer(rid, found[0], Pending, Some(now + 120), 1)];
        InsertsOneEach(more, rid, found[1..], now);
        OneEachJoins(offers, more, InsertOffers(more, rid, found[1..], now + 120), rid, found, now);
      }
    }
  }

  lemma NowOffered(before: seq<Offer>, o: Offer, rid: Id, pid: Id)
    requires o.request == rid
    ensures WasOffered(before + [o], rid, pid) <==> WasOffered(before, rid, pid) || pid == o.provider
  {
    var more := before + [o];
    assert more[|before|] == o;
    if WasOffered(before, rid, pid) {
      var i :| 0 <= i < |before| && before[i].request == rid && before[i].provider == pid;
      assert more[i] == before[i];
    }
  }

  lemma OneEachJoins(before: seq<Offer>, more: seq<Offer>, after: seq<Offer>, rid: Id, found: seq<Id>, now: int)
    requires found != [] && !WasOffered(before, rid, found[0])
    requires more == before + [Offer(rid, found[0], Pending, Some(now + 120), 1)]
    requires OneEach(more, after, rid, found[1..], now)
    ensures OneEach(before, after, rid, found, now)
  {
    var n := |before|;
    assert after[n] == more[n] && after[..n] == more[..n];
    forall p ensures WasOffered(more, rid, p) <==> WasOffered(before, rid, p) || p == found[0] { NowOffered(before, more[n], rid, p); }
    assert NewOffers(before, after, rid, found, now);
    EverybodyElseAsked(before, more, after, rid, found);
    forall j | n < j < |after| ensures after[j].provider != found[0] { assert !WasOffered(more, rid, after[j].provider); }
  }

  lemma EverybodyElseAsked(before: seq<Offer>, more: seq<Offer>, after: seq<Offer>, rid: Id, found: seq<Id>)
    requires found != [] && |more| == |before| + 1 <= |after| && after[|before|].provider == found[0]
    requires EverybodyAsked(more, after, rid, found[1..])
    requires forall p :: WasOffered(more, rid, p) <==> WasOffered(before, rid, p) || p == found[0]
    ensures EverybodyAsked(before, after, rid, found)
  {
    forall p | p in found && !WasOffered(before, rid, p) ensures exists j :: |before| <= j < |after| && after[j].provider == p {
      if p == found[0] {
        assert after[|before|].provider == p;
      } else {
        assert p in found[1..] && !WasOffered(more, rid, p);
      }
    }
  }

  /** Offering a known request never fails; a request that was searching is then offered. */
  lemma OffersOneEach(db: Db, rid: Id, found: seq<Id>, now: int)
    requires rid < |db.requests|
    ensures var r := CreateOffers(db, rid, found, now);
            && r.error.None? && OneEach(db.offers, r.db.offers, rid, found, now)
            && OnlyRequest(db, r.db.(offers := db.offers), rid)
            && (if db.requests[rid].status == Searching then StatusWritten(db.requests[rid], r.db.requests[rid], Offered)
                else r.db.requests[rid] == db.requests[rid])
  {
    InsertsOneEach(db.offers, rid, found, now);
  }

  /** For a request that does not exist nothing is written, and it fails only if there is
      somebody to offer it to. */
  lemma UnknownRequest(db: Db, rid: Id, found: seq<Id>, size: nat, now: int)
    requires rid >= |db.requests|
    ensures var (offered, sent) := (CreateOffers(db, rid, found, now), DispatchWave(db, rid, found, size, now));
            && offered.db == db == sent.db
            && (offered.error.None? <==> |found| == 0) && (sent.error.None? <==> |found| == 0)
  {
  }

  /** A sweep expires exactly the pending offers in its scope whose time has come, of those it saw. */
  lemma ExpiresWhen(db: Db, scope: Option<Id>, now: int, visible: nat, i: Id)
    requires i < |db.offers|
    ensures var r := ExpireOffers(db, scope, now, visible);
            && r.error.None? && r.db == db.(offers := r.db.offers) && |r.db.offers| == |db.offers|
            && r.db.offers[i] ==
                 if i < visible && db.offers[i].status == Pending && IsOverdue(db.offers[i], now)
                    && (scope.None? || scope.value == db.offers[i].request)
                 then db.offers[i].(status := Lapsed) else db.offers[i]
  {
  }

  /** A dispatch that selects somebody offers the request for two minutes; it moves the request
      only if it was searching or offered. */
  lemma DispatchMoves(db: Db, rid: Id, ranked: seq<Id>, size: nat, now: int)
    requires Reachable(db) && rid < |db.requests|
    ensures var r := DispatchWave(db, rid, ranked, size, now);
            && OnlyRequest(db, r.db.(offers := db.offers, attempts := db.attempts), rid)
            && (forall j :: |db.offers| <= j < |r.db.offers| ==> r.db.offers[j].expires == Some(now + 120))
            && (if |r.db.offers| > |db.offers| && db.requests[rid].status in {Searching, Offered}
                then StatusWritten(db.requests[rid], r.db.requests[rid], Offered)
                else r.db.requests[rid] == db.requests[rid])
  {
    ReachableIsOrdered(db);
    WaveSelection(db, rid, ranked, size, now);
  }

  // ----- requests -----

  /** A request is posted for its owner without a provider; the legacy endpoint's is never
      dispatched. */
  lemma PostsRequest(db: Db, owner: Id)
    ensures Execute(db, OpPostRequest(owner, false)) ==
            Reply(db.(requests := db.requests + [Request(owner, Searching, None, 1)]), None)
    ensures Execute(db, OpPostRequest(owner, true)) ==
            Reply(db.(requests := db.requests + [Request(owner, Open, None, 1)]), None)
  {
  }

  /** The request machine, target by target: started only when accepted, completed only in
      progress, cancelled until then. Anything else is refused and changes nothing. */
  lemma TransitionsWhen(db: Db, rid: Id, target: RequestStatus)
    ensures var r := TransitionRequest(db, rid, target);
            && (r.error.None? <==>
                 && rid < |db.requests|
                 && (|| (target == InProgress && db.requests[rid].status == Accepted)
                     || (target == Completed && db.requests[rid].status == InProgress)
                     || (target == Cancelled && db.requests[rid].status in {Searching, Offered, Accepted, InProgress})))
            && (r.error.None? ==> OnlyRequest(db, r.db, rid) && StatusWritten(db.requests[rid], r.db.requests[rid], target))
            && (r.error.Some? ==> r.db == db)
  {
  }

  /** A provider moves exactly the requests it was accepted for, along the same machine. */
  lemma ProviderMovesWhen(db: Db, pid: Id, rid: Id, target: RequestStatus)
    ensures var r := ProviderTransition(db, pid, rid, target);
            && (r.error.None? <==>
                 rid < |db.requests| && db.requests[rid].provider == Some(pid) && TransitionRequest(db, rid, target).error.None?)
            && r.db == if r.error.None? then TransitionRequest(db, rid, target).db else db
  {
  }

  /** An owner cancels exactly a request of its own that is neither closed nor a legacy one. */
  lemma CancelsWhen(db: Db, rid: Id, owner: Id)
    ensures var r := CancelRequest(db, rid, owner);
            && (r.error.None? <==>
                 && rid < |db.requests| && db.requests[rid].owner == owner
                 && db.requests[rid].status in {Searching, Offered, Accepted, InProgress})
            && (r.error.None? ==> OnlyRequest(db, r.db, rid) && StatusWritten(db.requests[rid], r.db.requests[rid], Cancelled))
            && (r.error.Some? ==> r.db == db)
  {
  }

  // ----- deliveries -----

  /** An order gets one job: a new searching request of the customer with a first wave of at
      most five offers. A second call changes nothing. */
  lemma CreatesOneJob(db: Db, order: Id, owner: Id, ranked: seq<Id>, now: int)
    requires Reachable(db)
    ensures var r := CreateJob(db, order, owner, ranked, now);
            var picked := Capped(NeverOffered([], |db.requests|, ranked, {}), 5);
            && r.error.None?
            && ((exists j :: 0 <= j < |db.jobs| && db.jobs[j].order == order) ==> r.db == db)
            && ((forall j :: 0 <= j < |db.jobs| ==> db.jobs[j].order != order) ==>
                 && r.db.jobs == db.jobs + [Job(|db.requests|, order, None, Unassigned, false, [Created])]
                 && r.db.requests == db.requests + [if picked == [] then Request(owner, Searching, None, 1)
                                                    else Request(owner, Offered, None, 2)]
                 && r.db.offers[..|db.offers|] == db.offers && ProvidersOf(r.db.offers[|db.offers|..]) == picked)
  {
    ReachableIsOrdered(db);
    if !HasJob(db.jobs, order) { NewJob(db, order, owner, ranked, now); }
  }

  lemma NewJob(db: Db, order: Id, owner: Id, ranked: seq<Id>, now: int)
    requires Inv(db) && !HasJob(db.jobs, order)
    ensures var r := CreateJob(db, order, owner, ranked, now);
            var picked := Capped(NeverOffered([], |db.requests|, ranked, {}), 5);
            && r.error.None?
            && r.db.jobs == db.jobs + [Job(|db.requests|, order, None, Unassigned, false, [Created])]
            && r.db.requests == db.requests + [if picked == [] then Request(owner, Searching, None, 1)
                                               else Request(owner, Offered, None, 2)]
            && r.db.offers[..|db.offers|] == db.offers && ProvidersOf(r.db.offers[|db.offers|..]) == picked
  {
    var rid := |db.requests|;
    var db1 := db.(requests := db.requests + [Request(owner, Searching, None, 1)],
                   jobs := db.jobs + [Job(rid, order, None, Unassigned, false, [Created])]);
    CreateJobKeeps(db, order, owner, ranked, now);
    NobodyWasAsked(db, rid, ranked);
    SelectionIsAPrefix(db.offers, db.offers, rid, ranked, 5, now + 120, {});
    var offers := SelectWave(db.offers, rid, ranked, 5, now + 120);
    assert |ProvidersOf(offers[|db.offers|..])| == |offers| - |db.offers|;
  }

  lemma NobodyWasAsked(db: Db, rid: Id, ranked: seq<Id>)
    requires Inv(db) && rid == |db.requests|
    ensures NeverOffered(db.offers, rid, ranked, {}) == NeverOffered([], rid, ranked, {})
  {
    forall p ensures !HasOffer(db.offers, rid, p) {
      forall i | 0 <= i < |db.offers| ensures db.offers[i].request != rid { assert OfferOk(db.requests, db.offers[i]); }
    }
    SameHistorySameCandidates(db.offers, [], rid, ranked, {});
  }

  /** A courier is assigned exactly while the job is searching; a request that still looks for a
      provider is accepted for that courier, any other is left as it is. */
  lemma AssignsWhen(db: Db, jid: Id, courier: Id)
    requires Reachable(db)
    ensures var r := AssignCourier(db, jid, courier);
            && (r.error.None? <==> jid < |db.jobs| && db.jobs[jid].status == Unassigned)
            && (r.error.Some? ==> r.db == db)
            && (r.error.None? ==>
                 && OnlyDelivery(db, r.db, jid)
                 && r.db.jobs[jid] == db.jobs[jid].(courier := Some(courier), status := Assigned,
                                                    log := db.jobs[jid].log + [Moved(Assigned)])
                 && db.jobs[jid].request < |db.requests| &&
                 var before := db.requests[db.jobs[jid].request];
                 r.db.requests[db.jobs[jid].request] ==
                   if before.status in {Searching, Offered} then Request(before.owner, Accepted, Some(courier), before.version + 1)
                   else before)
  {
    ReachableIsOrdered(db);
    if jid < |db.jobs| { assert JobOk(db.requests, db.jobs[jid]); }
  }

  predicate IsDeliveryMove(from: JobStatus, to: JobStatus) {
    || (from == Assigned && to == AtPickup)
    || (from == AtPickup && to == PickedUp)
    || (from == PickedUp && to == InTransit)
    || (from == InTransit && to == Delivered)
    || (from in {Assigned, AtPickup, PickedUp, InTransit} && to in {Failed, Aborted})
  }

  /** Delivering completes a request that is accepted or in progress, picking up starts an
      accepted one, cancelling cancels one that is not closed, and otherwise it stays as it is. */
  ghost predicate FollowsDelivery(before: Request, after: Request, target: JobStatus) {
    if target == Delivered && before.status in {Accepted, InProgress} then StatusWritten(before, after, Completed)
    else if target == PickedUp && before.status == Accepted then StatusWritten(before, after, InProgress)
    else if target == Aborted && before.status != Completed && before.status != Cancelled then StatusWritten(before, after, Cancelled)
    else after == before
  }

  ghost predicate DeliveryWrites(db: Db, after: Db, jid: Id, target: JobStatus)
    requires jid < |db.jobs|
  {
    && OnlyDelivery(db, after, jid)
    && after.jobs[jid] == db.jobs[jid].(status := target, log := db.jobs[jid].log + [Moved(target)])
    && db.jobs[jid].request < |db.requests|
    && FollowsDelivery(db.requests[db.jobs[jid].request], after.requests[db.jobs[jid].request], target)
  }

  lemma DeliveryDoes(db: Db, jid: Id, courier: Id, target: JobStatus)
    requires TransitionDelivery(db, jid, courier, target).error.None? && db.jobs[jid].request < |db.requests|
    ensures DeliveryWrites(db, TransitionDelivery(db, jid, courier, target).db, jid, target)
  {
  }

  /** The courier's own job, along the machine, and to delivered only with a recorded proof. */
  ghost predicate MayDeliver(db: Db, jid: Id, courier: Id, target: JobStatus) {
    && jid < |db.jobs| && db.jobs[jid].courier == Some(courier)
    && IsDeliveryMove(db.jobs[jid].status, target)
    && (target == Delivered ==> ProofRecorded in db.jobs[jid].log)
  }

  lemma DeliverySucceeds(db: Db, jid: Id, courier: Id, target: JobStatus)
    requires jid < |db.jobs| ==> JobOk(db.requests, db.jobs[jid])
    ensures TransitionDelivery(db, jid, courier, target).error.None? <==> MayDeliver(db, jid, courier, target)
    ensures TransitionDelivery(db, jid, courier, target).error.Some? ==> TransitionDelivery(db, jid, courier, target).db == db
  {
  }

  /** In every reachable state a delivery moves exactly when it may, and as said above; anything
      else is refused and changes nothing. */
  lemma DeliversWhen(db: Db, jid: Id, courier: Id, target: JobStatus)
    requires Reachable(db)
    ensures var r := TransitionDelivery(db, jid, courier, target);
            && (r.error.None? <==> MayDeliver(db, jid, courier, target))
            && (if r.error.None? then DeliveryWrites(db, r.db, jid, target) else r.db == db)
  {
    ReachableIsOrdered(db);
    if jid < |db.jobs| { assert JobOk(db.requests, db.jobs[jid]); }
    DeliverySucceeds(db, jid, courier, target);
    if TransitionDelivery(db, jid, courier, target).error.None? { DeliveryDoes(db, jid, courier, target); }
  }

  function CustomerOf(db: Db, jid: Id): Option<Id>
    requires jid < |db.jobs|
  {
    if db.jobs[jid].request < |db.requests| then Some(db.requests[db.jobs[jid].request].owner) else None
  }

  /** A proof is recorded exactly in transit, by the courier or by the customer who ordered, and
      changes nothing else. */
  lemma ProvesWhen(db: Db, jid: Id, who: Id)
    requires Reachable(db)
    ensures var (byCourier, byCustomer) := (AddProof(db, jid, who), ConfirmReceipt(db, jid, who));
            && (byCourier.error.None? <==>
                 jid < |db.jobs| && db.jobs[jid].courier == Some(who) && db.jobs[jid].status == InTransit)
            && (byCustomer.error.None? <==>
                 jid < |db.jobs| && db.jobs[jid].status == InTransit && CustomerOf(db, jid) == Some(who))
            && (byCourier.error.None? ==> ProofWrites(db, byCourier.db, jid))
            && (byCustomer.error.None? ==> ProofWrites(db, byCustomer.db, jid))
            && (byCourier.error.Some? ==> byCourier.db == db) && (byCustomer.error.Some? ==> byCustomer.db == db)
  {
    ReachableIsOrdered(db);
    if jid < |db.jobs| { assert JobOk(db.requests, db.jobs[jid]); }
  }

  ghost predicate ProofWrites(db: Db, after: Db, jid: Id)
    requires jid < |db.jobs|
  {
    && after == db.(jobs := after.jobs) && OnlyDelivery(db, after, jid)
    && after.jobs[jid] == db.jobs[jid].(proof := true, log := db.jobs[jid].log + [ProofRecorded])
  }
}
