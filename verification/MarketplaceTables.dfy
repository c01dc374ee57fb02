/** The marketplace operations as the services perform them, statement by statement on
    tables that are updated in place. Each method leaves exactly the rows, and the error,
    of its specification in Marketplace.dfy. */
module MarketplaceTables {
  import opened Prelude
  import opened Marketplace

  class Tables {
    var requests: seq<Request>
    var offers: seq<Offer>
    var jobs: seq<Job>
    var attempts: set<(Id, int)>

    function Rows(): Db
      reads this
    {
      Db(requests, offers, jobs, attempts)
    }

    constructor ()
      ensures Rows() == EmptyDb
    {
      requests, offers, jobs, attempts := [], [], [], {};
    }

    /** `update service_requests set status = ..., version = version + 1 where id = rid` */
    method UpdateRequest(rid: Id, status: RequestStatus)
      requires rid < |requests|
      modifies this`requests
      ensures Rows() == WithStatus(old(Rows()), rid, status)
    {
      requests := requests[rid := requests[rid].(status := status, version := requests[rid].version + 1)];
    }

    method CreateOffers(rid: Id, found: seq<Id>, now: int) returns (error: Option<Error>)
      modifies this
      ensures Reply(Rows(), error) == Marketplace.CreateOffers(old(Rows()), rid, found, now)
    {
      if rid >= |requests| {
        return if found == [] then None else Some(NotFound);
      }
      var expires := now + OFFER_TTL;
      for i := 0 to |found|
        invariant requests == old(requests) && jobs == old(jobs) && attempts == old(attempts)
        invariant InsertOffers(offers, rid, found[i..], expires) == InsertOffers(old(offers), rid, found, expires)
      {
        if !HasOffer(offers, rid, found[i]) {
          offers := offers + [Offer(rid, found[i], Pending, Some(expires), 1)];
        }
      }
      if requests[rid].status == Searching {
        UpdateRequest(rid, Offered);
      }
      error := None;
    }

    method AcceptOffer(now: int, oid: Id, pid: Id) returns (error: Option<Error>)
      modifies this
      ensures Reply(Rows(), error) == Marketplace.AcceptOffer(old(Rows()), now, oid, pid, |old(offers)|)
    {
      if oid >= |offers| || offers[oid].provider != pid { return Some(NotFound); }
      if offers[oid].status != Pending { return Some(Unavailable); }
      var expiry := offers[oid].expires;
      if expiry.Some? && expiry.value <= now {
        offers := offers[oid := offers[oid].(status := Lapsed)];
        return Some(OfferExpired);
      }
      var rid := offers[oid].request;
      if rid >= |requests| || requests[rid].status !in {Searching, Offered} { return Some(RequestClosed); }
      offers := offers[oid := offers[oid].(status := Awarded)];
      DeclineRivals(oid);
      assert offers == AwardedOffers(old(offers), oid, |old(offers)|);
      requests := requests[rid := requests[rid].(status := Accepted, provider := Some(pid), version := requests[rid].version + 1)];
      error := None;
    }

    /** The update that declines every other pending offer of the request. */
    method DeclineRivals(oid: Id)
      requires oid < |offers|
      modifies this`offers
      ensures |offers| == |old(offers)|
      ensures forall i :: 0 <= i < |offers| ==>
                offers[i] == if i != oid && old(offers)[i].request == old(offers)[oid].request && old(offers)[i].status == Pending
                             then old(offers)[i].(status := Declined) else old(offers)[i]
    {
      var rid := offers[oid].request;
      for k := 0 to |offers|
        invariant |offers| == |old(offers)|
        invariant forall i :: k <= i < |offers| ==> offers[i] == old(offers)[i]
        invariant forall i :: 0 <= i < k ==>
                    offers[i] == if i != oid && old(offers)[i].request == rid && old(offers)[i].status == Pending
                                 then old(offers)[i].(status := Declined) else old(offers)[i]
      {
        if offers[k].request == rid && k != oid && offers[k].status == Pending {
          offers := offers[k := offers[k].(status := Declined)];
        }
      }
    }

    method RejectOffer(oid: Id, pid: Id) returns (error: Option<Error>)
      modifies this
      ensures Reply(Rows(), error) == Marketplace.RejectOffer(old(Rows()), oid, pid)
    {
      if oid >= |offers| || offers[oid].provider != pid || offers[oid].status != Pending { return Some(Unavailable); }
      offers := offers[oid := offers[oid].(status := Declined)];
      error := None;
    }

    method TransitionRequest(rid: Id, target: RequestStatus) returns (error: Option<Error>)
      modifies this
      ensures Reply(Rows(), error) == Marketplace.TransitionRequest(old(Rows()), rid, target)
    {
      if rid >= |requests| { return Some(NotFound); }
      if target !in Successors(requests[rid].status) { return Some(BadTransition); }
      UpdateRequest(rid, target);
      error := None;
    }

    method ProviderTransition(pid: Id, rid: Id, target: RequestStatus) returns (error: Option<Error>)
      modifies this
      ensures Reply(Rows(), error) == Marketplace.ProviderTransition(old(Rows()), pid, rid, target)
    {
      if rid >= |requests| || requests[rid].provider != Some(pid) { return Some(NotAssigned); }
      error := TransitionRequest(rid, target);
    }

    method CancelRequest(rid: Id, owner: Id) returns (error: Option<Error>)
      modifies this
      ensures Reply(Rows(), error) == Marketplace.CancelRequest(old(Rows()), rid, owner)
    {
      if rid >= |requests| || requests[rid].owner != owner
         || requests[rid].status !in {Searching, Offered, Accepted, InProgress} {
        return Some(Unavailable);
      }
      UpdateRequest(rid, Cancelled);
      error := None;
    }

    /** The selection loop. The wave number is computed afresh by every insert, so it grows
        within a wave too. */
    method SelectOffers(rid: Id, ranked: seq<Id>, size: nat, expires: int)
      modifies this`offers
      ensures offers == SelectWave(old(offers), rid, ranked, size, expires)
    {
      ghost var before := offers;
      var i, room := 0, size;
      while i < |ranked|
        invariant 0 <= i <= |ranked|
        invariant SelectWave(offers, rid, ranked[i..], room, expires) == SelectWave(before, rid, ranked, size, expires)
      {
        var pid := ranked[i];
        i := i + 1;
        if !HasOffer(offers, rid, pid) {
          offers := offers + [Offer(rid, pid, Pending, Some(expires), NextWave(offers, rid))];
          if room <= 1 { break; }
          room := room - 1;
        }
      }
    }

    /** A clash on the unique (request, wave) index kills the transaction. */
    method DispatchWave(rid: Id, ranked: seq<Id>, size: nat, now: int) returns (error: Option<Error>)
      modifies this
      ensures Reply(Rows(), error) == Marketplace.DispatchWave(old(Rows()), rid, ranked, size, now)
    {
      if rid >= |requests| {
        return if ranked == [] then None else Some(NotFound);
      }
      var before := offers;
      SelectOffers(rid, ranked, size, now + OFFER_TTL);
      if |offers| > |before| {
        var wave := offers[|before|].wave;
        if (rid, wave) in attempts {
          offers := before;
          return Some(DuplicateWave);
        }
        if requests[rid].status in {Searching, Offered} { UpdateRequest(rid, Offered); }
        attempts := attempts + {(rid, wave)};
      }
      error := None;
    }

    method ExpireOffers(scope: Option<Id>, now: int) returns (count: nat)
      modifies this`offers
      ensures Rows() == Marketplace.ExpireOffers(old(Rows()), scope, now, |old(offers)|).db
      ensures count == CountOf(old(offers), LapsedAt(scope, now))
    {
      count := 0;
      for k := 0 to |offers|
        invariant |offers| == |old(offers)|
        invariant forall i :: k <= i < |offers| ==> offers[i] == old(offers)[i]
        invariant forall i :: 0 <= i < k ==>
                    offers[i] == if IsLapsed(old(offers)[i], scope, now) then old(offers)[i].(status := Lapsed) else old(offers)[i]
        invariant count == CountOf(old(offers)[..k], LapsedAt(scope, now))
      {
        CountOneMore(old(offers), k, LapsedAt(scope, now));
        if (scope.None? || offers[k].request == scope.value) && offers[k].status == Pending
           && offers[k].expires.Some? && offers[k].expires.value <= now {
          offers := offers[k := offers[k].(status := Lapsed)];
          count := count + 1;
        }
      }
      assert old(offers)[..|offers|] == old(offers);
      assert offers == LapsedOffers(old(offers), scope, now, |old(offers)|);
    }

    method Reassign(rid: Id, ranked: seq<Id>, size: nat, now: int) returns (error: Option<Error>)
      modifies this
      ensures Reply(Rows(), error) == Marketplace.Reassign(old(Rows()), rid, ranked, size, now, |old(offers)|, |old(offers)|)
    {
      var before, beforeRequests := offers, requests;
      var _ := ExpireOffers(Some(rid), now);
      if rid >= |requests| || requests[rid].status != Offered { return None; }
      if HasLiveOffer(offers, rid, now, |offers|) { return None; }
      UpdateRequest(rid, Searching);
      error := DispatchWave(rid, ranked, size, now);
      if error.Some? {
        offers, requests := before, beforeRequests;
      }
    }

    method CreateJob(order: Id, owner: Id, ranked: seq<Id>, now: int) returns (error: Option<Error>)
      modifies this
      ensures Reply(Rows(), error) == Marketplace.CreateJob(old(Rows()), order, owner, ranked, now)
    {
      if HasJob(jobs, order) { return None; }
      var beforeRequests, beforeJobs, beforeOffers := requests, jobs, offers;
      var rid := |requests|;
      requests := requests + [Request(owner, Searching, None, 1)];
      jobs := jobs + [Job(rid, order, None, Unassigned, false, [Created])];
      error := DispatchWave(rid, ranked, WAVE_SIZE, now);
      if error.Some? {
        requests, jobs, offers := beforeRequests, beforeJobs, beforeOffers;
      }
    }

    method AssignCourier(jid: Id, courier: Id) returns (error: Option<Error>)
      modifies this
      ensures Reply(Rows(), error) == Marketplace.AssignCourier(old(Rows()), jid, courier)
    {
      if jid >= |jobs| || jobs[jid].status != Unassigned { return Some(Unavailable); }
      var rid := jobs[jid].request;
      jobs := jobs[jid := jobs[jid].(courier := Some(courier), status := Assigned)];
      if rid < |requests| && requests[rid].status in {Searching, Offered} {
        requests := requests[rid := requests[rid].(provider := Some(courier), status := Accepted, version := requests[rid].version + 1)];
      }
      LogEvent(jid, Moved(Assigned));
      error := None;
    }

    method LogEvent(jid: Id, event: JobEvent)
      requires jid < |jobs|
      modifies this`jobs
      ensures jobs == old(jobs)[jid := old(jobs)[jid].(log := old(jobs)[jid].log + [event])]
    {
      jobs := jobs[jid := jobs[jid].(log := jobs[jid].log + [event])];
    }

    method TransitionDelivery(jid: Id, courier: Id, target: JobStatus) returns (error: Option<Error>)
      modifies this
      ensures Reply(Rows(), error) == Marketplace.TransitionDelivery(old(Rows()), jid, courier, target)
    {
      if jid >= |jobs| { return Some(NotFound); }
      if jobs[jid].courier != Some(courier) { return Some(NotAssigned); }
      if target !in JobSuccessors(jobs[jid].status) { return Some(BadTransition); }
      if target == Delivered && !jobs[jid].proof { return Some(ProofMissing); }
      var rid := jobs[jid].request;
      jobs := jobs[jid := jobs[jid].(status := target)];
      if rid < |requests| {
        var current := requests[rid].status;
        if target == Delivered {
          if current in {Accepted, InProgress} { UpdateRequest(rid, Completed); }
        } else if target == Aborted {
          if current !in {Completed, Cancelled} { UpdateRequest(rid, Cancelled); }
        } else if target == PickedUp {
          if current == Accepted { UpdateRequest(rid, InProgress); }
        }
      }
      LogEvent(jid, Moved(target));
      error := None;
    }

    method AddProof(jid: Id, courier: Id) returns (error: Option<Error>)
      modifies this
      ensures Reply(Rows(), error) == Marketplace.AddProof(old(Rows()), jid, courier)
    {
      if jid >= |jobs| || jobs[jid].courier != Some(courier) || jobs[jid].status != InTransit { return Some(NotInTransit); }
      jobs := jobs[jid := jobs[jid].(proof := true)];
      LogEvent(jid, ProofRecorded);
      error := None;
    }

    method ConfirmReceipt(jid: Id, user: Id) returns (error: Option<Error>)
      modifies this
      ensures Reply(Rows(), error) == Marketplace.ConfirmReceipt(old(Rows()), jid, user)
    {
      if jid >= |jobs| || jobs[jid].status != InTransit
         || jobs[jid].request >= |requests| || requests[jobs[jid].request].owner != user {
        return Some(NotInTransit);
      }
      jobs := jobs[jid := jobs[jid].(proof := true)];
      LogEvent(jid, ProofRecorded);
      error := None;
    }
  }
}
