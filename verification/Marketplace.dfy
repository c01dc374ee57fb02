/** Service requests, provider offers and delivery jobs: the three state machines
    that write to each other's rows (execution.py, dispatch.py, provider_os.py,
    delivery.py, agent_execution.py). Every operation is specified here as a function
    from the tables before to the tables after; MarketplaceTables.dfy performs the same
    operations statement by statement and is proved against these functions. */
module Marketplace {
  import opened Prelude

  // 'open' is the column default, used by the legacy endpoint that never dispatches.
  datatype RequestStatus = Open | Searching | Offered | Accepted | InProgress | Completed | Cancelled

  datatype Request = Request(owner: Id, status: RequestStatus, provider: Option<Id>, version: nat)

  // 'pending', 'accepted', 'rejected' and 'expired'.
  datatype OfferStatus = Pending | Awarded | Declined | Lapsed

  datatype Offer = Offer(request: Id, provider: Id, status: OfferStatus, expires: Option<int>, wave: int)

  // 'searching', 'assigned', 'at_pickup', 'picked_up', 'in_transit', 'delivered', 'failed', 'cancelled'.
  datatype JobStatus = Unassigned | Assigned | AtPickup | PickedUp | InTransit | Delivered | Failed | Aborted

  datatype JobEvent = Created | Moved(to: JobStatus) | ProofRecorded

  // `log` is the job's own rows of delivery_events, in order.
  datatype Job = Job(request: Id, order: Id, courier: Option<Id>, status: JobStatus, proof: bool, log: seq<JobEvent>)

  datatype Db = Db(requests: seq<Request>, offers: seq<Offer>, jobs: seq<Job>, attempts: set<(Id, int)>)

  const EmptyDb := Db([], [], [], {})

  datatype Error =
    | NotFound | Unavailable | OfferExpired | RequestClosed | BadTransition
    | NotAssigned | ProofMissing | NotInTransit | DuplicateWave

  /** What a service function leaves behind: the rows it has written and, when it raised,
      why. The caller then commits or rolls back. */
  datatype Reply = Reply(db: Db, error: Option<Error>)

  const OFFER_TTL := 120
  const WAVE_SIZE := 5

  // ----- single-row updates -----

  function WithStatus(db: Db, rid: Id, status: RequestStatus): Db
    requires rid < |db.requests|
  {
    var r := db.requests[rid];
    db.(requests := db.requests[rid := r.(status := status, version := r.version + 1)])
  }

  function WithProvider(db: Db, rid: Id, provider: Id): Db
    requires rid < |db.requests|
  {
    var r := db.requests[rid];
    db.(requests := db.requests[rid := r.(status := Accepted, provider := Some(provider), version := r.version + 1)])
  }

  function WithJob(db: Db, jid: Id, job: Job): Db
    requires jid < |db.jobs|
  {
    db.(jobs := db.jobs[jid := job])
  }

  // ----- execution.py: offers -----

  predicate HasOffer(offers: seq<Offer>, rid: Id, pid: Id) {
    exists i :: 0 <= i < |offers| && offers[i].request == rid && offers[i].provider == pid
  }

  /** `insert ... on conflict (service_request_id, provider_id) do nothing` for every found
      provider; the wave column keeps its default. */
  function InsertOffers(offers: seq<Offer>, rid: Id, found: seq<Id>, expires: int): seq<Offer>
    decreases |found|
  {
    if found == [] then offers
    else
      InsertOffers(
        if HasOffer(offers, rid, found[0]) then offers
        else offers + [Offer(rid, found[0], Pending, Some(expires), 1)],
        rid, found[1..], expires)
  }

  function CreateOffers(db: Db, rid: Id, found: seq<Id>, now: int): Reply {
    if rid >= |db.requests| then Reply(db, if found == [] then None else Some(NotFound))
    else
      var db1 := db.(offers := InsertOffers(db.offers, rid, found, now + OFFER_TTL));
      Reply(if db.requests[rid].status == Searching then WithStatus(db1, rid, Offered) else db1, None)
  }

  predicate IsRival(offers: seq<Offer>, i: Id, oid: Id, visible: nat)
    requires i < |offers| && oid < |offers|
  {
    i != oid && i < visible && offers[i].request == offers[oid].request && offers[i].status == Pending
  }

  /** The offer is awarded, the pending rivals the rejecting statement saw are declined and
      every other offer keeps its row. */
  function AwardedOffers(offers: seq<Offer>, oid: Id, visible: nat): (r: seq<Offer>)
    requires oid < |offers|
    ensures |r| == |offers|
  {
    seq(|offers|, i requires 0 <= i < |offers| =>
      if i == oid then offers[i].(status := Awarded)
      else if IsRival(offers, i, oid, visible) then offers[i].(status := Declined)
      else offers[i])
  }

  /** accept_offer. `visible` counts the offers that existed when the rejecting statement began. */
  function AcceptOffer(db: Db, now: int, oid: Id, pid: Id, visible: nat): Reply {
    if oid >= |db.offers| || db.offers[oid].provider != pid then Reply(db, Some(NotFound))
    else
      var o := db.offers[oid];
      if o.status != Pending then Reply(db, Some(Unavailable))
      else if o.expires.Some? && o.expires.value <= now then
        Reply(db.(offers := db.offers[oid := o.(status := Lapsed)]), Some(OfferExpired))
      else if o.request >= |db.requests| || db.requests[o.request].status !in {Searching, Offered} then
        Reply(db, Some(RequestClosed))
      else
        Reply(WithProvider(db.(offers := AwardedOffers(db.offers, oid, visible)), o.request, pid), None)
  }

  /** provider_reject: one guarded update. */
  function RejectOffer(db: Db, oid: Id, pid: Id): Reply {
    if oid < |db.offers| && db.offers[oid].provider == pid && db.offers[oid].status == Pending then
      Reply(db.(offers := db.offers[oid := db.offers[oid].(status := Declined)]), None)
    else Reply(db, Some(Unavailable))
  }

  // ----- execution.py: requests -----

  function Successors(s: RequestStatus): set<RequestStatus> {
    match s
    case Accepted => {InProgress, Cancelled}
    case InProgress => {Completed, Cancelled}
    case Offered => {Cancelled}
    case Searching => {Cancelled}
    case _ => {}
  }

  function TransitionRequest(db: Db, rid: Id, target: RequestStatus): Reply {
    if rid >= |db.requests| then Reply(db, Some(NotFound))
    else if target !in Successors(db.requests[rid].status) then Reply(db, Some(BadTransition))
    else Reply(WithStatus(db, rid, target), None)
  }

  /** provider_transition: only the accepted provider may move the request. */
  function ProviderTransition(db: Db, pid: Id, rid: Id, target: RequestStatus): Reply {
    if rid >= |db.requests| || db.requests[rid].provider != Some(pid) then Reply(db, Some(NotAssigned))
    else TransitionRequest(db, rid, target)
  }

  /** agent_execution._cancel_request: one guarded update by the owner. */
  function CancelRequest(db: Db, rid: Id, owner: Id): Reply {
    if rid < |db.requests| && db.requests[rid].owner == owner
       && db.requests[rid].status in {Searching, Offered, Accepted, InProgress}
    then Reply(WithStatus(db, rid, Cancelled), None)
    else Reply(db, Some(Unavailable))
  }

  // ----- dispatch.py -----

  /** `select max(dispatch_wave) from service_offers where service_request_id = rid` */
  function MaxWave(offers: seq<Offer>, rid: Id): Option<int> {
    if offers == [] then None
    else
      var last := offers[|offers| - 1];
      var rest := MaxWave(offers[..|offers| - 1], rid);
      if last.request != rid then rest
      else if rest.Some? && rest.value >= last.wave then rest
      else Some(last.wave)
  }

  /** `coalesce(max + 1, 1)`, evaluated anew by every insert of the wave. */
  function NextWave(offers: seq<Offer>, rid: Id): int {
    match MaxWave(offers, rid)
    case Some(w) => w + 1
    case None => 1
  }

  /** The selection loop: `room` is the number of offers the wave may still select. */
  function SelectWave(offers: seq<Offer>, rid: Id, ranked: seq<Id>, room: nat, expires: int): (r: seq<Offer>)
    ensures |offers| <= |r| && r[..|offers|] == offers
    decreases |ranked|
  {
    if ranked == [] then offers
    else if HasOffer(offers, rid, ranked[0]) then SelectWave(offers, rid, ranked[1..], room, expires)
    else
      var more := offers + [Offer(rid, ranked[0], Pending, Some(expires), NextWave(offers, rid))];
      if room <= 1 then more else SelectWave(more, rid, ranked[1..], room - 1, expires)
  }

  function DispatchWave(db: Db, rid: Id, ranked: seq<Id>, size: nat, now: int): Reply {
    if rid >= |db.requests| then Reply(db, if ranked == [] then None else Some(NotFound))
    else
      var offers := SelectWave(db.offers, rid, ranked, size, now + OFFER_TTL);
      if |offers| == |db.offers| then Reply(db, None)
      else
        var wave := offers[|db.offers|].wave;
        if (rid, wave) in db.attempts then Reply(db, Some(DuplicateWave))
        else
          var db1 := db.(offers := offers, attempts := db.attempts + {(rid, wave)});
          Reply(if db.requests[rid].status in {Searching, Offered} then WithStatus(db1, rid, Offered) else db1, None)
  }

  predicate IsLapsed(o: Offer, scope: Option<Id>, now: int) {
    && (scope.Some? ==> o.request == scope.value)
    && o.status == Pending && o.expires.Some? && o.expires.value <= now
  }

  function LapsedAt(scope: Option<Id>, now: int): Offer -> bool {
    o => IsLapsed(o, scope, now)
  }

  /** Of the first `visible` offers, those still pending and past their expiry lapse. */
  function LapsedOffers(offers: seq<Offer>, scope: Option<Id>, now: int, visible: nat): (r: seq<Offer>)
    ensures |r| == |offers|
  {
    seq(|offers|, i requires 0 <= i < |offers| =>
      if i < visible && IsLapsed(offers[i], scope, now) then offers[i].(status := Lapsed) else offers[i])
  }

  function ExpireOffers(db: Db, scope: Option<Id>, now: int, visible: nat): Reply {
    Reply(db.(offers := LapsedOffers(db.offers, scope, now, visible)), None)
  }

  predicate HasLiveOffer(offers: seq<Offer>, rid: Id, now: int, visible: nat) {
    exists i :: 0 <= i < |offers| && i < visible && offers[i].request == rid && offers[i].status == Pending
      && offers[i].expires.Some? && offers[i].expires.value > now
  }

  /** reassign_if_needed. `swept` and `checked` count the offers that existed when the expiry
      and the live-offer count were evaluated. */
  function Reassign(db: Db, rid: Id, ranked: seq<Id>, size: nat, now: int, swept: nat, checked: nat): Reply {
    var db1 := ExpireOffers(db, Some(rid), now, swept).db;
    if rid >= |db1.requests| || db1.requests[rid].status != Offered || HasLiveOffer(db1.offers, rid, now, checked)
    then Reply(db1, None)
    else
      var r := DispatchWave(WithStatus(db1, rid, Searching), rid, ranked, size, now);
      if r.error.Some? then Reply(db, r.error) else r
  }

  // ----- delivery.py -----

  function JobSuccessors(s: JobStatus): set<JobStatus> {
    match s
    case Unassigned => {Assigned, Aborted, Failed}
    case Assigned => {AtPickup, Aborted, Failed}
    case AtPickup => {PickedUp, Aborted, Failed}
    case PickedUp => {InTransit, Aborted, Failed}
    case InTransit => {Delivered, Aborted, Failed}
    case _ => {}
  }

  predicate HasJob(jobs: seq<Job>, order: Id) {
    exists j :: 0 <= j < |jobs| && jobs[j].order == order
  }

  /** create_delivery_job: the request and its job are inserted and a first wave is sent. */
  function CreateJob(db: Db, order: Id, owner: Id, ranked: seq<Id>, now: int): Reply {
    if HasJob(db.jobs, order) then Reply(db, None)
    else
      var rid := |db.requests|;
      var db1 := db.(requests := db.requests + [Request(owner, Searching, None, 1)],
                     jobs := db.jobs + [Job(rid, order, None, Unassigned, false, [Created])]);
      var r := DispatchWave(db1, rid, ranked, WAVE_SIZE, now);
      if r.error.Some? then Reply(db, r.error) else r
  }

  function MovedJob(j: Job, target: JobStatus): Job {
    j.(status := target, log := j.log + [Moved(target)])
  }

  function AssignCourier(db: Db, jid: Id, courier: Id): Reply {
    if jid >= |db.jobs| || db.jobs[jid].status != Unassigned then Reply(db, Some(Unavailable))
    else
      var job := db.jobs[jid];
      var db1 := WithJob(db, jid, MovedJob(job, Assigned).(courier := Some(courier)));
      if job.request < |db.requests| && db.requests[job.request].status in {Searching, Offered}
      then Reply(WithProvider(db1, job.request, courier), None)
      else Reply(db1, None)
  }

  /** What a delivery status does to the status of the request behind it, if anything. */
  function RequestEffect(target: JobStatus, current: RequestStatus): Option<RequestStatus> {
    match target
    case Delivered => if current in {Accepted, InProgress} then Some(Completed) else None
    case Aborted => if current !in {Completed, Cancelled} then Some(Cancelled) else None
    case PickedUp => if current == Accepted then Some(InProgress) else None
    case _ => None
  }

  function TransitionDelivery(db: Db, jid: Id, courier: Id, target: JobStatus): Reply {
    if jid >= |db.jobs| then Reply(db, Some(NotFound))
    else
      var job := db.jobs[jid];
      if job.courier != Some(courier) then Reply(db, Some(NotAssigned))
      else if target !in JobSuccessors(job.status) then Reply(db, Some(BadTransition))
      else if target == Delivered && !job.proof then Reply(db, Some(ProofMissing))
      else
        var db1 := WithJob(db, jid, MovedJob(job, target));
        if job.request >= |db.requests| then Reply(db1, None)
        else
          match RequestEffect(target, db.requests[job.request].status)
          case None => Reply(db1, None)
          case Some(s) => Reply(WithStatus(db1, job.request, s), None)
  }

  function RecordProof(db: Db, jid: Id): Db
    requires jid < |db.jobs|
  {
    var job := db.jobs[jid];
    WithJob(db, jid, job.(proof := true, log := job.log + [ProofRecorded]))
  }

  /** add_proof by the courier. */
  function AddProof(db: Db, jid: Id, courier: Id): Reply {
    if jid >= |db.jobs| || db.jobs[jid].courier != Some(courier) || db.jobs[jid].status != InTransit
    then Reply(db, Some(NotInTransit))
    else Reply(RecordProof(db, jid), None)
  }

  /** confirm_delivery_receipt by the customer who placed the order. */
  function ConfirmReceipt(db: Db, jid: Id, user: Id): Reply {
    if jid >= |db.jobs| || db.jobs[jid].status != InTransit
       || db.jobs[jid].request >= |db.requests| || db.requests[db.jobs[jid].request].owner != user
    then Reply(db, Some(NotInTransit))
    else Reply(RecordProof(db, jid), None)
  }

  // ----- runs -----

  datatype Op =
    | OpPostRequest(owner: Id, legacy: bool)
    | OpCreateOffers(rid: Id, found: seq<Id>, now: int)
    | OpAccept(now: int, oid: Id, pid: Id, visible: nat)
    | OpReject(oid: Id, pid: Id)
    | OpTransition(rid: Id, to: RequestStatus)
    | OpProviderTransition(pid: Id, rid: Id, to: RequestStatus)
    | OpCancel(rid: Id, owner: Id)
    | OpDispatch(rid: Id, ranked: seq<Id>, size: nat, now: int)
    | OpExpire(scope: Option<Id>, now: int, visible: nat)
    | OpReassign(rid: Id, ranked: seq<Id>, size: nat, now: int, swept: nat, checked: nat)
    | OpCreateJob(order: Id, owner: Id, ranked: seq<Id>, now: int)
    | OpAssign(jid: Id, courier: Id)
    | OpDeliver(jid: Id, courier: Id, stage: JobStatus)
    | OpProof(jid: Id, courier: Id)
    | OpReceipt(jid: Id, user: Id)

  function Execute(db: Db, op: Op): Reply {
    match op
    case OpPostRequest(owner, legacy) =>
      Reply(db.(requests := db.requests + [Request(owner, if legacy then Open else Searching, None, 1)]), None)
    case OpCreateOffers(rid, found, now) => CreateOffers(db, rid, found, now)
    case OpAccept(now, oid, pid, visible) => AcceptOffer(db, now, oid, pid, visible)
    case OpReject(oid, pid) => RejectOffer(db, oid, pid)
    case OpTransition(rid, target) => TransitionRequest(db, rid, target)
    case OpProviderTransition(pid, rid, target) => ProviderTransition(db, pid, rid, target)
    case OpCancel(rid, owner) => CancelRequest(db, rid, owner)
    case OpDispatch(rid, ranked, size, now) => DispatchWave(db, rid, ranked, size, now)
    case OpExpire(scope, now, visible) => ExpireOffers(db, scope, now, visible)
    case OpReassign(rid, ranked, size, now, swept, checked) => Reassign(db, rid, ranked, size, now, swept, checked)
    case OpCreateJob(order, owner, ranked, now) => CreateJob(db, order, owner, ranked, now)
    case OpAssign(jid, courier) => AssignCourier(db, jid, courier)
    case OpDeliver(jid, courier, stage) => TransitionDelivery(db, jid, courier, stage)
    case OpProof(jid, courier) => AddProof(db, jid, courier)
    case OpReceipt(jid, user) => ConfirmReceipt(db, jid, user)
  }

  /** `keep`: the caller commits even though the function raised, as the WhatsApp router
      does when it turns a ValueError into a chat reply. */
  datatype Call = Call(op: Op, keep: bool)

  function Commit(db: Db, call: Call): Db {
    var r := Execute(db, call.op);
    if r.error.None? || call.keep then r.db else db
  }

  function Run(db: Db, calls: seq<Call>): Db
    decreases |calls|
  {
    if calls == [] then db else Run(Commit(db, calls[0]), calls[1..])
  }
}
