/** The marketplace under concurrency. Accepts, expiry sweeps, reassignments and courier
    assignments are split at their row locks and interleaved with every other operation.
    A transaction keeps its writes to itself until it commits, holds the rows it has locked
    until it ends, and may be aborted at any point (rollback, crash, deadlock victim). */
module OfferLocks {
  import opened Prelude
  import opened Marketplace
  import opened MarketplaceRuns

  datatype Tx =
    | OfferLocked(offer: Id, now: int)      // accept: the offer row is locked, pending and live
    | Lapsing(offer: Id, now: int)          // accept: the offer row is locked and found expired
    | RequestLocked(offer: Id, now: int)    // accept: the request row is locked and available too
    | Declining(offer: Id, now: int, seen: nat, cursor: nat, held: set<Id>)
    | Sweeping(scope: Option<Id>, now: int, seen: nat, cursor: nat, held: set<Id>, reassign: bool)
    | ReassignReady(rid: Id, now: int, seen: nat, held: set<Id>, checked: nat)
    | Assigning(job: Id, courier: Id)

  /** The committed tables and the transactions in progress. */
  datatype Cluster = Cluster(db: Db, txs: map<Id, Tx>)

  // ----- locks -----

  predicate HoldsOffer(tx: Tx, o: Id) {
    match tx
    case OfferLocked(offer, _) => o == offer
    case Lapsing(offer, _) => o == offer
    case RequestLocked(offer, _) => o == offer
    case Declining(offer, _, _, _, held) => o == offer || o in held
    case Sweeping(_, _, _, _, held, _) => o in held
    case ReassignReady(_, _, _, held, _) => o in held
    case Assigning(_, _) => false
  }

  predicate HoldsRequest(db: Db, tx: Tx, r: Id) {
    match tx
    case RequestLocked(offer, _) => offer < |db.offers| && db.offers[offer].request == r
    case Declining(offer, _, _, _, _) => offer < |db.offers| && db.offers[offer].request == r
    case ReassignReady(rid, _, _, _, _) => r == rid
    case _ => false
  }

  predicate HoldsJob(tx: Tx, j: Id) {
    tx.Assigning? && tx.job == j
  }

  ghost predicate OfferFree(c: Cluster, o: Id) {
    forall t :: t in c.txs ==> !HoldsOffer(c.txs[t], o)
  }

  ghost predicate RequestFree(c: Cluster, r: Id) {
    forall t :: t in c.txs ==> !HoldsRequest(c.db, c.txs[t], r)
  }

  ghost predicate JobFree(c: Cluster, j: Id) {
    forall t :: t in c.txs ==> !HoldsJob(c.txs[t], j)
  }

  // ----- steps -----

  datatype Step =
    | BeginAccept(t: Id, oid: Id, pid: Id, now: int)
    | LockRequest(t: Id)
    | BeginDecline(t: Id)
    | ScanDecline(t: Id)
    | CommitAccept(t: Id)
    | CommitLapse(t: Id)
    | BeginSweep(t: Id, scope: Option<Id>, now: int)
    | BeginReassign(t: Id, rid: Id, now: int)
    | ScanSweep(t: Id)
    | CommitSweep(t: Id)
    | CheckReassign(t: Id)
    | CommitReassign(t: Id, ranked: seq<Id>, size: nat)
    | BeginAssign(t: Id, jid: Id, courier: Id)
    | CommitAssign(t: Id)
    | Single(op: Op)
    | Abort(t: Id)

  function With(c: Cluster, t: Id, tx: Tx): Cluster {
    c.(txs := c.txs[t := tx])
  }

  function Without(c: Cluster, t: Id): Cluster {
    c.(txs := c.txs - {t})
  }

  /** Operations whose only locks are taken by the statement that writes: they happen at one
      instant, when the rows they write are free. */
  ghost predicate SingleReady(c: Cluster, op: Op) {
    match op
    case OpAccept(_, _, _, _) => false
    case OpExpire(_, _, _) => false
    case OpReassign(_, _, _, _, _, _) => false
    case OpAssign(_, _) => false
    case OpReject(oid, _) => OfferFree(c, oid)
    case OpTransition(rid, _) => RequestFree(c, rid)
    case OpProviderTransition(_, rid, _) => RequestFree(c, rid)
    case OpCancel(rid, _) => RequestFree(c, rid)
    case OpDispatch(rid, _, _, _) => RequestFree(c, rid)
    case OpCreateOffers(rid, _, _) => rid < |c.db.requests| && c.db.requests[rid].status == Searching ==> RequestFree(c, rid)
    case OpDeliver(jid, _, _) => JobFree(c, jid) && (jid < |c.db.jobs| ==> RequestFree(c, c.db.jobs[jid].request))
    case _ => true
  }

  // What a transaction has written by the time it commits.

  /** accept: its own offer, the rivals it locked and the request. */
  function WonBy(db: Db, oid: Id, held: set<Id>): Db
    requires oid < |db.offers| && db.offers[oid].request < |db.requests|
  {
    var offers := seq(|db.offers|, i requires 0 <= i < |db.offers| =>
      if i == oid then db.offers[i].(status := Awarded)
      else if i in held then db.offers[i].(status := Declined)
      else db.offers[i]);
    WithProvider(db.(offers := offers), db.offers[oid].request, db.offers[oid].provider)
  }

  /** expiry: the offers it locked. */
  function Swept(db: Db, held: set<Id>): Db {
    db.(offers := seq(|db.offers|, i requires 0 <= i < |db.offers| =>
      if i in held then db.offers[i].(status := Lapsed) else db.offers[i]))
  }

  /** reassignment: the expired offers, the request back to `searching`, and a new wave. */
  function Resent(db: Db, rid: Id, held: set<Id>, ranked: seq<Id>, size: nat, now: int): Db
    requires rid < |db.requests|
  {
    DispatchWave(WithStatus(Swept(db, held), rid, Searching), rid, ranked, size, now).db
  }

  ghost function AfterBeginAccept(c: Cluster, t: Id, oid: Id, pid: Id, now: int): Cluster {
    if t in c.txs || oid >= |c.db.offers| || !OfferFree(c, oid) then c
    else
      var o := c.db.offers[oid];
      if o.provider != pid || o.status != Pending then c
      else if o.expires.Some? && o.expires.value <= now then With(c, t, Lapsing(oid, now))
      else With(c, t, OfferLocked(oid, now))
  }

  ghost function AfterLockRequest(c: Cluster, t: Id): Cluster {
    if t !in c.txs || !c.txs[t].OfferLocked? || c.txs[t].offer >= |c.db.offers| then c
    else
      var rid := c.db.offers[c.txs[t].offer].request;
      if !RequestFree(c, rid) then c
      else if rid >= |c.db.requests| || c.db.requests[rid].status !in {Searching, Offered} then Without(c, t)
      else With(c, t, RequestLocked(c.txs[t].offer, c.txs[t].now))
  }

  ghost function AfterBeginDecline(c: Cluster, t: Id): Cluster {
    if t !in c.txs || !c.txs[t].RequestLocked? then c
    else With(c, t, Declining(c.txs[t].offer, c.txs[t].now, |c.db.offers|, 0, {}))
  }

  ghost function AfterScanDecline(c: Cluster, t: Id): Cluster {
    if t !in c.txs || !c.txs[t].Declining? || c.txs[t].cursor >= c.txs[t].seen
       || c.txs[t].cursor >= |c.db.offers| || c.txs[t].offer >= |c.db.offers| then c
    else
      var tx := c.txs[t];
      if !IsRival(c.db.offers, tx.cursor, tx.offer, tx.seen) then With(c, t, Declining(tx.offer, tx.now, tx.seen, tx.cursor + 1, tx.held))
      else if !OfferFree(c, tx.cursor) then c
      else With(c, t, Declining(tx.offer, tx.now, tx.seen, tx.cursor + 1, tx.held + {tx.cursor}))
  }

  ghost function AfterCommitAccept(c: Cluster, t: Id): Cluster {
    if t !in c.txs || !c.txs[t].Declining? || c.txs[t].cursor < c.txs[t].seen || c.txs[t].offer >= |c.db.offers| then c
    else
      var tx := c.txs[t];
      if c.db.offers[tx.offer].request >= |c.db.requests| then c
      else Cluster(WonBy(c.db, tx.offer, tx.held), c.txs - {t})
  }

  ghost function AfterCommitLapse(c: Cluster, t: Id): Cluster {
    if t !in c.txs || !c.txs[t].Lapsing? || c.txs[t].offer >= |c.db.offers| then c
    else
      var oid := c.txs[t].offer;
      Cluster(c.db.(offers := c.db.offers[oid := c.db.offers[oid].(status := Lapsed)]), c.txs - {t})
  }

  ghost function AfterBeginSweep(c: Cluster, t: Id, scope: Option<Id>, now: int): Cluster {
    if t in c.txs then c else With(c, t, Sweeping(scope, now, |c.db.offers|, 0, {}, false))
  }

  ghost function AfterBeginReassign(c: Cluster, t: Id, rid: Id, now: int): Cluster {
    if t in c.txs then c else With(c, t, Sweeping(Some(rid), now, |c.db.offers|, 0, {}, true))
  }

  ghost function AfterScanSweep(c: Cluster, t: Id): Cluster {
    if t !in c.txs || !c.txs[t].Sweeping? || c.txs[t].cursor >= c.txs[t].seen || c.txs[t].cursor >= |c.db.offers| then c
    else
      var tx := c.txs[t];
      if !IsLapsed(c.db.offers[tx.cursor], tx.scope, tx.now) then With(c, t, tx.(cursor := tx.cursor + 1))
      else if !OfferFree(c, tx.cursor) then c
      else With(c, t, tx.(cursor := tx.cursor + 1, held := tx.held + {tx.cursor}))
  }

  ghost function AfterCommitSweep(c: Cluster, t: Id): Cluster {
    if t !in c.txs || !c.txs[t].Sweeping? || c.txs[t].reassign || c.txs[t].cursor < c.txs[t].seen then c
    else Cluster(Swept(c.db, c.txs[t].held), c.txs - {t})
  }

  ghost function AfterCheckReassign(c: Cluster, t: Id): Cluster {
    if t !in c.txs || !c.txs[t].Sweeping? || !c.txs[t].reassign || c.txs[t].scope.None? || c.txs[t].cursor < c.txs[t].seen then c
    else
      var tx := c.txs[t];
      var rid := tx.scope.value;
      if !RequestFree(c, rid) then c
      else if rid >= |c.db.requests| || c.db.requests[rid].status != Offered
              || HasLiveOffer(Swept(c.db, tx.held).offers, rid, tx.now, |c.db.offers|)
      then Cluster(Swept(c.db, tx.held), c.txs - {t})
      else With(c, t, ReassignReady(rid, tx.now, tx.seen, tx.held, |c.db.offers|))
  }

  ghost function AfterCommitReassign(c: Cluster, t: Id, ranked: seq<Id>, size: nat): Cluster {
    if t !in c.txs || !c.txs[t].ReassignReady? || c.txs[t].rid >= |c.db.requests| then c
    else
      Cluster(Resent(c.db, c.txs[t].rid, c.txs[t].held, ranked, size, c.txs[t].now), c.txs - {t})
  }

  ghost function AfterBeginAssign(c: Cluster, t: Id, jid: Id, courier: Id): Cluster {
    if t in c.txs || jid >= |c.db.jobs| || !JobFree(c, jid) || c.db.jobs[jid].status != Unassigned then c
    else With(c, t, Assigning(jid, courier))
  }

  ghost function AfterCommitAssign(c: Cluster, t: Id): Cluster {
    if t !in c.txs || !c.txs[t].Assigning? || c.txs[t].job >= |c.db.jobs|
       || !RequestFree(c, c.db.jobs[c.txs[t].job].request) then c
    else Cluster(AssignCourier(c.db, c.txs[t].job, c.txs[t].courier).db, c.txs - {t})
  }

  ghost function AfterSingle(c: Cluster, op: Op): Cluster {
    if SingleReady(c, op) then c.(db := Commit(c.db, Call(op, false))) else c
  }

  ghost function AfterAbort(c: Cluster, t: Id): Cluster {
    Without(c, t)
  }

  /** The next state, or the same one when the step has to wait or does not apply. */
  ghost function Next(c: Cluster, step: Step): Cluster {
    match step
    case BeginAccept(t, oid, pid, now) => AfterBeginAccept(c, t, oid, pid, now)
    case LockRequest(t) => AfterLockRequest(c, t)
    case BeginDecline(t) => AfterBeginDecline(c, t)
    case ScanDecline(t) => AfterScanDecline(c, t)
    case CommitAccept(t) => AfterCommitAccept(c, t)
    case CommitLapse(t) => AfterCommitLapse(c, t)
    case BeginSweep(t, scope, now) => AfterBeginSweep(c, t, scope, now)
    case BeginReassign(t, rid, now) => AfterBeginReassign(c, t, rid, now)
    case ScanSweep(t) => AfterScanSweep(c, t)
    case CommitSweep(t) => AfterCommitSweep(c, t)
    case CheckReassign(t) => AfterCheckReassign(c, t)
    case CommitReassign(t, ranked, size) => AfterCommitReassign(c, t, ranked, size)
    case BeginAssign(t, jid, courier) => AfterBeginAssign(c, t, jid, courier)
    case CommitAssign(t) => AfterCommitAssign(c, t)
    case Single(op) => AfterSingle(c, op)
    case Abort(t) => AfterAbort(c, t)
  }

  // ----- what a transaction knows about the rows it has locked -----

  ghost predicate OfferHeld(db: Db, offer: Id, now: int, expired: bool) {
    && offer < |db.offers|
    && db.offers[offer].status == Pending
    && (expired <==> db.offers[offer].expires.Some? && db.offers[offer].expires.value <= now)
  }

  ghost predicate RequestHeld(db: Db, offer: Id) {
    && offer < |db.offers| && db.offers[offer].request < |db.requests|
    && db.requests[db.offers[offer].request].status in {Searching, Offered}
  }

  /** Up to the cursor, the held rows are exactly the rivals. */
  ghost predicate RivalsHeld(db: Db, offer: Id, seen: nat, cursor: nat, held: set<Id>) {
    && offer < |db.offers| && seen <= |db.offers| && cursor <= seen
    && (forall i :: i in held ==> i < cursor)
    && (forall i: Id :: i < cursor ==> (i in held <==> IsRival(db.offers, i, offer, seen)))
  }

  ghost predicate LapsedHeld(db: Db, scope: Option<Id>, now: int, seen: nat, cursor: nat, held: set<Id>) {
    && seen <= |db.offers| && cursor <= seen
    && (forall i :: i in held ==> i < cursor)
    && (forall i: Id :: i < cursor ==> (i in held <==> IsLapsed(db.offers[i], scope, now)))
  }

  ghost predicate Knows(db: Db, tx: Tx) {
    match tx
    case OfferLocked(offer, now) => OfferHeld(db, offer, now, false)
    case Lapsing(offer, now) => OfferHeld(db, offer, now, true)
    case RequestLocked(offer, now) => OfferHeld(db, offer, now, false) && RequestHeld(db, offer)
    case Declining(offer, now, seen, cursor, held) =>
      OfferHeld(db, offer, now, false) && RequestHeld(db, offer) && RivalsHeld(db, offer, seen, cursor, held)
    case Sweeping(scope, now, seen, cursor, held, reassign) =>
      LapsedHeld(db, scope, now, seen, cursor, held) && (reassign ==> scope.Some?)
    case ReassignReady(rid, now, seen, held, checked) =>
      && LapsedHeld(db, Some(rid), now, seen, seen, held)
      && rid < |db.requests| && db.requests[rid].status == Offered
      && checked <= |db.offers| && !HasLiveOffer(db.offers, rid, now, checked)
    case Assigning(job, _) => job < |db.jobs| && db.jobs[job].status == Unassigned
  }

  ghost predicate Compatible(db: Db, a: Tx, b: Tx) {
    && (forall o :: !(HoldsOffer(a, o) && HoldsOffer(b, o)))
    && (forall r :: !(HoldsRequest(db, a, r) && HoldsRequest(db, b, r)))
    && (forall j :: !(HoldsJob(a, j) && HoldsJob(b, j)))
  }

  ghost predicate Orderly(c: Cluster) {
    && Inv(c.db)
    && (forall t :: t in c.txs ==> Knows(c.db, c.txs[t]))
    && (forall t, u :: t in c.txs && u in c.txs && t != u ==> Compatible(c.db, c.txs[t], c.txs[u]))
  }

  /** The tables moved without touching anything the transaction holds. */
  ghost predicate LeavesAlone(a: Db, b: Db, tx: Tx) {
    && Evolves(a, b)
    && (forall o: Id :: o < |a.offers| && HoldsOffer(tx, o) ==> b.offers[o] == a.offers[o])
    && (forall r: Id :: r < |a.requests| && HoldsRequest(a, tx, r) ==> b.requests[r] == a.requests[r])
    && (forall j: Id :: j < |a.jobs| && HoldsJob(tx, j) ==> b.jobs[j] == a.jobs[j])
  }

  lemma KnowledgeLasts(a: Db, b: Db, tx: Tx)
    requires Inv(a) && Inv(b) && Knows(a, tx) && LeavesAlone(a, b, tx)
    ensures Knows(b, tx)
    ensures forall r :: HoldsRequest(b, tx, r) <==> HoldsRequest(a, tx, r)
  {
    forall i | 0 <= i < |a.offers| ensures OfferEvolves(a.offers[i], b.offers[i]) {}
    match tx
    case Declining(offer, now, seen, cursor, held) =>
      assert HoldsOffer(tx, offer) && HoldsRequest(a, tx, a.offers[offer].request);
      forall i: Id | i < cursor ensures i in held <==> IsRival(b.offers, i, offer, seen) {
        if i in held { assert HoldsOffer(tx, i); }
      }
    case Sweeping(scope, now, seen, cursor, held, _) => LapsesLast(a, b, tx, scope, now, cursor, held);
    case ReassignReady(rid, now, seen, held, checked) =>
      LapsesLast(a, b, tx, Some(rid), now, seen, held);
      assert HoldsRequest(a, tx, rid);
    case OfferLocked(offer, _) => assert HoldsOffer(tx, offer);
    case Lapsing(offer, _) => assert HoldsOffer(tx, offer);
    case RequestLocked(offer, _) => assert HoldsOffer(tx, offer) && HoldsRequest(a, tx, a.offers[offer].request);
    case Assigning(job, _) => assert HoldsJob(tx, job);
  }

  lemma LapsesLast(a: Db, b: Db, tx: Tx, scope: Option<Id>, now: int, cursor: nat, held: set<Id>)
    requires LeavesAlone(a, b, tx) && cursor <= |a.offers|
    requires forall i :: i in held ==> HoldsOffer(tx, i) && i < cursor
    requires forall i: Id :: i < cursor ==> (i in held <==> IsLapsed(a.offers[i], scope, now))
    ensures forall i: Id :: i < cursor ==> (i in held <==> IsLapsed(b.offers[i], scope, now))
  {
    forall i: Id | i < cursor ensures i in held <==> IsLapsed(b.offers[i], scope, now) {
      assert OfferEvolves(a.offers[i], b.offers[i]);
    }
  }

  // ----- the effect of each step on the committed tables -----

  /** The sequential call a committing step amounts to (of no account for other steps). */
  function CallOf(c: Cluster, step: Step): Call {
    match step
    case CommitAccept(t) =>
      if t in c.txs && c.txs[t].Declining? && c.txs[t].offer < |c.db.offers| then
        Call(OpAccept(c.txs[t].now, c.txs[t].offer, c.db.offers[c.txs[t].offer].provider, c.txs[t].seen), false)
      else NO_CALL
    case CommitLapse(t) =>
      if t in c.txs && c.txs[t].Lapsing? && c.txs[t].offer < |c.db.offers| then
        Call(OpAccept(c.txs[t].now, c.txs[t].offer, c.db.offers[c.txs[t].offer].provider, 0), true)
      else NO_CALL
    case CommitSweep(t) => SweepCall(c, t)
    case CheckReassign(t) => SweepCall(c, t)
    case CommitReassign(t, ranked, size) =>
      if t in c.txs && c.txs[t].ReassignReady? then
        Call(OpReassign(c.txs[t].rid, ranked, size, c.txs[t].now, c.txs[t].seen, c.txs[t].checked), false)
      else NO_CALL
    case CommitAssign(t) =>
      if t in c.txs && c.txs[t].Assigning? then Call(OpAssign(c.txs[t].job, c.txs[t].courier), false) else NO_CALL
    case Single(op) => Call(op, false)
    case _ => NO_CALL
  }

  const NO_CALL := Call(OpExpire(None, 0, 0), false)

  function SweepCall(c: Cluster, t: Id): Call {
    if t in c.txs && c.txs[t].Sweeping? then Call(OpExpire(c.txs[t].scope, c.txs[t].now, c.txs[t].seen), false) else NO_CALL
  }

  /** A commit writes only rows its transaction holds. */
  ghost predicate WritesOnly(a: Db, b: Db, tx: Tx) {
    && |a.offers| <= |b.offers| && |a.requests| <= |b.requests| && |a.jobs| <= |b.jobs|
    && (forall o: Id :: o < |a.offers| && !HoldsOffer(tx, o) ==> b.offers[o] == a.offers[o])
    && (forall r: Id :: r < |a.requests| && !HoldsRequest(a, tx, r) ==> b.requests[r] == a.requests[r])
    && (forall j: Id :: j < |a.jobs| && !HoldsJob(tx, j) ==> b.jobs[j] == a.jobs[j])
  }

  lemma AcceptEffect(db: Db, tx: Tx)
    requires tx.Declining? && Knows(db, tx) && tx.cursor >= tx.seen
    ensures var r := AcceptOffer(db, tx.now, tx.offer, db.offers[tx.offer].provider, tx.seen);
            r.error.None? && r.db == WonBy(db, tx.offer, tx.held)
    ensures WritesOnly(db, WonBy(db, tx.offer, tx.held), tx)
  {
    var offers := AwardedOffers(db.offers, tx.offer, tx.seen);
    var won := WonBy(db, tx.offer, tx.held);
    assert won.offers == offers by {
      forall i: Id | i < |db.offers| ensures won.offers[i] == offers[i] {
        if i < tx.seen {
          assert i in tx.held <==> IsRival(db.offers, i, tx.offer, tx.seen);
        }
      }
    }
  }

  lemma SweepEffect(db: Db, tx: Tx)
    requires tx.Sweeping? && Knows(db, tx) && tx.cursor >= tx.seen
    ensures Swept(db, tx.held) == ExpireOffers(db, tx.scope, tx.now, tx.seen).db
    ensures WritesOnly(db, Swept(db, tx.held), tx)
  {
    SweptIsLapsed(db, tx.scope, tx.now, tx.seen, tx.held);
  }

  lemma SweptIsLapsed(db: Db, scope: Option<Id>, now: int, seen: nat, held: set<Id>)
    requires LapsedHeld(db, scope, now, seen, seen, held)
    ensures Swept(db, held) == ExpireOffers(db, scope, now, seen).db
  {
    assert Swept(db, held).offers == LapsedOffers(db.offers, scope, now, seen);
  }

  /** A dispatch appends offers and writes no other request's row. */
  lemma DispatchWrites(db: Db, rid: Id, ranked: seq<Id>, size: nat, now: int)
    requires rid < |db.requests|
    ensures var db' := DispatchWave(db, rid, ranked, size, now).db;
            && |db'.offers| >= |db.offers| && db'.offers[..|db.offers|] == db.offers
            && |db'.requests| == |db.requests| && db'.jobs == db.jobs
            && (forall r: Id :: r < |db.requests| && r != rid ==> db'.requests[r] == db.requests[r])
  {
  }

  /** Lapsing more offers brings none back to life. */
  lemma SweepRevivesNothing(db: Db, held: set<Id>, rid: Id, now: int, checked: nat)
    requires !HasLiveOffer(db.offers, rid, now, checked)
    ensures !HasLiveOffer(Swept(db, held).offers, rid, now, checked)
  {
  }

  lemma ReassignEffect(db: Db, tx: Tx, ranked: seq<Id>, size: nat)
    requires Inv(db) && tx.ReassignReady? && Knows(db, tx)
    ensures Resent(db, tx.rid, tx.held, ranked, size, tx.now)
            == Reassign(db, tx.rid, ranked, size, tx.now, tx.seen, tx.checked).db
  {
    SweptIsLapsed(db, Some(tx.rid), tx.now, tx.seen, tx.held);
    SweepRevivesNothing(db, tx.held, tx.rid, tx.now, tx.checked);
    var swept := Swept(db, tx.held);
    ExpireKeeps(db, Some(tx.rid), tx.now, tx.seen);
    ReturnToSearch(swept, tx.rid);
    WaveNumberIsFresh(WithStatus(swept, tx.rid, Searching), tx.rid, ranked, size, tx.now);
  }

  lemma ReturnToSearch(db: Db, rid: Id)
    requires Inv(db) && rid < |db.requests| && db.requests[rid].status == Offered
    ensures Inv(WithStatus(db, rid, Searching))
  {
    assert RequestOk(db.requests[rid]);
    StatusMove(db, rid, Searching);
  }

  lemma ReassignWrites(db: Db, tx: Tx, ranked: seq<Id>, size: nat)
    requires tx.ReassignReady? && tx.rid < |db.requests|
    ensures WritesOnly(db, Resent(db, tx.rid, tx.held, ranked, size, tx.now), tx)
  {
    var searching := WithStatus(Swept(db, tx.held), tx.rid, Searching);
    DispatchWrites(searching, tx.rid, ranked, size, tx.now);
    var db' := Resent(db, tx.rid, tx.held, ranked, size, tx.now);
    forall o: Id | o < |db.offers| && !HoldsOffer(tx, o) ensures db'.offers[o] == db.offers[o] {
      assert db'.offers[..|searching.offers|][o] == searching.offers[o];
    }
  }

  // ----- keeping order -----

  lemma UndisturbedKeepOrder(c: Cluster, db: Db, txs: map<Id, Tx>)
    requires Orderly(c) && Inv(db) && Evolves(c.db, db)
    requires forall u :: u in txs ==> u in c.txs && txs[u] == c.txs[u] && LeavesAlone(c.db, db, txs[u])
    ensures Orderly(Cluster(db, txs))
  {
    forall u | u in txs
      ensures Knows(db, txs[u]) && forall r :: HoldsRequest(db, txs[u], r) <==> HoldsRequest(c.db, txs[u], r)
    {
      KnowledgeLasts(c.db, db, txs[u]);
    }
    forall u, v | u in txs && v in txs && u != v ensures Compatible(db, txs[u], txs[v]) {
      assert Compatible(c.db, txs[u], txs[v]);
    }
  }

  lemma OthersUndisturbed(c: Cluster, db: Db, t: Id)
    requires Orderly(c) && t in c.txs && Inv(db) && Evolves(c.db, db) && WritesOnly(c.db, db, c.txs[t])
    ensures Orderly(Cluster(db, c.txs - {t}))
  {
    forall u | u in c.txs && u != t ensures LeavesAlone(c.db, db, c.txs[u]) {
      assert Compatible(c.db, c.txs[t], c.txs[u]);
    }
    UndisturbedKeepOrder(c, db, c.txs - {t});
  }

  /** A transaction that starts, or locks one more row, keeps order when the rows it now holds
      were its own or free. */
  lemma NewHoldings(c: Cluster, t: Id, tx: Tx)
    requires Orderly(c) && Knows(c.db, tx)
    requires forall o, u :: u in c.txs && u != t && HoldsOffer(tx, o) ==> !HoldsOffer(c.txs[u], o)
    requires forall r, u :: u in c.txs && u != t && HoldsRequest(c.db, tx, r) ==> !HoldsRequest(c.db, c.txs[u], r)
    requires forall j, u :: u in c.txs && u != t && HoldsJob(tx, j) ==> !HoldsJob(c.txs[u], j)
    ensures Orderly(With(c, t, tx))
  {
  }

  lemma DroppedKeepsOrder(c: Cluster, t: Id)
    requires Orderly(c)
    ensures Orderly(Without(c, t))
  {
  }

  lemma {:induction false} InsertedKeepsPrefix(offers: seq<Offer>, rid: Id, found: seq<Id>, expires: int)
    ensures var r := InsertOffers(offers, rid, found, expires); |offers| <= |r| && r[..|offers|] == offers
    decreases |found|
  {
    if found != [] {
      var next := if HasOffer(offers, rid, found[0]) then offers
                  else offers + [Offer(rid, found[0], Pending, Some(expires), 1)];
      InsertedKeepsPrefix(next, rid, found[1..], expires);
      var r := InsertOffers(offers, rid, found, expires);
      assert r[..|next|] == next;
      assert r[..|offers|] == next[..|offers|];
    }
  }

  /** The existing rows an operation may write. */
  datatype Footprint = Footprint(offers: set<Id>, requests: set<Id>, jobs: set<Id>)

  function FootprintOf(db: Db, op: Op): Footprint {
    match op
    case OpReject(oid, _) => Footprint({oid}, {}, {})
    case OpTransition(rid, _) => Footprint({}, {rid}, {})
    case OpProviderTransition(_, rid, _) => Footprint({}, {rid}, {})
    case OpCancel(rid, _) => Footprint({}, {rid}, {})
    case OpDispatch(rid, _, _, _) => Footprint({}, {rid}, {})
    case OpCreateOffers(rid, _, _) =>
      Footprint({}, if rid < |db.requests| && db.requests[rid].status == Searching then {rid} else {}, {})
    case OpDeliver(jid, _, _) => Footprint({}, if jid < |db.jobs| then {db.jobs[jid].request} else {}, {jid})
    case OpProof(jid, _) => Footprint({}, {}, if jid < |db.jobs| && db.jobs[jid].status == InTransit then {jid} else {})
    case OpReceipt(jid, _) => Footprint({}, {}, if jid < |db.jobs| && db.jobs[jid].status == InTransit then {jid} else {})
    case _ => Footprint({}, {}, {})
  }

  ghost predicate Confined(a: Db, b: Db, f: Footprint) {
    && |a.offers| <= |b.offers| && |a.requests| <= |b.requests| && |a.jobs| <= |b.jobs|
    && (forall o: Id :: o < |a.offers| && o !in f.offers ==> b.offers[o] == a.offers[o])
    && (forall r: Id :: r < |a.requests| && r !in f.requests ==> b.requests[r] == a.requests[r])
    && (forall j: Id :: j < |a.jobs| && j !in f.jobs ==> b.jobs[j] == a.jobs[j])
  }

  ghost predicate IsSingle(op: Op) {
    !op.OpAccept? && !op.OpExpire? && !op.OpReassign? && !op.OpAssign?
  }

  lemma CreateOffersIsConfined(db: Db, rid: Id, found: seq<Id>, now: int)
    ensures Confined(db, CreateOffers(db, rid, found, now).db, Footprint({}, {rid}, {}))
  {
    InsertedKeepsPrefix(db.offers, rid, found, now + OFFER_TTL);
    var offers := InsertOffers(db.offers, rid, found, now + OFFER_TTL);
    assert forall o: Id :: o < |db.offers| ==> offers[..|db.offers|][o] == offers[o];
  }

  lemma CreateJobIsConfined(db: Db, order: Id, owner: Id, ranked: seq<Id>, now: int)
    ensures Confined(db, CreateJob(db, order, owner, ranked, now).db, Footprint({}, {}, {}))
  {
    if !HasJob(db.jobs, order) {
      var db1 := db.(requests := db.requests + [Request(owner, Searching, None, 1)],
                     jobs := db.jobs + [Job(|db.requests|, order, None, Unassigned, false, [Created])]);
      DispatchIsConfined(db1, |db.requests|, ranked, WAVE_SIZE, now);
    }
  }

  lemma DeliveryIsConfined(db: Db, op: Op)
    requires op.OpDeliver? || op.OpProof? || op.OpReceipt?
    ensures Confined(db, Execute(db, op).db, FootprintOf(db, op))
  {
  }

  lemma SingleIsConfined(db: Db, op: Op)
    requires IsSingle(op)
    ensures Confined(db, Execute(db, op).db, FootprintOf(db, op))
  {
    match op
    case OpDispatch(rid, ranked, size, now) => DispatchIsConfined(db, rid, ranked, size, now);
    case OpCreateOffers(rid, found, now) => CreateOffersIsConfined(db, rid, found, now);
    case OpCreateJob(order, owner, ranked, now) => CreateJobIsConfined(db, order, owner, ranked, now);
    case OpDeliver(_, _, _) => DeliveryIsConfined(db, op);
    case OpProof(_, _) => DeliveryIsConfined(db, op);
    case OpReceipt(_, _) => DeliveryIsConfined(db, op);
    case _ =>
  }

  lemma DispatchIsConfined(db: Db, rid: Id, ranked: seq<Id>, size: nat, now: int)
    ensures Confined(db, DispatchWave(db, rid, ranked, size, now).db, Footprint({}, {rid}, {}))
  {
    if rid < |db.requests| {
      DispatchWrites(db, rid, ranked, size, now);
      var db' := DispatchWave(db, rid, ranked, size, now).db;
      assert forall o: Id :: o < |db.offers| ==> db'.offers[..|db.offers|][o] == db'.offers[o];
    }
  }

  /** The rows a ready operation may write are held by nobody. */
  lemma FootprintIsFree(c: Cluster, op: Op, u: Id)
    requires Orderly(c) && SingleReady(c, op) && u in c.txs
    ensures var f := FootprintOf(c.db, op); var tx := c.txs[u];
            && (forall o :: o in f.offers ==> !HoldsOffer(tx, o))
            && (forall r :: r in f.requests ==> !HoldsRequest(c.db, tx, r))
            && (forall j :: j in f.jobs ==> !HoldsJob(tx, j))
  {
    assert Knows(c.db, c.txs[u]);
  }

  lemma SingleKeepsOrder(c: Cluster, op: Op)
    requires Orderly(c) && SingleReady(c, op)
    ensures Orderly(c.(db := Commit(c.db, Call(op, false))))
  {
    var db := Commit(c.db, Call(op, false));
    ExecuteKeeps(c.db, op);
    Same(c.db);
    SingleIsConfined(c.db, op);
    forall u | u in c.txs ensures LeavesAlone(c.db, db, c.txs[u]) {
      FootprintIsFree(c, op, u);
    }
    UndisturbedKeepOrder(c, db, c.txs);
  }

  // ----- refinement -----

  lemma BeginAcceptKeepsOrder(c: Cluster, t: Id, oid: Id, pid: Id, now: int)
    requires Orderly(c)
    ensures var c' := AfterBeginAccept(c, t, oid, pid, now); Orderly(c') && c'.db == c.db
  {
    var c' := AfterBeginAccept(c, t, oid, pid, now);
    if c' != c { NewHoldings(c, t, c'.txs[t]); }
  }

  lemma LockRequestKeepsOrder(c: Cluster, t: Id)
    requires Orderly(c)
    ensures Orderly(AfterLockRequest(c, t)) && AfterLockRequest(c, t).db == c.db
  {
    var c' := AfterLockRequest(c, t);
    if c' != c {
      assert Knows(c.db, c.txs[t]);
      if t in c'.txs { NewHoldings(c, t, c'.txs[t]); } else { DroppedKeepsOrder(c, t); }
    }
  }

  lemma BeginDeclineKeepsOrder(c: Cluster, t: Id)
    requires Orderly(c)
    ensures Orderly(AfterBeginDecline(c, t)) && AfterBeginDecline(c, t).db == c.db
  {
    if t in c.txs && c.txs[t].RequestLocked? {
      assert Knows(c.db, c.txs[t]);
      NewHoldings(c, t, Declining(c.txs[t].offer, c.txs[t].now, |c.db.offers|, 0, {}));
    }
  }

  lemma BeginAssignKeepsOrder(c: Cluster, t: Id, jid: Id, courier: Id)
    requires Orderly(c)
    ensures var c' := AfterBeginAssign(c, t, jid, courier); Orderly(c') && c'.db == c.db
  {
    var c' := AfterBeginAssign(c, t, jid, courier);
    if c' != c { NewHoldings(c, t, c'.txs[t]); }
  }

  /** A scanning transaction goes on holding what it held, and at most one free offer more. */
  lemma HoldsOneMore(c: Cluster, t: Id, tx: Tx)
    requires Orderly(c) && t in c.txs && Knows(c.db, tx)
    requires forall o :: HoldsOffer(tx, o) ==> HoldsOffer(c.txs[t], o) || OfferFree(c, o)
    requires forall r :: HoldsRequest(c.db, tx, r) ==> HoldsRequest(c.db, c.txs[t], r)
    requires forall j :: HoldsJob(tx, j) ==> HoldsJob(c.txs[t], j)
    ensures Orderly(With(c, t, tx))
  {
    forall o, u | u in c.txs && u != t && HoldsOffer(tx, o) ensures !HoldsOffer(c.txs[u], o) {
      assert Compatible(c.db, c.txs[t], c.txs[u]);
    }
    forall r, u | u in c.txs && u != t && HoldsRequest(c.db, tx, r) ensures !HoldsRequest(c.db, c.txs[u], r) {
      assert Compatible(c.db, c.txs[t], c.txs[u]);
    }
    forall j, u | u in c.txs && u != t && HoldsJob(tx, j) ensures !HoldsJob(c.txs[u], j) {
      assert Compatible(c.db, c.txs[t], c.txs[u]);
    }
    NewHoldings(c, t, tx);
  }

  /** A rejecting statement after one more row, with what it then holds. */
  function DeclineOn(tx: Tx, held: set<Id>): Tx
    requires tx.Declining?
  {
    Declining(tx.offer, tx.now, tx.seen, tx.cursor + 1, held)
  }

  lemma RivalsOneMore(db: Db, offer: Id, seen: nat, cursor: nat, before: set<Id>, held: set<Id>)
    requires RivalsHeld(db, offer, seen, cursor, before) && cursor < seen
    requires held == if IsRival(db.offers, cursor, offer, seen) then before + {cursor} else before
    ensures RivalsHeld(db, offer, seen, cursor + 1, held)
  {
    forall i: Id | i < cursor + 1 ensures i in held <==> IsRival(db.offers, i, offer, seen) {
      assert i < cursor || i == cursor;
    }
  }

  lemma DeclineKnowsOneMore(db: Db, tx: Tx, held: set<Id>)
    requires tx.Declining? && Knows(db, tx) && tx.cursor < tx.seen
    requires held == if IsRival(db.offers, tx.cursor, tx.offer, tx.seen) then tx.held + {tx.cursor} else tx.held
    ensures Knows(db, DeclineOn(tx, held))
  {
    RivalsOneMore(db, tx.offer, tx.seen, tx.cursor, tx.held, held);
  }

  /** The next row is locked if it is a rival and free, or passed by if it is none. */
  ghost predicate TakesRival(c: Cluster, t: Id, held: set<Id>) {
    && t in c.txs && c.txs[t].Declining? && c.txs[t].cursor < c.txs[t].seen
    && c.txs[t].cursor < |c.db.offers| && c.txs[t].offer < |c.db.offers|
    && var rival := IsRival(c.db.offers, c.txs[t].cursor, c.txs[t].offer, c.txs[t].seen);
       && held == (if rival then c.txs[t].held + {c.txs[t].cursor} else c.txs[t].held)
       && (rival ==> OfferFree(c, c.txs[t].cursor))
  }

  lemma ScanDeclineShape(c: Cluster, t: Id) returns (held: set<Id>)
    requires AfterScanDecline(c, t) != c
    ensures TakesRival(c, t, held) && AfterScanDecline(c, t) == With(c, t, DeclineOn(c.txs[t], held))
  {
    held := AfterScanDecline(c, t).txs[t].held;
  }

  lemma DeclinesOn(c: Cluster, t: Id, held: set<Id>)
    requires Orderly(c) && TakesRival(c, t, held)
    ensures Orderly(With(c, t, DeclineOn(c.txs[t], held)))
  {
    DeclineKnowsOneMore(c.db, c.txs[t], held);
    HoldsOneMore(c, t, DeclineOn(c.txs[t], held));
  }

  lemma ScanDeclineKeepsOrder(c: Cluster, t: Id)
    requires Orderly(c)
    ensures Orderly(AfterScanDecline(c, t)) && AfterScanDecline(c, t).db == c.db
  {
    if AfterScanDecline(c, t) != c {
      var held := ScanDeclineShape(c, t);
      DeclinesOn(c, t, held);
    }
  }

  lemma LapsedOneMore(db: Db, scope: Option<Id>, now: int, seen: nat, cursor: nat, before: set<Id>, held: set<Id>)
    requires LapsedHeld(db, scope, now, seen, cursor, before) && cursor < seen
    requires held == if IsLapsed(db.offers[cursor], scope, now) then before + {cursor} else before
    ensures LapsedHeld(db, scope, now, seen, cursor + 1, held)
  {
    forall i: Id | i < cursor + 1 ensures i in held <==> IsLapsed(db.offers[i], scope, now) {
      assert i < cursor || i == cursor;
    }
  }

  /** A sweep after one more row, with what it then holds. */
  function SweepOn(tx: Tx, held: set<Id>): Tx
    requires tx.Sweeping?
  {
    Sweeping(tx.scope, tx.now, tx.seen, tx.cursor + 1, held, tx.reassign)
  }

  lemma SweepKnowsOneMore(db: Db, tx: Tx, held: set<Id>)
    requires tx.Sweeping? && Knows(db, tx) && tx.cursor < tx.seen
    requires held == if IsLapsed(db.offers[tx.cursor], tx.scope, tx.now) then tx.held + {tx.cursor} else tx.held
    ensures Knows(db, SweepOn(tx, held))
  {
    LapsedOneMore(db, tx.scope, tx.now, tx.seen, tx.cursor, tx.held, held);
  }

  /** The next row of the sweep is taken over if it has lapsed and is free, or passed by. */
  ghost predicate TakesNext(c: Cluster, t: Id, held: set<Id>) {
    && t in c.txs && c.txs[t].Sweeping? && c.txs[t].cursor < c.txs[t].seen && c.txs[t].cursor < |c.db.offers|
    && var lapsed := IsLapsed(c.db.offers[c.txs[t].cursor], c.txs[t].scope, c.txs[t].now);
       && held == (if lapsed then c.txs[t].held + {c.txs[t].cursor} else c.txs[t].held)
       && (lapsed ==> OfferFree(c, c.txs[t].cursor))
  }

  lemma ScanSweepShape(c: Cluster, t: Id) returns (held: set<Id>)
    requires AfterScanSweep(c, t) != c
    ensures TakesNext(c, t, held) && AfterScanSweep(c, t) == With(c, t, SweepOn(c.txs[t], held))
  {
    held := AfterScanSweep(c, t).txs[t].held;
  }

  lemma SweepsOn(c: Cluster, t: Id, held: set<Id>)
    requires Orderly(c) && TakesNext(c, t, held)
    ensures Orderly(With(c, t, SweepOn(c.txs[t], held)))
  {
    SweepKnowsOneMore(c.db, c.txs[t], held);
    HoldsOneMore(c, t, SweepOn(c.txs[t], held));
  }

  lemma ScanSweepKeepsOrder(c: Cluster, t: Id)
    requires Orderly(c)
    ensures Orderly(AfterScanSweep(c, t)) && AfterScanSweep(c, t).db == c.db
  {
    if AfterScanSweep(c, t) != c {
      var held := ScanSweepShape(c, t);
      SweepsOn(c, t, held);
    }
  }

  lemma CommitAcceptKeepsOrder(c: Cluster, t: Id)
    requires Orderly(c) && AfterCommitAccept(c, t) != c
    ensures var c' := AfterCommitAccept(c, t); var tx := c.txs[t];
            var r := AcceptOffer(c.db, tx.now, tx.offer, c.db.offers[tx.offer].provider, tx.seen);
            Orderly(c') && r.error.None? && c'.db == r.db
  {
    var tx := c.txs[t];
    assert Knows(c.db, tx);
    AcceptEffect(c.db, tx);
    AwardKeeps(c.db, tx.offer, tx.seen);
    OthersUndisturbed(c, WonBy(c.db, tx.offer, tx.held), t);
  }

  lemma CommitLapseKeepsOrder(c: Cluster, t: Id)
    requires Orderly(c) && AfterCommitLapse(c, t) != c
    ensures var c' := AfterCommitLapse(c, t); var tx := c.txs[t];
            Orderly(c') && c'.db == AcceptOffer(c.db, tx.now, tx.offer, c.db.offers[tx.offer].provider, 0).db
  {
    var tx := c.txs[t];
    assert Knows(c.db, tx);
    OfferLapses(c.db, tx.offer, Lapsed);
    OthersUndisturbed(c, AfterCommitLapse(c, t).db, t);
  }

  lemma SweepKeepsOrder(c: Cluster, t: Id)
    requires Orderly(c) && t in c.txs && c.txs[t].Sweeping? && c.txs[t].cursor >= c.txs[t].seen
    ensures Orderly(Cluster(Swept(c.db, c.txs[t].held), c.txs - {t}))
    ensures Swept(c.db, c.txs[t].held) == ExpireOffers(c.db, c.txs[t].scope, c.txs[t].now, c.txs[t].seen).db
  {
    var tx := c.txs[t];
    assert Knows(c.db, tx);
    SweepEffect(c.db, tx);
    ExpireKeeps(c.db, tx.scope, tx.now, tx.seen);
    OthersUndisturbed(c, Swept(c.db, tx.held), t);
  }

  lemma CheckKeepsOrder(c: Cluster, t: Id)
    requires Orderly(c) && AfterCheckReassign(c, t) != c
    ensures var c' := AfterCheckReassign(c, t); var tx := c.txs[t];
            Orderly(c') && tx.Sweeping? && (c'.db == c.db || c'.db == ExpireOffers(c.db, tx.scope, tx.now, tx.seen).db)
  {
    var c' := AfterCheckReassign(c, t);
    SweepKeepsOrder(c, t);
    if t in c'.txs {
      CheckPasses(c, t);
    }
  }

  lemma CheckPasses(c: Cluster, t: Id)
    requires Orderly(c) && t in c.txs && t in AfterCheckReassign(c, t).txs
    ensures Orderly(AfterCheckReassign(c, t))
  {
    var c' := AfterCheckReassign(c, t);
    if c' != c {
      assert Knows(c.db, c.txs[t]);
      LiveOffersWereNotHeld(c.db, c.txs[t]);
      NewHoldings(c, t, c'.txs[t]);
    }
  }

  /** A sweep holds only expired offers, so it hides no live one from the count. */
  lemma LiveOffersWereNotHeld(db: Db, tx: Tx)
    requires tx.Sweeping? && tx.scope.Some? && Knows(db, tx) && tx.cursor >= tx.seen
    requires !HasLiveOffer(Swept(db, tx.held).offers, tx.scope.value, tx.now, |db.offers|)
    ensures !HasLiveOffer(db.offers, tx.scope.value, tx.now, |db.offers|)
  {
    assert forall i: Id :: i < |db.offers| && i !in tx.held ==> Swept(db, tx.held).offers[i] == db.offers[i];
  }

  lemma ReassignKeepsOrder(c: Cluster, t: Id, ranked: seq<Id>, size: nat)
    requires Orderly(c) && AfterCommitReassign(c, t, ranked, size) != c
    ensures var c' := AfterCommitReassign(c, t, ranked, size); var tx := c.txs[t];
            var r := Reassign(c.db, tx.rid, ranked, size, tx.now, tx.seen, tx.checked);
            Orderly(c') && r.error.None? && c'.db == r.db
  {
    var tx := c.txs[t];
    assert Knows(c.db, tx);
    ReassignKeeps(c.db, tx.rid, ranked, size, tx.now, tx.seen, tx.checked);
    ReassignEffect(c.db, tx, ranked, size);
    ReassignWrites(c.db, tx, ranked, size);
    OthersUndisturbed(c, Resent(c.db, tx.rid, tx.held, ranked, size, tx.now), t);
  }

  lemma AssignSpares(c: Cluster, t: Id, u: Id)
    requires Orderly(c) && t in c.txs && c.txs[t].Assigning? && u in c.txs && u != t
    requires c.txs[t].job < |c.db.jobs| && RequestFree(c, c.db.jobs[c.txs[t].job].request)
    ensures LeavesAlone(c.db, AssignCourier(c.db, c.txs[t].job, c.txs[t].courier).db, c.txs[u])
  {
    AssignKeeps(c.db, c.txs[t].job, c.txs[t].courier);
    assert Compatible(c.db, c.txs[t], c.txs[u]);
    assert HoldsJob(c.txs[t], c.txs[t].job);
  }

  lemma AssignKeepsOrder(c: Cluster, t: Id)
    requires Orderly(c)
    ensures Orderly(AfterCommitAssign(c, t))
  {
    if AfterCommitAssign(c, t) != c {
      AssignLeavesOthers(c, t);
    }
  }

  lemma AssignLeavesOthers(c: Cluster, t: Id)
    requires Orderly(c) && t in c.txs && c.txs[t].Assigning?
    requires c.txs[t].job < |c.db.jobs| && RequestFree(c, c.db.jobs[c.txs[t].job].request)
    ensures Orderly(Cluster(AssignCourier(c.db, c.txs[t].job, c.txs[t].courier).db, c.txs - {t}))
  {
    var db := AssignCourier(c.db, c.txs[t].job, c.txs[t].courier).db;
    AssignKeeps(c.db, c.txs[t].job, c.txs[t].courier);
    forall u | u in c.txs && u != t ensures LeavesAlone(c.db, db, c.txs[u]) {
      AssignSpares(c, t, u);
    }
    UndisturbedKeepOrder(c, db, c.txs - {t});
  }

  /** The committed tables are as before, or as the sequential call leaves them. */
  ghost predicate Follows(a: Db, b: Db, call: Call) {
    b == a || b == Commit(a, call)
  }

  predicate WritesTables(step: Step) {
    step.CommitAccept? || step.CommitLapse? || step.CommitSweep? || step.CheckReassign? || step.CommitReassign?
    || step.CommitAssign? || step.Single?
  }

  lemma LockingKeepsOrder(c: Cluster, step: Step)
    requires Orderly(c) && !WritesTables(step) && Next(c, step) != c
    ensures Orderly(Next(c, step))
  {
    match step
    case BeginAccept(t, oid, pid, now) => BeginAcceptKeepsOrder(c, t, oid, pid, now);
    case LockRequest(t) => LockRequestKeepsOrder(c, t);
    case BeginDecline(t) => BeginDeclineKeepsOrder(c, t);
    case ScanDecline(t) => ScanDeclineKeepsOrder(c, t);
    case BeginSweep(t, scope, now) => NewHoldings(c, t, Sweeping(scope, now, |c.db.offers|, 0, {}, false));
    case BeginReassign(t, rid, now) => NewHoldings(c, t, Sweeping(Some(rid), now, |c.db.offers|, 0, {}, true));
    case ScanSweep(t) => ScanSweepKeepsOrder(c, t);
    case BeginAssign(t, jid, courier) => BeginAssignKeepsOrder(c, t, jid, courier);
    case Abort(t) => DroppedKeepsOrder(c, t);
  }

  lemma AnsweringKeepsOrder(c: Cluster, step: Step)
    requires Orderly(c) && (step.CommitAccept? || step.CommitLapse? || step.CommitSweep?) && Next(c, step) != c
    ensures Orderly(Next(c, step))
  {
    match step
    case CommitAccept(t) => CommitAcceptKeepsOrder(c, t);
    case CommitLapse(t) => CommitLapseKeepsOrder(c, t);
    case CommitSweep(t) => SweepKeepsOrder(c, t);
  }

  lemma ReassigningKeepsOrder(c: Cluster, step: Step)
    requires Orderly(c) && (step.CheckReassign? || step.CommitReassign?) && Next(c, step) != c
    ensures Orderly(Next(c, step))
  {
    match step
    case CheckReassign(t) => CheckKeepsOrder(c, t);
    case CommitReassign(t, ranked, size) => ReassignKeepsOrder(c, t, ranked, size);
  }

  lemma AfterSingleKeepsOrder(c: Cluster, op: Op)
    requires Orderly(c)
    ensures Orderly(AfterSingle(c, op))
  {
    if SingleReady(c, op) { SingleKeepsOrder(c, op); }
  }

  lemma WritingKeepsOrder(c: Cluster, step: Step)
    requires Orderly(c) && WritesTables(step) && Next(c, step) != c
    ensures Orderly(Next(c, step))
  {
    match step
    case CommitAssign(t) => AssignKeepsOrder(c, t);
    case Single(op) => AfterSingleKeepsOrder(c, op);
    case CheckReassign(_) => ReassigningKeepsOrder(c, step);
    case CommitReassign(_, _, _) => ReassigningKeepsOrder(c, step);
    case _ => AnsweringKeepsOrder(c, step);
  }

  /** Whatever the interleaving, locks stay exclusive and what transactions know of their rows stays true. */
  lemma EveryStepKeepsOrder(c: Cluster, step: Step)
    requires Orderly(c)
    ensures Orderly(Next(c, step))
  {
    if Next(c, step) != c {
      if WritesTables(step) { WritingKeepsOrder(c, step); } else { LockingKeepsOrder(c, step); }
    }
  }

  // Which sequential call each commit amounts to, read off its effect.

  lemma ExpiryFollows(c: Cluster, db: Db, t: Id)
    requires t in c.txs && c.txs[t].Sweeping?
    requires db == c.db || db == ExpireOffers(c.db, c.txs[t].scope, c.txs[t].now, c.txs[t].seen).db
    ensures Follows(c.db, db, SweepCall(c, t))
  {
  }

  lemma AcceptFollows(c: Cluster, db: Db, t: Id)
    requires t in c.txs && c.txs[t].Declining? && c.txs[t].offer < |c.db.offers|
    requires var tx := c.txs[t]; var r := AcceptOffer(c.db, tx.now, tx.offer, c.db.offers[tx.offer].provider, tx.seen);
             r.error.None? && db == r.db
    ensures Follows(c.db, db, CallOf(c, CommitAccept(t)))
  {
  }

  lemma LapseFollows(c: Cluster, db: Db, t: Id)
    requires t in c.txs && c.txs[t].Lapsing? && c.txs[t].offer < |c.db.offers|
    requires var tx := c.txs[t]; db == AcceptOffer(c.db, tx.now, tx.offer, c.db.offers[tx.offer].provider, 0).db
    ensures Follows(c.db, db, CallOf(c, CommitLapse(t)))
  {
  }

  lemma ReassignFollows(c: Cluster, db: Db, t: Id, ranked: seq<Id>, size: nat)
    requires t in c.txs && c.txs[t].ReassignReady?
    requires var tx := c.txs[t]; var r := Reassign(c.db, tx.rid, ranked, size, tx.now, tx.seen, tx.checked);
             r.error.None? && db == r.db
    ensures Follows(c.db, db, CallOf(c, CommitReassign(t, ranked, size)))
  {
  }

  lemma AssignFollows(c: Cluster, t: Id)
    requires t in c.txs && c.txs[t].Assigning? ==> Knows(c.db, c.txs[t])
    ensures Follows(c.db, AfterCommitAssign(c, t).db, CallOf(c, CommitAssign(t)))
  {
  }

  lemma LockingWritesNothing(c: Cluster, step: Step)
    requires Orderly(c) && !WritesTables(step)
    ensures Next(c, step).db == c.db
  {
    match step
    case LockRequest(t) => LockRequestKeepsOrder(c, t);
    case ScanDecline(t) => ScanDeclineKeepsOrder(c, t);
    case ScanSweep(t) => ScanSweepKeepsOrder(c, t);
    case _ =>
  }

  /** A step either leaves the committed tables alone or changes them exactly as one
      sequential operation would. */
  lemma EveryStepRefines(c: Cluster, step: Step)
    requires Orderly(c)
    ensures Follows(c.db, Next(c, step).db, CallOf(c, step))
  {
    var db := Next(c, step).db;
    if !WritesTables(step) {
      LockingWritesNothing(c, step);
    } else if Next(c, step) != c {
      match step
      case CommitAccept(t) => CommitAcceptKeepsOrder(c, t); AcceptFollows(c, db, t);
      case CommitLapse(t) => CommitLapseKeepsOrder(c, t); LapseFollows(c, db, t);
      case CommitSweep(t) => SweepKeepsOrder(c, t); ExpiryFollows(c, db, t);
      case CheckReassign(t) => CheckKeepsOrder(c, t); ExpiryFollows(c, db, t);
      case CommitReassign(t, ranked, size) => ReassignKeepsOrder(c, t, ranked, size); ReassignFollows(c, db, t, ranked, size);
      case CommitAssign(t) => AssignFollows(c, t);
      case Single(op) =>
    }
  }

  ghost function RunSteps(c: Cluster, steps: seq<Step>): Cluster
    decreases |steps|
  {
    if steps == [] then c else RunSteps(Next(c, steps[0]), steps[1..])
  }

  /** The sequential schedule an interleaving amounts to: its commits, in commit order. */
  ghost function Serial(c: Cluster, steps: seq<Step>): seq<Call>
    decreases |steps|
  {
    if steps == [] then []
    else
      var next := Next(c, steps[0]);
      (if next.db == c.db then [] else [CallOf(c, steps[0])]) + Serial(next, steps[1..])
  }

  lemma RunAfter(a: Db, b: Db, call: Call, rest: seq<Call>)
    requires b == a || b == Commit(a, call)
    ensures Run(a, (if b == a then [] else [call]) + rest) == Run(b, rest)
  {
    if b == a {
      assert [] + rest == rest;
    } else {
      assert ([call] + rest)[1..] == rest;
    }
  }

  /** Every interleaving is serializable in commit order: the committed tables are those of
      the sequential run of its commits. */
  lemma {:induction false} InterleavingsSerialize(c: Cluster, steps: seq<Step>)
    requires Orderly(c)
    ensures Orderly(RunSteps(c, steps))
    ensures RunSteps(c, steps).db == Run(c.db, Serial(c, steps))
    decreases |steps|
  {
    if steps != [] {
      var next := Next(c, steps[0]);
      EveryStepKeepsOrder(c, steps[0]);
      EveryStepRefines(c, steps[0]);
      InterleavingsSerialize(next, steps[1..]);
      RunAfter(c.db, next.db, CallOf(c, steps[0]), Serial(next, steps[1..]));
    }
  }

  /** In every interleaving a request has at most one awarded offer, whose provider is the
      request's, and an answered offer is never answered again. */
  lemma ConcurrentAcceptsAreSafe(steps: seq<Step>, more: seq<Step>)
    ensures var c := RunSteps(Cluster(EmptyDb, map[]), steps);
            && (forall i: Id, j: Id ::
                  (&& i < |c.db.offers| && j < |c.db.offers| && c.db.offers[i].request == c.db.offers[j].request
                   && c.db.offers[i].status == Awarded && c.db.offers[j].status == Awarded)
                  ==> i == j)
            && (forall i: Id :: i < |c.db.offers| && c.db.offers[i].status == Awarded ==>
                  && c.db.offers[i].request < |c.db.requests|
                  && c.db.requests[c.db.offers[i].request].provider == Some(c.db.offers[i].provider))
            && (forall i: Id :: i < |c.db.offers| && c.db.offers[i].status != Pending ==>
                  i < |RunSteps(c, more).db.offers| && RunSteps(c, more).db.offers[i] == c.db.offers[i])
  {
    var start := Cluster(EmptyDb, map[]);
    InterleavingsSerialize(start, steps);
    var c := RunSteps(start, steps);
    InterleavingsSerialize(c, more);
    RunKeeps(c.db, Serial(c, more));
    forall i: Id | i < |c.db.offers|
      ensures OfferOk(c.db.requests, c.db.offers[i])
      ensures i < |RunSteps(c, more).db.offers| && OfferEvolves(c.db.offers[i], RunSteps(c, more).db.offers[i])
    {
    }
  }
}
