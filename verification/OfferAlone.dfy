/** Progress: a locked protocol that nobody is in the way of never waits, and it does exactly what
    the function does in one piece. */
module OfferAlone {
  import opened Prelude
  import opened Marketplace
  import opened MarketplaceRuns
  import opened OfferLocks

  // ----- an accept -----

  function Scans(t: Id, n: nat): seq<Step> {
    if n == 0 then [] else [ScanDecline(t)] + Scans(t, n - 1)
  }

  lemma {:induction false} RunStepsSplits(c: Cluster, a: seq<Step>, b: seq<Step>)
    ensures RunSteps(c, a + b) == RunSteps(RunSteps(c, a), b)
    decreases |a|
  {
    if a == [] {
      assert a + b == b;
    } else {
      assert (a + b)[1..] == a[1..] + b;
      RunStepsSplits(Next(c, a[0]), a[1..], b);
    }
  }

  /** The only transaction. */
  function Alone(db: Db, t: Id, tx: Tx): Cluster {
    Cluster(db, map[t := tx])
  }

  ghost predicate DecliningAt(db: Db, tx: Tx, offer: Id, now: int, cursor: nat) {
    && tx.Declining? && tx.offer == offer && tx.now == now && tx.seen == |db.offers| && tx.cursor == cursor
    && Knows(db, tx)
  }

  /** Alone, a scan never waits: whatever it meets it takes or passes by. */
  lemma ScanOne(db: Db, t: Id, tx: Tx, offer: Id, now: int, cursor: nat) returns (next: Tx)
    requires DecliningAt(db, tx, offer, now, cursor) && cursor < |db.offers|
    ensures DecliningAt(db, next, offer, now, cursor + 1)
    ensures Next(Alone(db, t, tx), ScanDecline(t)) == Alone(db, t, next)
  {
    var held := if IsRival(db.offers, cursor, offer, tx.seen) then tx.held + {cursor} else tx.held;
    next := DeclineOn(tx, held);
    DeclineKnowsOneMore(db, tx, held);
    assert !IsRival(db.offers, cursor, offer, tx.seen) || OfferFree(Alone(db, t, tx), cursor);
    assert map[t := tx][t := next] == map[t := next];
  }

  lemma FirstScan(c: Cluster, t: Id, n: nat)
    requires n > 0
    ensures RunSteps(c, Scans(t, n)) == RunSteps(Next(c, ScanDecline(t)), Scans(t, n - 1))
  {
    assert Scans(t, n)[1..] == Scans(t, n - 1);
  }

  lemma {:induction false} ScanAll(db: Db, t: Id, tx: Tx, offer: Id, now: int, left: nat) returns (last: Tx)
    requires left <= |db.offers| && DecliningAt(db, tx, offer, now, |db.offers| - left)
    ensures DecliningAt(db, last, offer, now, |db.offers|)
    ensures RunSteps(Alone(db, t, tx), Scans(t, left)) == Alone(db, t, last)
    decreases left
  {
    if left == 0 {
      last := tx;
    } else {
      var next := ScanOne(db, t, tx, offer, now, |db.offers| - left);
      last := ScanAll(db, t, next, offer, now, left - 1);
      FirstScan(Alone(db, t, tx), t, left);
    }
  }

  lemma OneStep(c: Cluster, step: Step)
    ensures RunSteps(c, [step]) == Next(c, step)
  {
    assert RunSteps(Next(c, step), []) == Next(c, step);
  }

  /** The three locking steps of an accept that nobody else is in the way of. */
  lemma AcceptOpens(db: Db, t: Id, oid: Id, pid: Id, now: int)
    requires AcceptOffer(db, now, oid, pid, |db.offers|).error.None?
    ensures AfterBeginDecline(AfterLockRequest(AfterBeginAccept(Cluster(db, map[]), t, oid, pid, now), t), t)
            == Alone(db, t, Declining(oid, now, |db.offers|, 0, {}))
    ensures DecliningAt(db, Declining(oid, now, |db.offers|, 0, {}), oid, now, 0)
  {
    assert AfterBeginAccept(Cluster(db, map[]), t, oid, pid, now) == Alone(db, t, OfferLocked(oid, now));
    assert AfterLockRequest(Alone(db, t, OfferLocked(oid, now)), t) == Alone(db, t, RequestLocked(oid, now));
  }

  lemma AcceptCloses(db: Db, t: Id, tx: Tx, oid: Id, pid: Id, now: int)
    requires DecliningAt(db, tx, oid, now, |db.offers|) && oid < |db.offers| && db.offers[oid].provider == pid
    ensures Next(Alone(db, t, tx), CommitAccept(t)) == Cluster(AcceptOffer(db, now, oid, pid, |db.offers|).db, map[])
  {
    AcceptEffect(db, tx);
    assert map[t := tx] - {t} == map[];
  }

  lemma OneMoreStep(c: Cluster, steps: seq<Step>, step: Step)
    ensures RunSteps(c, steps + [step]) == Next(RunSteps(c, steps), step)
  {
    RunStepsSplits(c, steps, [step]);
    OneStep(RunSteps(c, steps), step);
  }

  /** The steps of one accept: three locking steps, a scan of every offer, and the commit. */
  function Opening(t: Id, oid: Id, pid: Id, now: int): seq<Step> {
    [BeginAccept(t, oid, pid, now)] + [LockRequest(t)] + [BeginDecline(t)]
  }

  function AcceptSteps(t: Id, oid: Id, pid: Id, now: int, offers: nat): seq<Step> {
    Opening(t, oid, pid, now) + Scans(t, offers) + [CommitAccept(t)]
  }

  lemma OpeningRun(c: Cluster, t: Id, oid: Id, pid: Id, now: int)
    ensures RunSteps(c, Opening(t, oid, pid, now)) == AfterBeginDecline(AfterLockRequest(AfterBeginAccept(c, t, oid, pid, now), t), t)
  {
    var a, b := [BeginAccept(t, oid, pid, now)], LockRequest(t);
    assert RunSteps(c, a) == AfterBeginAccept(c, t, oid, pid, now) by { OneStep(c, a[0]); }
    assert RunSteps(c, a + [b]) == AfterLockRequest(AfterBeginAccept(c, t, oid, pid, now), t) by { OneMoreStep(c, a, b); }
    OneMoreStep(c, a + [b], BeginDecline(t));
  }

  lemma ScannedRun(db: Db, t: Id, oid: Id, pid: Id, now: int) returns (tx: Tx)
    requires AcceptOffer(db, now, oid, pid, |db.offers|).error.None?
    ensures DecliningAt(db, tx, oid, now, |db.offers|)
    ensures RunSteps(Cluster(db, map[]), Opening(t, oid, pid, now) + Scans(t, |db.offers|)) == Alone(db, t, tx)
  {
    OpeningRun(Cluster(db, map[]), t, oid, pid, now);
    AcceptOpens(db, t, oid, pid, now);
    tx := ScanAll(db, t, Declining(oid, now, |db.offers|, 0, {}), oid, now, |db.offers|);
    RunStepsSplits(Cluster(db, map[]), Opening(t, oid, pid, now), Scans(t, |db.offers|));
  }

  /** Alone, the locked protocol never waits and does exactly what accept_offer does in one
      piece, with every offer visible to the rejecting statement. */
  lemma UncontendedAccept(db: Db, t: Id, oid: Id, pid: Id, now: int)
    requires AcceptOffer(db, now, oid, pid, |db.offers|).error.None?
    ensures RunSteps(Cluster(db, map[]), AcceptSteps(t, oid, pid, now, |db.offers|))
            == Cluster(AcceptOffer(db, now, oid, pid, |db.offers|).db, map[])
  {
    var tx := ScannedRun(db, t, oid, pid, now);
    OneMoreStep(Cluster(db, map[]), Opening(t, oid, pid, now) + Scans(t, |db.offers|), CommitAccept(t));
    AcceptCloses(db, t, tx, oid, pid, now);
  }

  /** And an accept that finds its offer expired marks it so. */
  lemma UncontendedLapse(db: Db, t: Id, oid: Id, pid: Id, now: int)
    requires AcceptOffer(db, now, oid, pid, |db.offers|).error == Some(OfferExpired)
    ensures RunSteps(Cluster(db, map[]), [BeginAccept(t, oid, pid, now)] + [CommitLapse(t)])
            == Cluster(AcceptOffer(db, now, oid, pid, |db.offers|).db, map[])
  {
    var c := Cluster(db, map[]);
    OneStep(c, BeginAccept(t, oid, pid, now));
    OneMoreStep(c, [BeginAccept(t, oid, pid, now)], CommitLapse(t));
    assert AfterBeginAccept(c, t, oid, pid, now) == Alone(db, t, Lapsing(oid, now));
    assert map[t := Lapsing(oid, now)] - {t} == map[];
  }

  // ----- an expiry sweep and a reassignment -----

  function SweepScans(t: Id, n: nat): seq<Step> {
    if n == 0 then [] else [ScanSweep(t)] + SweepScans(t, n - 1)
  }

  ghost predicate SweepingAt(db: Db, tx: Tx, scope: Option<Id>, now: int, cursor: nat, reassign: bool) {
    && tx.Sweeping? && tx.scope == scope && tx.now == now && tx.seen == |db.offers| && tx.cursor == cursor
    && tx.reassign == reassign && Knows(db, tx)
  }

  lemma SweepOne(db: Db, t: Id, tx: Tx, scope: Option<Id>, now: int, cursor: nat, reassign: bool) returns (next: Tx)
    requires SweepingAt(db, tx, scope, now, cursor, reassign) && cursor < |db.offers|
    ensures SweepingAt(db, next, scope, now, cursor + 1, reassign)
    ensures Next(Alone(db, t, tx), ScanSweep(t)) == Alone(db, t, next)
  {
    var held := if IsLapsed(db.offers[cursor], scope, now) then tx.held + {cursor} else tx.held;
    next := SweepOn(tx, held);
    SweepKnowsOneMore(db, tx, held);
    assert !IsLapsed(db.offers[cursor], scope, now) || OfferFree(Alone(db, t, tx), cursor);
    assert map[t := tx][t := next] == map[t := next];
  }

  lemma FirstSweep(c: Cluster, t: Id, n: nat)
    requires n > 0
    ensures RunSteps(c, SweepScans(t, n)) == RunSteps(Next(c, ScanSweep(t)), SweepScans(t, n - 1))
  {
    assert SweepScans(t, n)[1..] == SweepScans(t, n - 1);
  }

  lemma {:induction false} SweepAll(db: Db, t: Id, tx: Tx, scope: Option<Id>, now: int, reassign: bool, left: nat) returns (last: Tx)
    requires left <= |db.offers| && SweepingAt(db, tx, scope, now, |db.offers| - left, reassign)
    ensures SweepingAt(db, last, scope, now, |db.offers|, reassign)
    ensures RunSteps(Alone(db, t, tx), SweepScans(t, left)) == Alone(db, t, last)
    decreases left
  {
    if left == 0 {
      last := tx;
    } else {
      var next := SweepOne(db, t, tx, scope, now, |db.offers| - left, reassign);
      last := SweepAll(db, t, next, scope, now, reassign, left - 1);
      FirstSweep(Alone(db, t, tx), t, left);
    }
  }

  lemma SweptRun(db: Db, t: Id, begin: Step, scope: Option<Id>, now: int, reassign: bool) returns (tx: Tx)
    requires Next(Cluster(db, map[]), begin) == Alone(db, t, Sweeping(scope, now, |db.offers|, 0, {}, reassign))
    requires reassign ==> scope.Some?
    ensures SweepingAt(db, tx, scope, now, |db.offers|, reassign)
    ensures RunSteps(Cluster(db, map[]), [begin] + SweepScans(t, |db.offers|)) == Alone(db, t, tx)
  {
    OneStep(Cluster(db, map[]), begin);
    tx := SweepAll(db, t, Sweeping(scope, now, |db.offers|, 0, {}, reassign), scope, now, reassign, |db.offers|);
    RunStepsSplits(Cluster(db, map[]), [begin], SweepScans(t, |db.offers|));
  }

  lemma SweepCloses(db: Db, t: Id, tx: Tx, scope: Option<Id>, now: int)
    requires SweepingAt(db, tx, scope, now, |db.offers|, false)
    ensures Next(Alone(db, t, tx), CommitSweep(t)) == Cluster(ExpireOffers(db, scope, now, |db.offers|).db, map[])
  {
    SweepEffect(db, tx);
    assert map[t := tx] - {t} == map[];
  }

  /** Alone, a sweep lapses exactly what expire_offers lapses. */
  lemma UncontendedSweep(db: Db, t: Id, scope: Option<Id>, now: int)
    ensures RunSteps(Cluster(db, map[]), [BeginSweep(t, scope, now)] + SweepScans(t, |db.offers|) + [CommitSweep(t)])
            == Cluster(ExpireOffers(db, scope, now, |db.offers|).db, map[])
  {
    var tx := SweptRun(db, t, BeginSweep(t, scope, now), scope, now, false);
    SweepCloses(db, t, tx, scope, now);
    OneMoreStep(Cluster(db, map[]), [BeginSweep(t, scope, now)] + SweepScans(t, |db.offers|), CommitSweep(t));
  }

  /** Still offered, and with no live offer left. */
  predicate GoesOn(db: Db, tx: Tx, rid: Id)
    requires tx.Sweeping?
  {
    rid < |db.requests| && db.requests[rid].status == Offered && !HasLiveOffer(Swept(db, tx.held).offers, rid, tx.now, |db.offers|)
  }

  lemma ChecksAndEnds(db: Db, t: Id, tx: Tx, rid: Id)
    requires tx.Sweeping? && tx.reassign && tx.scope == Some(rid) && tx.cursor >= tx.seen && !GoesOn(db, tx, rid)
    ensures Next(Alone(db, t, tx), CheckReassign(t)) == Cluster(Swept(db, tx.held), map[])
  {
    assert RequestFree(Alone(db, t, tx), rid);
    assert map[t := tx] - {t} == map[];
  }

  lemma ChecksAndGoesOn(db: Db, t: Id, tx: Tx, rid: Id)
    requires tx.Sweeping? && tx.reassign && tx.scope == Some(rid) && tx.cursor >= tx.seen && GoesOn(db, tx, rid)
    ensures Next(Alone(db, t, tx), CheckReassign(t)) == Alone(db, t, ReassignReady(rid, tx.now, tx.seen, tx.held, |db.offers|))
  {
    assert RequestFree(Alone(db, t, tx), rid);
    assert map[t := tx][t := ReassignReady(rid, tx.now, tx.seen, tx.held, |db.offers|)]
           == map[t := ReassignReady(rid, tx.now, tx.seen, tx.held, |db.offers|)];
  }

  lemma CommitsResent(db: Db, t: Id, tx: Tx, ranked: seq<Id>, size: nat)
    requires tx.ReassignReady? && tx.rid < |db.requests|
    ensures Next(Alone(db, t, tx), CommitReassign(t, ranked, size)) == Cluster(Resent(db, tx.rid, tx.held, ranked, size, tx.now), map[])
  {
    assert map[t := tx] - {t} == map[];
  }

  lemma EndsAsReassign(db: Db, tx: Tx, rid: Id, ranked: seq<Id>, size: nat, now: int)
    requires SweepingAt(db, tx, Some(rid), now, |db.offers|, true) && !GoesOn(db, tx, rid)
    ensures Swept(db, tx.held) == Reassign(db, rid, ranked, size, now, |db.offers|, |db.offers|).db
  {
    SweepEffect(db, tx);
  }

  lemma GoesOnAsReassign(db: Db, tx: Tx, rid: Id, ranked: seq<Id>, size: nat, now: int)
    requires Inv(db) && SweepingAt(db, tx, Some(rid), now, |db.offers|, true) && GoesOn(db, tx, rid)
    ensures Resent(db, rid, tx.held, ranked, size, now) == Reassign(db, rid, ranked, size, now, |db.offers|, |db.offers|).db
  {
    LiveOffersWereNotHeld(db, tx);
    ReassignEffect(db, ReassignReady(rid, now, tx.seen, tx.held, |db.offers|), ranked, size);
  }

  lemma NothingToCommit(db: Db, t: Id, ranked: seq<Id>, size: nat)
    ensures Next(Cluster(db, map[]), CommitReassign(t, ranked, size)) == Cluster(db, map[])
  {
  }

  lemma ChecksAndResends(db: Db, t: Id, tx: Tx, rid: Id, ranked: seq<Id>, size: nat, now: int) returns (checked: Cluster)
    requires Inv(db) && SweepingAt(db, tx, Some(rid), now, |db.offers|, true)
    ensures Next(Alone(db, t, tx), CheckReassign(t)) == checked
    ensures Next(checked, CommitReassign(t, ranked, size))
            == Cluster(Reassign(db, rid, ranked, size, now, |db.offers|, |db.offers|).db, map[])
  {
    if GoesOn(db, tx, rid) {
      checked := Alone(db, t, ReassignReady(rid, now, tx.seen, tx.held, |db.offers|));
      ChecksAndGoesOn(db, t, tx, rid);
      CommitsResent(db, t, ReassignReady(rid, now, tx.seen, tx.held, |db.offers|), ranked, size);
      GoesOnAsReassign(db, tx, rid, ranked, size, now);
    } else {
      checked := Cluster(Swept(db, tx.held), map[]);
      ChecksAndEnds(db, t, tx, rid);
      EndsAsReassign(db, tx, rid, ranked, size, now);
      NothingToCommit(Swept(db, tx.held), t, ranked, size);
    }
  }

  /** Alone, a reassignment does exactly what reassign_if_needed does, new wave included. */
  lemma UncontendedReassign(db: Db, t: Id, rid: Id, ranked: seq<Id>, size: nat, now: int)
    requires Inv(db)
    ensures RunSteps(Cluster(db, map[]),
                     [BeginReassign(t, rid, now)] + SweepScans(t, |db.offers|) + [CheckReassign(t)] + [CommitReassign(t, ranked, size)])
            == Cluster(Reassign(db, rid, ranked, size, now, |db.offers|, |db.offers|).db, map[])
  {
    var scans := [BeginReassign(t, rid, now)] + SweepScans(t, |db.offers|);
    var tx := SweptRun(db, t, BeginReassign(t, rid, now), Some(rid), now, true);
    var checked := ChecksAndResends(db, t, tx, rid, ranked, size, now);
    OneMoreStep(Cluster(db, map[]), scans, CheckReassign(t));
    OneMoreStep(Cluster(db, map[]), scans + [CheckReassign(t)], CommitReassign(t, ranked, size));
  }

  // ----- an assignment -----

  /** Alone, assigning a courier does exactly what assign_courier does. */
  lemma UncontendedAssign(db: Db, t: Id, jid: Id, courier: Id)
    ensures RunSteps(Cluster(db, map[]), [BeginAssign(t, jid, courier)] + [CommitAssign(t)])
            == Cluster(AssignCourier(db, jid, courier).db, map[])
  {
    var c := Cluster(db, map[]);
    OneStep(c, BeginAssign(t, jid, courier));
    OneMoreStep(c, [BeginAssign(t, jid, courier)], CommitAssign(t));
    if jid < |db.jobs| && db.jobs[jid].status == Unassigned {
      assert AfterBeginAssign(c, t, jid, courier) == Alone(db, t, Assigning(jid, courier));
      assert map[t := Assigning(jid, courier)] - {t} == map[];
    }
  }

  // ----- the other operations -----

  /** An operation of one statement happens at once when nobody holds a row; posting a request,
      creating a job and recording a proof never wait. */
  lemma UncontendedSingle(c: Cluster, op: Op)
    requires !op.OpAccept? && !op.OpExpire? && !op.OpReassign? && !op.OpAssign?
    requires c.txs == map[] || op.OpPostRequest? || op.OpCreateJob? || op.OpProof? || op.OpReceipt?
    ensures Next(c, Single(op)) == Cluster(if Execute(c.db, op).error.None? then Execute(c.db, op).db else c.db, c.txs)
  {
  }
}
