/** Actions an agent proposes and a person confirms or declines (agent_execution.py and the
    confirm endpoint of api/agent.py). Executing one writes marketplace rows in the same
    transaction, which the endpoint commits or rolls back as a whole. */
module AgentActions {
  import opened Prelude
  import M = Marketplace
  import R = MarketplaceRuns
  import E = MarketplaceEffects

  datatype Status = Pending | Approved | Declined | Executed | Failed | Expired

  /** What the payload says: which category, whether both coordinates are there, which request. */
  datatype Payload = Payload(category: string, located: bool, request: Option<Id>)
  datatype Action = Action(owner: Id, verb: string, payload: Payload, status: Status, key: string)

  datatype EventKind = WasApproved | WasExecuted | WasDeclined
  datatype Event = Event(action: Id, kind: EventKind)

  // `made` pairs the action_id recorded in a service request's payload with the request.
  datatype Db = Db(actions: seq<Action>, events: seq<Event>, receipts: seq<Id>, made: seq<(Id, Id)>, market: M.Db)

  datatype Error =
    | ActionNotFound | NotPending | UnsupportedAction | UnsupportedCategory | LocationRequired
    | RequestRequired | CannotCancel | Fault

  /** What the function leaves in its session, and the exception if it raised one. */
  datatype Reply = Reply(db: Db, error: Option<Error>)

  const CATEGORIES: set<string> := {"ride", "mechanic", "handyman", "food"}

  predicate Creates(a: Action) {
    a.verb == "create_service_request"
  }

  predicate Cancels(a: Action) {
    a.verb == "cancel_request"
  }

  // ----- create_action -----

  function FindKey(actions: seq<Action>, key: string): (r: Option<Id>)
    ensures r.Some? ==> r.value < |actions| && actions[r.value].key == key
    ensures r == None ==> forall i :: 0 <= i < |actions| ==> actions[i].key != key
  {
    Find(actions, (a: Action) => a.key == key)
  }

  function Propose(db: Db, owner: Id, verb: string, payload: Payload, key: string): (Db, Id) {
    var found := FindKey(db.actions, key);
    if found.Some? then (db, found.value)
    else (db.(actions := db.actions + [Action(owner, verb, payload, Pending, key)]), |db.actions|)
  }

  // ----- approve_and_execute -----

  function ExecuteServiceRequest(db: Db, id: Id, found: seq<Id>, now: int): Reply
    requires id < |db.actions|
  {
    var a := db.actions[id];
    if a.payload.category !in CATEGORIES then Reply(db, Some(UnsupportedCategory))
    else if !a.payload.located then Reply(db, Some(LocationRequired))
    else
      var rid := |db.market.requests|;
      var posted := M.Execute(db.market, M.OpPostRequest(a.owner, false)).db;
      var offered := M.Execute(posted, M.OpCreateOffers(rid, found, now)).db;
      Reply(db.(market := offered, made := db.made + [(id, rid)]), None)
  }

  function CancelTheRequest(db: Db, id: Id): Reply
    requires id < |db.actions|
  {
    var a := db.actions[id];
    if a.payload.request.None? then Reply(db, Some(RequestRequired))
    else
      var r := M.Execute(db.market, M.OpCancel(a.payload.request.value, a.owner));
      if r.error.Some? then Reply(db, Some(CannotCancel)) else Reply(db.(market := r.db), None)
  }

  function Perform(db: Db, id: Id, found: seq<Id>, now: int, fault: bool): Reply
    requires id < |db.actions|
  {
    var a := db.actions[id];
    if fault then Reply(db, Some(Fault))
    else if Creates(a) then ExecuteServiceRequest(db, id, found, now)
    else if Cancels(a) then CancelTheRequest(db, id)
    else Reply(db, Some(UnsupportedAction))
  }

  function WithStatus(db: Db, id: Id, status: Status): Db
    requires id < |db.actions|
  {
    db.(actions := db.actions[id := db.actions[id].(status := status)])
  }

  /** `found` are the nearby providers the offers query selects; `fault` is any other exception. */
  function ApproveAndExecute(db: Db, id: Id, user: Id, found: seq<Id>, now: int, fault: bool): Reply {
    if id >= |db.actions| || db.actions[id].owner != user then Reply(db, Some(ActionNotFound))
    else if db.actions[id].status != Pending then Reply(db, Some(NotPending))
    else
      var approved := WithStatus(db, id, Approved).(events := db.events + [Event(id, WasApproved)]);
      var done := Perform(approved, id, found, now, fault);
      if done.error.Some? then Reply(WithStatus(approved, id, Failed), done.error)
      else
        Reply(done.db.(actions := done.db.actions[id := db.actions[id].(status := Executed)],
                       events := done.db.events + [Event(id, WasExecuted)],
                       receipts := done.db.receipts + [id]), None)
  }

  // ----- the confirm endpoint -----

  /** Committed when it returns, rolled back when it raises. */
  function Confirm(db: Db, id: Id, user: Id, found: seq<Id>, now: int, fault: bool): Db {
    var r := ApproveAndExecute(db, id, user, found, now, fault);
    if r.error.Some? then db else r.db
  }

  function Decline(db: Db, id: Id, user: Id): Reply {
    if id < |db.actions| && db.actions[id].owner == user && db.actions[id].status == Pending then
      Reply(WithStatus(db, id, Declined).(events := db.events + [Event(id, WasDeclined)]), None)
    else Reply(db, Some(ActionNotFound))
  }

  /** The tables updated statement by statement within one session. */
  class Session {
    var actions: seq<Action>
    var events: seq<Event>
    var receipts: seq<Id>
    var made: seq<(Id, Id)>
    var market: M.Db

    ghost function Contents(): Db
      reads this
    {
      Db(actions, events, receipts, made, market)
    }

    method CreateAction(owner: Id, verb: string, payload: Payload, key: string) returns (id: Id)
      modifies this
      ensures (Contents(), id) == Propose(old(Contents()), owner, verb, payload, key)
    {
      var found := FindKey(actions, key);
      if found.Some? { return found.value; }
      actions := actions + [Action(owner, verb, payload, Pending, key)];
      id := |actions| - 1;
    }

    method ServiceRequest(id: Id, found: seq<Id>, now: int) returns (error: Option<Error>)
      requires id < |actions|
      modifies this
      ensures Reply(Contents(), error) == ExecuteServiceRequest(old(Contents()), id, found, now)
    {
      var a := actions[id];
      if a.payload.category !in CATEGORIES { return Some(UnsupportedCategory); }
      if !a.payload.located { return Some(LocationRequired); }
      var rid := |market.requests|;
      market := M.Execute(market, M.OpPostRequest(a.owner, false)).db;
      market := M.Execute(market, M.OpCreateOffers(rid, found, now)).db;
      made := made + [(id, rid)];
      error := None;
    }

    method CancelRequest(id: Id) returns (error: Option<Error>)
      requires id < |actions|
      modifies this
      ensures Reply(Contents(), error) == CancelTheRequest(old(Contents()), id)
    {
      var a := actions[id];
      if a.payload.request.None? { return Some(RequestRequired); }
      var r := M.Execute(market, M.OpCancel(a.payload.request.value, a.owner));
      if r.error.Some? { return Some(CannotCancel); }
      market := r.db;
      error := None;
    }

    method Approve(id: Id, user: Id, found: seq<Id>, now: int, fault: bool) returns (error: Option<Error>)
      modifies this
      ensures Reply(Contents(), error) == ApproveAndExecute(old(Contents()), id, user, found, now, fault)
    {
      if id >= |actions| || actions[id].owner != user { return Some(ActionNotFound); }
      if actions[id].status != Pending { return Some(NotPending); }
      actions := actions[id := actions[id].(status := Approved)];
      events := events + [Event(id, WasApproved)];
      if fault {
        error := Some(Fault);
      } else if Creates(actions[id]) {
        error := ServiceRequest(id, found, now);
      } else if Cancels(actions[id]) {
        error := CancelRequest(id);
      } else {
        error := Some(UnsupportedAction);
      }
      if error.Some? {
        actions := actions[id := actions[id].(status := Failed)];
        return;
      }
      actions := actions[id := actions[id].(status := Executed)];
      events := events + [Event(id, WasExecuted)];
      receipts := receipts + [id];
    }

    method DeclineAction(id: Id, user: Id) returns (error: Option<Error>)
      modifies this
      ensures Reply(Contents(), error) == Decline(old(Contents()), id, user)
    {
      if id < |actions| && actions[id].owner == user && actions[id].status == Pending {
        actions := actions[id := actions[id].(status := Declined)];
        events := events + [Event(id, WasDeclined)];
        return None;
      }
      error := Some(ActionNotFound);
    }
  }

  // ----- interleavings -----

  /** `open` are the confirmations that have locked and read their action but not finished. */
  datatype State = State(db: Db, open: map<Id, Id>)

  const START := State(Db([], [], [], [], M.EmptyDb), map[])

  datatype Step =
    | StepPropose(owner: Id, verb: string, payload: Payload, key: string)
    | Begin(tx: Id, id: Id, user: Id)
    | Finish(tx: Id, found: seq<Id>, now: int, fault: bool)
    | Abort(tx: Id)
    | StepDecline(id: Id, user: Id)
    | Others(call: M.Call)              // every other writer of the marketplace

  function Next(s: State, step: Step): State {
    match step
    case StepPropose(owner, verb, payload, key) => s.(db := Propose(s.db, owner, verb, payload, key).0)
    case Begin(tx, id, user) =>
      if tx in s.open || id in s.open.Values || id >= |s.db.actions|
         || s.db.actions[id].owner != user || s.db.actions[id].status != Pending
      then s
      else s.(open := s.open[tx := id])
    case Finish(tx, found, now, fault) =>
      if tx !in s.open || s.open[tx] >= |s.db.actions| then s
      else State(Confirm(s.db, s.open[tx], s.db.actions[s.open[tx]].owner, found, now, fault), s.open - {tx})
    case Abort(tx) => s.(open := s.open - {tx})
    case StepDecline(id, user) => if id in s.open.Values then s else s.(db := Decline(s.db, id, user).db)
    case Others(call) => s.(db := s.db.(market := M.Commit(s.db.market, call)))
  }

  function RunSteps(s: State, steps: seq<Step>): State
    decreases |steps|
  {
    if steps == [] then s else RunSteps(Next(s, steps[0]), steps[1..])
  }

  // ----- what is recorded about an action -----

  function EventsOf(events: seq<Event>, id: Id): seq<EventKind> {
    if events == [] then []
    else EventsOf(events[..|events| - 1], id) + if events[|events| - 1].action == id then [events[|events| - 1].kind] else []
  }

  function ReceiptsOf(receipts: seq<Id>, id: Id): nat {
    multiset(receipts)[id]
  }

  function RequestsOf(made: seq<(Id, Id)>, id: Id): seq<Id> {
    if made == [] then []
    else RequestsOf(made[..|made| - 1], id) + if made[|made| - 1].0 == id then [made[|made| - 1].1] else []
  }

  lemma Appended(events: seq<Event>, made: seq<(Id, Id)>, e: Event, m: (Id, Id), id: Id)
    ensures EventsOf(events + [e], id) == EventsOf(events, id) + if e.action == id then [e.kind] else []
    ensures RequestsOf(made + [m], id) == RequestsOf(made, id) + if m.0 == id then [m.1] else []
  {
    assert (events + [e])[..|events|] == events;
    assert (made + [m])[..|made|] == made;
  }

  /** The request an executed action was about, in the marketplace as it is now. */
  ghost predicate Effected(db: Db, a: Action, requests: seq<Id>) {
    if Creates(a) then
      |requests| == 1 && requests[0] < |db.market.requests| && db.market.requests[requests[0]].owner == a.owner
    else
      && requests == [] && Cancels(a)
      && a.payload.request.Some? && a.payload.request.value < |db.market.requests|
      && db.market.requests[a.payload.request.value].owner == a.owner
      && db.market.requests[a.payload.request.value].status == M.Cancelled
  }

  ghost predicate ActionOk(db: Db, id: Id)
    requires id < |db.actions|
  {
    var a := db.actions[id];
    var events, receipts, requests := EventsOf(db.events, id), ReceiptsOf(db.receipts, id), RequestsOf(db.made, id);
    match a.status
    case Pending => events == [] && receipts == 0 && requests == []
    case Declined => events == [WasDeclined] && receipts == 0 && requests == []
    case Executed => events == [WasApproved, WasExecuted] && receipts == 1 && Effected(db, a, requests)
    case _ => false
  }

  /** Nothing is recorded about actions that do not exist yet. */
  ghost predicate Unborn(db: Db, id: Id) {
    EventsOf(db.events, id) == [] && ReceiptsOf(db.receipts, id) == 0 && RequestsOf(db.made, id) == []
  }

  ghost predicate Inv(s: State) {
    && R.Inv(s.db.market)
    && (forall id: Id :: id < |s.db.actions| ==> ActionOk(s.db, id))
    && (forall id: Id :: id >= |s.db.actions| ==> Unborn(s.db, id))
    && (forall i, j :: 0 <= i < j < |s.db.actions| ==> s.db.actions[i].key != s.db.actions[j].key)
    && (forall tx :: tx in s.open ==> s.open[tx] < |s.db.actions| && s.db.actions[s.open[tx]].status == Pending)
    && (forall t, u :: t in s.open && u in s.open && s.open[t] == s.open[u] ==> t == u)
  }

  /** Actions keep everything but their status, which moves once, away from pending. */
  ghost predicate ActionsKeep(a: seq<Action>, b: seq<Action>) {
    && |a| <= |b|
    && forall i :: 0 <= i < |a| ==>
         b[i] == a[i].(status := b[i].status) && (a[i].status != Pending ==> b[i].status == a[i].status)
  }

  ghost predicate Grows(a: Db, b: Db) {
    ActionsKeep(a.actions, b.actions) && a.made <= b.made
  }

  lemma EffectLasts(db: Db, market: M.Db, id: Id)
    requires id < |db.actions| && ActionOk(db, id) && R.Evolves(db.market, market)
    ensures ActionOk(db.(market := market), id)
  {
    var a := db.actions[id];
    if a.status == Executed {
      var rid := if Creates(a) then RequestsOf(db.made, id)[0] else a.payload.request.value;
      assert R.RequestEvolves(db.market.requests[rid], market.requests[rid]);
    }
  }

  lemma MarketMoves(s: State, market: M.Db)
    requires Inv(s) && R.Inv(market) && R.Evolves(s.db.market, market)
    ensures Inv(s.(db := s.db.(market := market)))
  {
    var db := s.db.(market := market);
    forall id: Id | id < |db.actions| ensures ActionOk(db, id) {
      EffectLasts(s.db, market, id);
    }
    forall id: Id | id >= |db.actions| ensures Unborn(db, id) { assert Unborn(s.db, id); }
  }

  lemma OthersKeep(s: State, call: M.Call)
    requires Inv(s)
    ensures Inv(Next(s, Others(call)))
  {
    R.ExecuteKeeps(s.db.market, call.op);
    R.Same(s.db.market);
    MarketMoves(s, M.Commit(s.db.market, call));
  }

  lemma ProposeKeeps(s: State, owner: Id, verb: string, payload: Payload, key: string)
    requires Inv(s)
    ensures Inv(Next(s, StepPropose(owner, verb, payload, key)))
  {
    var db := Next(s, StepPropose(owner, verb, payload, key)).db;
    forall id: Id | id < |db.actions| ensures ActionOk(db, id) {
      if id < |s.db.actions| { assert ActionOk(s.db, id); } else { assert Unborn(s.db, id); }
    }
    forall id: Id | id >= |db.actions| ensures Unborn(db, id) { assert Unborn(s.db, id); }
  }

  /** The row of one pending action is settled; what is recorded about others stays. */
  lemma Settles(s: State, db: Db, id: Id)
    requires Inv(s) && id < |s.db.actions| && R.Inv(db.market) && R.Evolves(s.db.market, db.market)
    requires |db.actions| == |s.db.actions|
    requires db.actions == s.db.actions[id := s.db.actions[id].(status := db.actions[id].status)]
    requires ActionOk(db, id)
    requires forall other: Id :: other != id ==>
               && EventsOf(db.events, other) == EventsOf(s.db.events, other)
               && ReceiptsOf(db.receipts, other) == ReceiptsOf(s.db.receipts, other)
               && RequestsOf(db.made, other) == RequestsOf(s.db.made, other)
    requires id !in s.open.Values
    ensures Inv(s.(db := db))
  {
    var s' := s.(db := db);
    forall other: Id | other < |db.actions| ensures ActionOk(db, other) {
      if other != id {
        EffectLasts(s.db, db.market, other);
        assert ActionOk(s.db.(market := db.market), other);
      }
    }
    forall other: Id | other >= |db.actions| ensures Unborn(db, other) { assert Unborn(s.db, other); }
    forall tx | tx in s'.open ensures s'.open[tx] < |db.actions| && db.actions[s'.open[tx]].status == Pending {
      assert s.open[tx] in s.open.Values;
    }
  }

  lemma DeclineKeeps(s: State, id: Id, user: Id)
    requires Inv(s)
    ensures Inv(Next(s, StepDecline(id, user)))
  {
    var db := Decline(s.db, id, user).db;
    if id !in s.open.Values && db != s.db {
      R.Same(s.db.market);
      assert ActionOk(s.db, id);
      forall other: Id ensures EventsOf(db.events, other) == EventsOf(s.db.events, other) + if other == id then [WasDeclined] else [] {
        Appended(s.db.events, s.db.made, Event(id, WasDeclined), (0, 0), other);
      }
      Settles(s, db, id);
    }
  }

  /** What an execution that succeeds has done, besides its events and its receipt. */
  ghost predicate Done(db: Db, id: Id, r: Reply)
    requires id < |db.actions|
  {
    && R.Inv(r.db.market) && R.Evolves(db.market, r.db.market)
    && r.db == db.(market := r.db.market, made := r.db.made)
    && (r.error.None? ==> Effected(r.db, db.actions[id], RequestsOf(r.db.made, id)))
    && (forall other: Id :: other != id ==> RequestsOf(r.db.made, other) == RequestsOf(db.made, other))
    && db.made <= r.db.made
  }

  lemma CreatingDoes(db: Db, id: Id, found: seq<Id>, now: int)
    requires id < |db.actions| && R.Inv(db.market) && RequestsOf(db.made, id) == [] && Creates(db.actions[id])
    ensures Done(db, id, ExecuteServiceRequest(db, id, found, now))
  {
    R.Same(db.market);
    var a := db.actions[id];
    var r := ExecuteServiceRequest(db, id, found, now);
    if r.error.None? {
      var rid := |db.market.requests|;
      var posted := M.Execute(db.market, M.OpPostRequest(a.owner, false)).db;
      R.ExecuteKeeps(db.market, M.OpPostRequest(a.owner, false));
      R.ExecuteKeeps(posted, M.OpCreateOffers(rid, found, now));
      R.EvolvesTransitively(db.market, posted, r.db.market);
      assert R.RequestEvolves(posted.requests[rid], r.db.market.requests[rid]);
      forall other: Id ensures RequestsOf(r.db.made, other) == RequestsOf(db.made, other) + if other == id then [rid] else [] {
        Appended([], db.made, Event(0, WasApproved), (id, rid), other);
      }
    }
  }

  lemma CancellingDoes(db: Db, id: Id)
    requires id < |db.actions| && R.Inv(db.market) && RequestsOf(db.made, id) == []
    requires Cancels(db.actions[id]) && !Creates(db.actions[id])
    ensures Done(db, id, CancelTheRequest(db, id))
  {
    R.Same(db.market);
    var payload := db.actions[id].payload;
    if payload.request.Some? {
      R.ExecuteKeeps(db.market, M.OpCancel(payload.request.value, db.actions[id].owner));
    }
  }

  lemma PerformDoes(db: Db, id: Id, found: seq<Id>, now: int, fault: bool)
    requires id < |db.actions| && R.Inv(db.market) && RequestsOf(db.made, id) == []
    ensures Done(db, id, Perform(db, id, found, now, fault))
  {
    R.Same(db.market);
    if Creates(db.actions[id]) {
      CreatingDoes(db, id, found, now);
    } else if Cancels(db.actions[id]) {
      CancellingDoes(db, id);
    }
  }

  lemma TwoEvents(events: seq<Event>, id: Id, other: Id)
    ensures EventsOf(events + [Event(id, WasApproved)] + [Event(id, WasExecuted)], other)
            == EventsOf(events, other) + if other == id then [WasApproved, WasExecuted] else []
  {
    Appended(events, [], Event(id, WasApproved), (0, 0), other);
    Appended(events + [Event(id, WasApproved)], [], Event(id, WasExecuted), (0, 0), other);
  }

  /** A confirmation that executes is the action performed, with its events and its receipt. */
  lemma ConfirmShape(db: Db, id: Id, user: Id, found: seq<Id>, now: int, fault: bool)
    requires Confirm(db, id, user, found, now, fault) != db
    ensures id < |db.actions| && db.actions[id].status == Pending
    ensures var approved := WithStatus(db, id, Approved).(events := db.events + [Event(id, WasApproved)]);
            var done := Perform(approved, id, found, now, fault);
            && done.error.None?
            && Confirm(db, id, user, found, now, fault) ==
                 done.db.(actions := done.db.actions[id := db.actions[id].(status := Executed)],
                          events := done.db.events + [Event(id, WasExecuted)], receipts := done.db.receipts + [id])
  {
  }

  lemma PerformedRecords(db: Db, id: Id, done: Reply)
    requires R.Inv(db.market) && id < |db.actions| && db.actions[id].status == Pending && ActionOk(db, id)
    requires Done(WithStatus(db, id, Approved).(events := db.events + [Event(id, WasApproved)]), id, done) && done.error.None?
    ensures var after := done.db.(actions := done.db.actions[id := db.actions[id].(status := Executed)],
                                  events := done.db.events + [Event(id, WasExecuted)], receipts := done.db.receipts + [id]);
            Recorded(db, id, after)
  {
    var events := db.events + [Event(id, WasApproved)] + [Event(id, WasExecuted)];
    forall other: Id
      ensures EventsOf(events, other) == EventsOf(db.events, other) + if other == id then [WasApproved, WasExecuted] else []
    {
      TwoEvents(db.events, id, other);
    }
  }

  /** What a confirmation that executes leaves on record. */
  ghost predicate Recorded(db: Db, id: Id, after: Db)
    requires id < |db.actions|
  {
    && R.Inv(after.market) && R.Evolves(db.market, after.market)
    && after.actions == db.actions[id := db.actions[id].(status := Executed)]
    && ActionOk(after, id)
    && (forall other: Id :: other != id ==>
         && EventsOf(after.events, other) == EventsOf(db.events, other)
         && ReceiptsOf(after.receipts, other) == ReceiptsOf(db.receipts, other)
         && RequestsOf(after.made, other) == RequestsOf(db.made, other))
  }

  lemma ConfirmKeeps(s: State, id: Id, user: Id, found: seq<Id>, now: int, fault: bool)
    requires Inv(s) && id !in s.open.Values
    ensures Inv(s.(db := Confirm(s.db, id, user, found, now, fault)))
  {
    var after := Confirm(s.db, id, user, found, now, fault);
    if after != s.db {
      ConfirmShape(s.db, id, user, found, now, fault);
      assert ActionOk(s.db, id);
      var approved := WithStatus(s.db, id, Approved).(events := s.db.events + [Event(id, WasApproved)]);
      PerformDoes(approved, id, found, now, fault);
      PerformedRecords(s.db, id, Perform(approved, id, found, now, fault));
      assert Recorded(s.db, id, after);
      Settles(s, after, id);
    }
  }

  lemma ConfirmGrows(db: Db, id: Id, user: Id, found: seq<Id>, now: int, fault: bool)
    ensures Grows(db, Confirm(db, id, user, found, now, fault))
  {
  }

  lemma FinishKeeps(s: State, tx: Id, found: seq<Id>, now: int, fault: bool)
    requires Inv(s) && tx in s.open
    ensures Inv(Next(s, Finish(tx, found, now, fault))) && Grows(s.db, Next(s, Finish(tx, found, now, fault)).db)
  {
    var closed := s.(open := s.open - {tx});
    assert Inv(closed);
    ConfirmKeeps(closed, s.open[tx], s.db.actions[s.open[tx]].owner, found, now, fault);
    ConfirmGrows(s.db, s.open[tx], s.db.actions[s.open[tx]].owner, found, now, fault);
  }

  ghost predicate Kept(s: State, s': State) {
    Inv(s') && Grows(s.db, s'.db)
  }

  lemma LocksKeep(s: State, step: Step)
    requires Inv(s) && (step.Begin? || step.Abort?)
    ensures Kept(s, Next(s, step))
  {
    var s' := Next(s, step);
    forall id: Id | id < |s'.db.actions| ensures ActionOk(s'.db, id) { assert ActionOk(s.db, id); }
    forall id: Id | id >= |s'.db.actions| ensures Unborn(s'.db, id) { assert Unborn(s.db, id); }
    forall t, u | t in s'.open && u in s'.open && s'.open[t] == s'.open[u] ensures t == u {
      if t in s.open && u in s.open { assert s.open[t] == s'.open[t]; }
    }
  }

  lemma NextKeeps(s: State, step: Step)
    requires Inv(s)
    ensures Kept(s, Next(s, step))
  {
    match step
    case StepPropose(owner, verb, payload, key) => ProposeKeeps(s, owner, verb, payload, key);
    case Finish(tx, found, now, fault) => if tx in s.open { FinishKeeps(s, tx, found, now, fault); }
    case StepDecline(id, user) => DeclineKeeps(s, id, user);
    case Others(call) => OthersKeep(s, call);
    case _ => LocksKeep(s, step);
  }

  lemma {:induction false} RunKeeps(s: State, steps: seq<Step>)
    requires Inv(s)
    ensures Kept(s, RunSteps(s, steps))
    decreases |steps|
  {
    if steps != [] {
      NextKeeps(s, steps[0]);
      RunKeeps(Next(s, steps[0]), steps[1..]);
    }
  }

  lemma Reached(steps: seq<Step>)
    ensures Inv(RunSteps(START, steps))
  {
    RunKeeps(START, steps);
  }

  // ----- guarantees over every interleaving -----

  /** What is on record about an action, however often and by whomever it is confirmed, declined
      and retried: a receipt exactly when it is executed, at most one service request and only
      then, and exactly the events of its one decision. */
  lemma OneDecision(steps: seq<Step>, id: Id)
    ensures var db := RunSteps(START, steps).db;
            id < |db.actions| ==>
              var a := db.actions[id];
              && a.status in {Pending, Declined, Executed}
              && ReceiptsOf(db.receipts, id) == (if a.status == Executed then 1 else 0)
              && |RequestsOf(db.made, id)| == (if a.status == Executed && Creates(a) then 1 else 0)
              && EventsOf(db.events, id) == (if a.status == Executed then [WasApproved, WasExecuted]
                                             else if a.status == Declined then [WasDeclined] else [])
  {
    Reached(steps);
    var db := RunSteps(START, steps).db;
    if id < |db.actions| { assert ActionOk(db, id); }
  }

  /** An executed action has done what it says, and it is still so after everything the rest
      of the marketplace did since: its request belongs to its owner, or it is cancelled. */
  lemma ExecutedMeansDone(steps: seq<Step>, id: Id)
    ensures var db := RunSteps(START, steps).db;
            id < |db.actions| && db.actions[id].status == Executed ==> Effected(db, db.actions[id], RequestsOf(db.made, id))
  {
    Reached(steps);
    var db := RunSteps(START, steps).db;
    if id < |db.actions| { assert ActionOk(db, id); }
  }

  lemma {:induction false} RequestsOfPrefix(made: seq<(Id, Id)>, more: seq<(Id, Id)>, id: Id)
    requires made <= more
    ensures RequestsOf(made, id) <= RequestsOf(more, id)
    decreases |more|
  {
    if |made| < |more| {
      RequestsOfPrefix(made, more[..|more| - 1], id);
    } else {
      assert made == more;
    }
  }

  /** A decision is final: a declined action never executes, an executed one is neither
      declined nor executed again, and the request it made stays the only one. */
  lemma DecisionIsFinal(steps: seq<Step>, more: seq<Step>, id: Id)
    requires var db := RunSteps(START, steps).db; id < |db.actions| && db.actions[id].status != Pending
    ensures var db, later := RunSteps(START, steps).db, RunSteps(RunSteps(START, steps), more).db;
            && id < |later.actions| && later.actions[id] == db.actions[id]
            && ReceiptsOf(later.receipts, id) == ReceiptsOf(db.receipts, id)
            && RequestsOf(later.made, id) == RequestsOf(db.made, id)
            && EventsOf(later.events, id) == EventsOf(db.events, id)
  {
    Reached(steps);
    var s := RunSteps(START, steps);
    RunKeeps(s, more);
    var later := RunSteps(s, more).db;
    assert ActionOk(s.db, id) && ActionOk(later, id);
    RequestsOfPrefix(s.db.made, later.made, id);
  }

  /** What can be carried out: a request of a known category with a location, or the
      cancellation of a request of the owner's own that is not closed. */
  ghost predicate Doable(market: M.Db, a: Action) {
    if a.verb == "create_service_request" then a.payload.category in {"ride", "mechanic", "handyman", "food"} && a.payload.located
    else
      && a.verb == "cancel_request" && a.payload.request.Some? && a.payload.request.value < |market.requests|
      && market.requests[a.payload.request.value].owner == a.owner
      && market.requests[a.payload.request.value].status in {M.Searching, M.Offered, M.Accepted, M.InProgress}
  }

  /** Exactly when confirming executes; in every other case, although the function itself has
      already written the approval and the failure, nothing at all is left behind and a pending
      action can be confirmed again. */
  lemma ConfirmsWhen(db: Db, id: Id, user: Id, found: seq<Id>, now: int, fault: bool)
    ensures var after := Confirm(db, id, user, found, now, fault);
            var mine := id < |db.actions| && db.actions[id].owner == user && db.actions[id].status == Pending;
            var executes := mine && !fault && Doable(db.market, db.actions[id]);
            && (after != db <==> executes)
            && (executes ==> after.actions[id].status == Executed)
            && (mine && !executes ==> ApproveAndExecute(db, id, user, found, now, fault).db.actions[id].status == Failed)
  {
    if id < |db.actions| && db.actions[id].status == Pending {
      var approved := WithStatus(db, id, Approved).(events := db.events + [Event(id, WasApproved)]);
      assert Perform(approved, id, found, now, fault).error.None? <==> !fault && Doable(db.market, db.actions[id]);
    }
  }

  /** A confirmed request is new, its owner's and offered: one pending offer goes to each
      provider that was found, and no other offer or request is touched. A confirmed
      cancellation cancels that one request. */
  ghost predicate CarriedOut(before: M.Db, after: M.Db, a: Action, found: seq<Id>, now: int) {
    if a.verb == "create_service_request" then
      && after.requests == before.requests + [M.Request(a.owner, M.Offered, None, 2)]
      && after == before.(requests := after.requests, offers := after.offers)
      && E.OneEach(before.offers, after.offers, |before.requests|, found, now)
    else
      && a.payload.request.Some? && a.payload.request.value < |before.requests|
      && E.OnlyRequest(before, after, a.payload.request.value)
      && E.StatusWritten(before.requests[a.payload.request.value], after.requests[a.payload.request.value], M.Cancelled)
  }

  lemma ConfirmingDoes(db: Db, id: Id, user: Id, found: seq<Id>, now: int, fault: bool)
    requires Confirm(db, id, user, found, now, fault) != db
    ensures id < |db.actions| && CarriedOut(db.market, Confirm(db, id, user, found, now, fault).market, db.actions[id], found, now)
  {
    ConfirmShape(db, id, user, found, now, fault);
    ConfirmsWhen(db, id, user, found, now, fault);
    if db.actions[id].verb == "create_service_request" {
      E.InsertsOneEach(db.market.offers, |db.market.requests|, found, now);
    }
  }

  /** Confirming begins exactly for the owner's own pending action that nobody else is
      confirming, and ends as a confirmation by the owner; a decline waits for it. */
  lemma ConfirmingTakesTurns(s: State, tx: Id, id: Id, user: Id, found: seq<Id>, now: int, fault: bool)
    ensures Next(s, Begin(tx, id, user)) ==
              if && tx !in s.open && id !in s.open.Values
                 && id < |s.db.actions| && s.db.actions[id].owner == user && s.db.actions[id].status == Pending
              then s.(open := s.open[tx := id]) else s
    ensures tx in s.open && s.open[tx] < |s.db.actions| ==>
              Next(s, Finish(tx, found, now, fault)) ==
              State(Confirm(s.db, s.open[tx], s.db.actions[s.open[tx]].owner, found, now, fault), s.open - {tx})
    ensures Next(s, StepDecline(id, user)).db == if id in s.open.Values then s.db else Decline(s.db, id, user).db
  {
  }

  /** A new key makes one pending action with what was proposed; a known one makes none. */
  lemma ProposesWhen(db: Db, owner: Id, verb: string, payload: Payload, key: string)
    ensures var (after, id) := Propose(db, owner, verb, payload, key);
            && id < |after.actions| && after.actions[id].key == key
            && (if exists i :: 0 <= i < |db.actions| && db.actions[i].key == key then after == db
                else after == db.(actions := db.actions + [Action(owner, verb, payload, Pending, key)]) && id == |db.actions|)
  {
  }

  /** The owner declines exactly its own pending action. */
  lemma DeclinesWhen(db: Db, id: Id, user: Id)
    ensures var r := Decline(db, id, user);
            && (r.error.None? <==> id < |db.actions| && db.actions[id].owner == user && db.actions[id].status == Pending)
            && r.db == (if r.error.Some? then db
                        else db.(actions := db.actions[id := db.actions[id].(status := Declined)],
                                 events := db.events + [Event(id, WasDeclined)]))
  {
  }

  lemma KeyIsKept(s: State, more: seq<Step>, id: Id)
    requires Inv(s) && id < |s.db.actions|
    ensures var later := RunSteps(s, more).db;
            Inv(RunSteps(s, more)) && id < |later.actions| && later.actions[id].key == s.db.actions[id].key
  {
    RunKeeps(s, more);
  }

  lemma KeyIsFound(s: State, id: Id)
    requires Inv(s) && id < |s.db.actions|
    ensures FindKey(s.db.actions, s.db.actions[id].key) == Some(id)
  {
  }

  /** Proposing again under the same key, whatever the proposal says, yields the action that the
      key was first used for and changes nothing. */
  lemma ProposingAgain(steps: seq<Step>, more: seq<Step>, first: Action, owner: Id, verb: string, payload: Payload)
    ensures var s := RunSteps(START, steps);
            var id := Propose(s.db, first.owner, first.verb, first.payload, first.key).1;
            var later := RunSteps(Next(s, StepPropose(first.owner, first.verb, first.payload, first.key)), more).db;
            Propose(later, owner, verb, payload, first.key) == (later, id)
  {
    Reached(steps);
    var s := RunSteps(START, steps);
    var id := Propose(s.db, first.owner, first.verb, first.payload, first.key).1;
    var proposed := Next(s, StepPropose(first.owner, first.verb, first.payload, first.key));
    ProposeKeeps(s, first.owner, first.verb, first.payload, first.key);
    assert id < |proposed.db.actions| && proposed.db.actions[id].key == first.key;
    KeyIsKept(proposed, more, id);
    KeyIsFound(RunSteps(proposed, more), id);
  }
}
