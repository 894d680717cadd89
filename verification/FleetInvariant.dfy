/** What every run of the fleet server keeps, over all handlers and all inputs. */
module FleetInvariant {
  import opened Common
  import opened CursorTypes
  import opened Fleet

  // ---- the invariant -----------------------------------------------------------

  ghost predicate RequestOk(s: State, id: string)
    requires id in s.requests
  {
    var r := s.requests[id];
    && id != "" && r.id == id
    && r.labels != [] && r.labels[0].key == "pool" && r.labels[0].value != ""
    && (r.status == Pending ==> r.claimedWorkerId == "" && !r.awaitingWake)
    && (r.status == Claimed ==> r.claimedWorkerId != "" && r.claimedWorkerId in s.workers)
    && (r.status == Claimed && r.awaitingWake ==> !s.workers[r.claimedWorkerId].connected)
    && (id !in s.agents ==> r.status == Expired)
  }

  ghost predicate WorkerOk(s: State, w: string)
    requires w in s.workers
  {
    s.workers[w].id == w && (s.workers[w].activeBcId != "" ==> s.workers[w].connected)
  }

  ghost predicate OrderOk(s: State) {
    && (forall id :: id in s.order <==> id in s.requests)
    && (forall i, j :: 0 <= i < j < |s.order| ==> s.order[i] != s.order[j])
  }

  /** Events are numbered 1, 2, 3, ... without a gap, and the channel counter moves with them. */
  ghost predicate Numbered(s: State) {
    && s.lastSeq == |s.events| == s.notify
    && forall i :: 0 <= i < |s.events| ==> s.events[i].num == i + 1
  }

  /** Every issued cursor names an event number that existed when it was issued. */
  ghost predicate CursorsOk(s: State) {
    forall c :: c in s.cursors ==> exists n: nat :: n <= |s.events| && c == CursorText(n)
  }

  ghost predicate EntitiesOk(s: State) {
    && (forall id :: id in s.requests ==> RequestOk(s, id))
    && (forall w :: w in s.workers ==> WorkerOk(s, w))
    && (forall a :: a in s.agents ==> a in s.requests)
    && OrderOk(s)
  }

  ghost predicate Inv(s: State) { EntitiesOk(s) && Numbered(s) && CursorsOk(s) }

  /** What the handlers themselves rely on. */
  lemma InvKeys(s: State)
    requires Inv(s)
    ensures OrderKnown(s) && forall r :: r in s.requests ==> s.requests[r].id == r
  {
  }

  // ---- runs ----------------------------------------------------------------------

  datatype Op =
    | OpCreate(body: CreateBody, now: int)
    | OpClaim(id: string, worker: string)
    | OpRelease(id: string)
    | OpFollowup(id: string, now: int)
    | OpArchive(id: string, now: int)
    | OpDelete(id: string)
    | OpExpire(id: string)
    | OpConnect(id: string, connect: ConnectBody, now: int, active: string)
    | OpDisconnect(id: string, now: int)
    | OpRegisterPool(row: Pool)
    | OpList(pool: string, limit: int, token: string, now: int)

  predicate Enabled(s: State, op: Op) {
    && (op.OpConnect? ==> MayBecomeActive(s, op.id, op.active))
    && (op.OpList? ==> OrderKnown(s))
  }

  function Apply(s: State, op: Op): State
    requires Enabled(s, op)
  {
    match op
    case OpCreate(body, now) => CreateAgent(s, body, now).0
    case OpClaim(id, worker) => Claim(s, id, worker).0
    case OpRelease(id) => Release(s, id).0
    case OpFollowup(id, now) => Followup(s, id, now).0
    case OpArchive(id, now) => ArchiveAgent(s, id, now).0
    case OpDelete(id) => DeleteAgent(s, id).0
    case OpExpire(id) => ExpireRequest(s, id).0
    case OpConnect(id, body, now, active) => ConnectWorker(s, id, body, now, active)
    case OpDisconnect(id, now) => DisconnectWorker(s, id, now).0
    case OpRegisterPool(row) => RegisterPool(s, row).0
    case OpList(pool, limit, token, now) => ListPending(s, pool, limit, token, now).0
  }

  /** `ops` can be executed one after the other from `s`. */
  ghost predicate Legal(s: State, ops: seq<Op>)
    decreases |ops|
  {
    ops != [] ==> Enabled(s, ops[0]) && Legal(Apply(s, ops[0]), ops[1..])
  }

  ghost function Run(s: State, ops: seq<Op>): State
    requires Legal(s, ops)
    decreases |ops|
  {
    if ops == [] then s else Run(Apply(s, ops[0]), ops[1..])
  }

  lemma InvInit()
    ensures Inv(EmptyState)
  {
  }

  // Each handler, one at a time.

  /** A fresh request, with its agent, joins the tables. */
  lemma AddRequestKeepsInv(s: State, id: string, req: Request, agent: Agent)
    requires Inv(s) && id !in s.requests
    requires id != "" && req.id == id && req.labels != [] && req.labels[0].key == "pool" && req.labels[0].value != ""
    requires req.status == Pending && req.claimedWorkerId == "" && !req.awaitingWake
    ensures Inv(AddRequest(s, id, req, agent))
  {
    var s' := AddRequest(s, id, req, agent);
    assert s'.order[|s.order|] == id;
    forall r | r in s'.requests ensures RequestOk(s', r) {
      if r != id { assert RequestOk(s, r); }
    }
    EmitKeepsNumbering(s, s');
  }

  /** One request changes; workers, order and the agents' ids stay. */
  lemma UpdateRequestKeepsEntities(s: State, s': State, id: string)
    requires EntitiesOk(s) && id in s.requests && id in s'.requests
    requires s'.requests == s.requests[id := s'.requests[id]]
    requires s'.workers == s.workers && s'.order == s.order && s'.agents.Keys == s.agents.Keys
    requires RequestOk(s', id)
    ensures EntitiesOk(s')
  {
  }

  lemma CreateKeepsInv(s: State, body: CreateBody, now: int)
    requires Inv(s)
    ensures Inv(CreateAgent(s, body, now).0)
  {
    var (s1, id) := NewId(s, body);
    OtherTablesKeepInv(s, s1);
    if id !in s.requests {
      var name := if body.name == "" then "fake agent " + id else body.name;
      AddRequestKeepsInv(s1, id, NewRequest(id, body, now), Agent(id, name, Active, now, now));
    }
  }

  lemma ClaimKeepsInv(s: State, id: string, worker: string)
    requires Inv(s)
    ensures Inv(Claim(s, id, worker).0)
  {
    var s' := Claim(s, id, worker).0;
    if s' != s {
      forall r | r in s'.requests ensures RequestOk(s', r) { assert RequestOk(s, r); }
      EmitKeepsNumbering(s, s');
    }
  }

  lemma RequeueKeepsInv(s: State, id: string)
    requires Inv(s) && id in s.requests && id in s.agents
    ensures Inv(Requeue(s, id))
  {
    var s' := Requeue(s, id);
    assert RequestOk(s, id);
    UpdateRequestKeepsEntities(s, s', id);
    EmitKeepsNumbering(s, s');
  }

  lemma ReleaseKeepsInv(s: State, id: string)
    requires Inv(s)
    ensures Inv(Release(s, id).0)
  {
    if Release(s, id).1 == OK {
      assert RequestOk(s, id);
      OtherTablesKeepInv(s, s.(releases := s.releases + [id]));
      RequeueKeepsInv(s.(releases := s.releases + [id]), id);
    }
  }

  lemma AwaitWakeKeepsInv(s: State, id: string)
    requires Inv(s) && id in s.requests && s.requests[id].status == Claimed
    requires !IsConnected(s, s.requests[id].claimedWorkerId)
    ensures Inv(AwaitWake(s, id))
  {
    assert RequestOk(s, id);
    UpdateRequestKeepsEntities(s, AwaitWake(s, id), id);
    EmitKeepsNumbering(s, AwaitWake(s, id));
  }

  lemma FollowupKeepsInv(s: State, id: string, now: int)
    requires Inv(s)
    ensures Inv(Followup(s, id, now).0)
  {
    if Followup(s, id, now).1 == OK {
      var s1 := s.(agents := s.agents[id := s.agents[id].(status := Active, updatedAt := now)]);
      AgentFieldsKeepInv(s, s1);
      var w := s.requests[id].claimedWorkerId;
      if s.requests[id].status != Claimed {
        RequeueKeepsInv(s1, id);
      } else if IsConnected(s, w) {
        ActivateKeepsInv(s1, w, id);
      } else {
        AwaitWakeKeepsInv(s1, id);
      }
    }
  }

  lemma ActivateKeepsInv(s: State, w: string, id: string)
    requires Inv(s) && IsConnected(s, w)
    ensures Inv(s.(workers := s.workers[w := s.workers[w].(activeBcId := id)]))
  {
  }

  lemma AgentFieldsKeepInv(s: State, s': State)
    requires Inv(s)
    requires s' == s.(agents := s'.agents) && s'.agents.Keys == s.agents.Keys
    ensures Inv(s')
  {
  }

  lemma DeleteKeepsInv(s: State, id: string)
    requires Inv(s)
    ensures Inv(DeleteAgent(s, id).0)
  {
  }

  lemma ExpireKeepsInv(s: State, id: string)
    requires Inv(s)
    ensures Inv(ExpireRequest(s, id).0)
  {
    var s' := ExpireRequest(s, id).0;
    if s' != s {
      forall r | r in s'.requests ensures RequestOk(s', r) { assert RequestOk(s, r); }
      EmitKeepsNumbering(s, s');
    }
  }

  lemma ConnectKeepsEntities(s: State, id: string, body: ConnectBody, now: int, active: string)
    requires EntitiesOk(s)
    ensures EntitiesOk(ConnectWorker(s, id, body, now, active))
  {
    var s' := ConnectWorker(s, id, body, now, active);
    forall r | r in s'.requests ensures RequestOk(s', r) {
      assert RequestOk(s, r);
      assert r in HeldRequests(s, id) <==> s.requests[r].HeldBy(id);
    }
  }

  lemma ConnectKeepsInv(s: State, id: string, body: ConnectBody, now: int, active: string)
    requires Inv(s)
    ensures Inv(ConnectWorker(s, id, body, now, active))
  {
    ConnectKeepsEntities(s, id, body, now, active);
    NoEventKeepsNumbering(s, ConnectWorker(s, id, body, now, active));
  }

  lemma DisconnectKeepsInv(s: State, id: string, now: int)
    requires Inv(s)
    ensures Inv(DisconnectWorker(s, id, now).0)
  {
    var s' := DisconnectWorker(s, id, now).0;
    forall r | r in s'.requests ensures RequestOk(s', r) { assert RequestOk(s, r); }
    NoEventKeepsNumbering(s, s');
  }

  lemma ListKeepsInv(s: State, pool: string, limit: int, token: string, now: int)
    requires Inv(s)
    ensures Inv(ListPending(s, pool, limit, token, now).0)
  {
  }

  lemma OtherTablesKeepInv(s: State, s': State)
    requires Inv(s)
    requires s' == s.(pools := s'.pools, nextId := s'.nextId, releases := s'.releases)
    ensures Inv(s')
  {
  }

  lemma EmitKeepsNumbering(s: State, s': State)
    requires Numbered(s) && CursorsOk(s)
    requires |s'.events| == |s.events| + 1 && s'.events[..|s.events|] == s.events
    requires s'.events[|s.events|].num == s.lastSeq + 1
    requires s'.lastSeq == s.lastSeq + 1 && s'.notify == s.notify + 1 && s'.cursors == s.cursors
    ensures Numbered(s') && CursorsOk(s')
  {
  }

  lemma NoEventKeepsNumbering(s: State, s': State)
    requires Numbered(s) && CursorsOk(s)
    requires s'.events == s.events && s'.lastSeq == s.lastSeq && s'.notify == s.notify && s'.cursors == s.cursors
    ensures Numbered(s') && CursorsOk(s')
  {
  }

  /** One handler, whatever its input, keeps the invariant. */
  lemma InvStep(s: State, op: Op)
    requires Inv(s) && Enabled(s, op)
    ensures Inv(Apply(s, op))
  {
    hide Inv;
    match op
    case OpCreate(body, now) => CreateKeepsInv(s, body, now);
    case OpClaim(id, worker) => ClaimKeepsInv(s, id, worker);
    case OpRelease(id) => ReleaseKeepsInv(s, id);
    case OpFollowup(id, now) => FollowupKeepsInv(s, id, now);
    case OpArchive(id, now) => ArchiveKeepsInv(s, id, now);
    case OpDelete(id) => DeleteKeepsInv(s, id);
    case OpExpire(id) => ExpireKeepsInv(s, id);
    case OpConnect(id, body, now, active) => ConnectKeepsInv(s, id, body, now, active);
    case OpDisconnect(id, now) => DisconnectKeepsInv(s, id, now);
    case OpRegisterPool(row) => RegisterKeepsInv(s, row);
    case OpList(pool, limit, token, now) => ListKeepsInv(s, pool, limit, token, now);
  }

  lemma ArchiveKeepsInv(s: State, id: string, now: int)
    requires Inv(s)
    ensures Inv(ArchiveAgent(s, id, now).0)
  {
    AgentFieldsKeepInv(s, ArchiveAgent(s, id, now).0);
  }

  lemma RegisterKeepsInv(s: State, row: Pool)
    requires Inv(s)
    ensures Inv(RegisterPool(s, row).0)
  {
    OtherTablesKeepInv(s, RegisterPool(s, row).0);
  }

  /** Safety over whole runs: every reachable state satisfies the invariant. */
  lemma {:induction false} InvHoldsAlways(s: State, ops: seq<Op>)
    requires Inv(s) && Legal(s, ops)
    ensures Inv(Run(s, ops))
    decreases |ops|
  {
    if ops != [] {
      InvStep(s, ops[0]);
      InvHoldsAlways(Apply(s, ops[0]), ops[1..]);
    }
  }

  /** So it holds of every state a new server can reach. */
  lemma ReachableInv(ops: seq<Op>)
    requires Legal(EmptyState, ops)
    ensures Inv(Run(EmptyState, ops))
  {
    InvInit();
    InvHoldsAlways(EmptyState, ops);
  }

  // ---- deletion is final ---------------------------------------------------------

  ghost predicate AgentGone(s: State, id: string) { id in s.requests && id !in s.agents }

  lemma AgentGoneStep(s: State, op: Op, id: string)
    requires Enabled(s, op) && AgentGone(s, id)
    ensures AgentGone(Apply(s, op), id)
  {
    match op
    case OpCreate(body, now) => AgentGoneCreate(s, body, now, id);
    case OpConnect(w, body, now, active) => AgentGoneConnect(s, w, body, now, active, id);
    case OpFollowup(r, now) => AgentGoneFollowup(s, r, now, id);
    case _ =>
  }

  lemma AgentGoneCreate(s: State, body: CreateBody, now: int, id: string)
    requires AgentGone(s, id)
    ensures AgentGone(CreateAgent(s, body, now).0, id)
  {
  }

  lemma AgentGoneConnect(s: State, w: string, body: ConnectBody, now: int, active: string, id: string)
    requires AgentGone(s, id)
    ensures AgentGone(ConnectWorker(s, w, body, now, active), id)
  {
  }

  lemma AgentGoneFollowup(s: State, r: string, now: int, id: string)
    requires AgentGone(s, id)
    ensures AgentGone(Followup(s, r, now).0, id)
  {
  }

  /** A request whose agent was deleted stays expired forever, whatever is called on it later. */
  lemma {:induction false} DeletedStaysExpired(s: State, ops: seq<Op>, id: string)
    requires Inv(s) && Legal(s, ops) && AgentGone(s, id)
    ensures AgentGone(Run(s, ops), id) && Run(s, ops).requests[id].status == Expired
    decreases |ops|
  {
    if ops == [] {
      assert RequestOk(s, id);
    } else {
      InvStep(s, ops[0]);
      AgentGoneStep(s, ops[0], id);
      DeletedStaysExpired(Apply(s, ops[0]), ops[1..], id);
    }
  }

  // ---- the claim ledger ------------------------------------------------------------

  function ClaimsOf(claims: seq<(string, string)>, id: string): nat {
    if claims == [] then 0
    else ClaimsOf(claims[..|claims| - 1], id) + if claims[|claims| - 1].0 == id then 1 else 0
  }

  function ReleasesOf(releases: seq<string>, id: string): nat {
    if releases == [] then 0
    else ReleasesOf(releases[..|releases| - 1], id) + if releases[|releases| - 1] == id then 1 else 0
  }

  predicate HasLiveClaim(s: State, id: string) { id in s.requests && s.requests[id].status == Claimed }

  /** The step takes a live claim away without a release: expiry, or deleting the agent. */
  predicate EndsClaim(s: State, op: Op, id: string) {
    HasLiveClaim(s, id) && (op == OpExpire(id) || (op == OpDelete(id) && id in s.agents))
  }

  ghost function EndedClaims(s: State, ops: seq<Op>, id: string): nat
    requires Legal(s, ops)
    decreases |ops|
  {
    if ops == [] then 0
    else (if EndsClaim(s, ops[0], id) then 1 else 0) + EndedClaims(Apply(s, ops[0]), ops[1..], id)
  }

  /** Claims not yet paired with a release or with the claim held now. */
  function Unpaired(s: State, id: string): int {
    ClaimsOf(s.claims, id) - ReleasesOf(s.releases, id) - if HasLiveClaim(s, id) then 1 else 0
  }

  lemma UnpairedClaim(s: State, id: string, worker: string, r: string)
    ensures Unpaired(Claim(s, id, worker).0, r) == Unpaired(s, r)
  {
    assert (s.claims + [(id, worker)])[..|s.claims|] == s.claims;
  }

  lemma UnpairedRelease(s: State, id: string, r: string)
    ensures Unpaired(Release(s, id).0, r) == Unpaired(s, r)
  {
  }

  lemma UnpairedStep(s: State, op: Op, id: string)
    requires Enabled(s, op)
    ensures Unpaired(Apply(s, op), id) == Unpaired(s, id) + if EndsClaim(s, op, id) then 1 else 0
  {
    hide Claim, Release, CreateAgent, Followup, ConnectWorker, DeleteAgent, ExpireRequest, ArchiveAgent,
      DisconnectWorker, RegisterPool, ListPending, Unpaired;
    match op
    case OpClaim(r, worker) => UnpairedClaim(s, r, worker, id);
    case OpRelease(r) => UnpairedRelease(s, r, id);
    case OpCreate(body, now) => UnpairedCreate(s, body, now, id);
    case OpFollowup(r, now) => UnpairedFollowup(s, r, now, id);
    case OpConnect(w, body, now, active) => UnpairedConnect(s, w, body, now, active, id);
    case OpDelete(r) => UnpairedDelete(s, r, id);
    case OpExpire(r) => UnpairedExpire(s, r, id);
    case _ => UnpairedOther(s, op, id);
  }

  lemma UnpairedDelete(s: State, id: string, r: string)
    ensures Unpaired(DeleteAgent(s, id).0, r) == Unpaired(s, r) + if EndsClaim(s, OpDelete(id), r) then 1 else 0
  {
  }

  lemma UnpairedExpire(s: State, id: string, r: string)
    ensures Unpaired(ExpireRequest(s, id).0, r) == Unpaired(s, r) + if EndsClaim(s, OpExpire(id), r) then 1 else 0
  {
  }

  /** The handlers that touch neither requests nor the two logs. */
  lemma UnpairedOther(s: State, op: Op, r: string)
    requires Enabled(s, op) && (op.OpArchive? || op.OpDisconnect? || op.OpRegisterPool? || op.OpList?)
    ensures Unpaired(Apply(s, op), r) == Unpaired(s, r)
  {
  }

  lemma UnpairedCreate(s: State, body: CreateBody, now: int, r: string)
    ensures Unpaired(CreateAgent(s, body, now).0, r) == Unpaired(s, r)
  {
  }

  lemma UnpairedFollowup(s: State, id: string, now: int, r: string)
    ensures Unpaired(Followup(s, id, now).0, r) == Unpaired(s, r)
  {
    var s' := Followup(s, id, now).0;
    assert s'.claims == s.claims && s'.releases == s.releases;
    assert HasLiveClaim(s', r) == HasLiveClaim(s, r);
  }

  lemma UnpairedConnect(s: State, id: string, body: ConnectBody, now: int, active: string, r: string)
    ensures Unpaired(ConnectWorker(s, id, body, now, active), r) == Unpaired(s, r)
  {
  }

  /** Conservation: over any run from an empty server, the claims a request ever
      got are its releases, plus the claims that ended by expiry or deletion,
      plus the one it holds now. */
  lemma {:induction false} ClaimLedger(ops: seq<Op>, id: string)
    requires Legal(EmptyState, ops)
    ensures var s := Run(EmptyState, ops);
      ClaimsOf(s.claims, id) == ReleasesOf(s.releases, id) + EndedClaims(EmptyState, ops, id)
                                + if HasLiveClaim(s, id) then 1 else 0
  {
    LedgerFrom(EmptyState, ops, id);
  }

  lemma {:induction false} LedgerFrom(s: State, ops: seq<Op>, id: string)
    requires Inv(s) && Legal(s, ops)
    ensures Unpaired(Run(s, ops), id) == Unpaired(s, id) + EndedClaims(s, ops, id)
    decreases |ops|
  {
    if ops != [] {
      InvStep(s, ops[0]);
      UnpairedStep(s, ops[0], id);
      LedgerFrom(Apply(s, ops[0]), ops[1..], id);
    }
  }
}
