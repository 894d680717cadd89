/** The fleet server object: tables updated in place, one handler at a time
    (each method is one critical section of internal/fakeapi/server.go). */
module FleetServer {
  import opened Common
  import opened CursorTypes
  import opened Fleet
  import opened FleetInvariant

  class Server {
    var requests: map<string, Request>
    var order: seq<string>
    var workers: map<string, Worker>
    var agents: map<string, Agent>
    var pools: map<string, Pool>
    var events: seq<Event>
    var cursors: map<string, int>
    var claims: seq<(string, string)>
    var releases: seq<string>
    var connects: seq<ConnectRecord>
    var lastSeq: int
    var notify: nat
    var nextId: nat

    function Model(): State
      reads this
    {
      State(requests, order, workers, agents, pools, events, cursors, claims, releases, connects,
            lastSeq, notify, nextId)
    }

    ghost predicate Valid()
      reads this
    {
      Inv(Model())
    }

    constructor ()
      ensures Valid() && Model() == EmptyState
    {
      requests, order, workers, agents := map[], [], map[], map[];
      pools := map["default" := Pool("default", "team", 0, "")];
      events, cursors, claims, releases, connects := [], map[], [], [], [];
      lastSeq, notify, nextId := 0, 0, 0;
    }

    method EmitLocked(typ: EventType, data: Payload)
      modifies this
      ensures Model() == Emit(old(Model()), typ, data)
      // The numbering goes on without a gap, so the new event is the newest, and the channel is a new one.
      ensures old(Numbered(Model())) ==> Numbered(Model()) && notify != old(notify)
      ensures old(Numbered(Model())) ==> forall e :: e in old(events) ==> e.num < events[|events| - 1].num
    {
      lastSeq := lastSeq + 1;
      events := events + [Event(lastSeq, typ, data)];
      notify := notify + 1;
    }

    method ChooseId(body: CreateBody) returns (id: string)
      modifies this`nextId
      ensures (Model(), id) == NewId(old(Model()), body)
    {
      id := body.id;
      if id == "" {
        nextId := nextId + 1;
        id := GeneratedId(nextId);
      }
    }

    method Insert(id: string, req: Request, agent: Agent)
      modifies this
      ensures Model() == AddRequest(old(Model()), id, req, agent)
    {
      requests := requests[id := req];
      order := order + [id];
      agents := agents[id := agent];
      EmitLocked(Created, RequestPayload(req.View(0)));
    }

    method CreateAgent(body: CreateBody, nowMs: int) returns (reply: Reply)
      requires Valid()
      modifies this
      ensures Valid() && (Model(), reply) == Fleet.CreateAgent(old(Model()), body, nowMs)
      // The new request is pending in the pool asked for: the body's own, else that of a pool
      // environment, else the default.
      ensures reply == OK ==> order != [] && order[|order| - 1] in requests && order[|order| - 1] !in old(requests)
      ensures reply == OK ==>
        var r := requests[order[|order| - 1]];
        && r.status == Pending && r.labels != [] && r.labels[0].key == "pool" && r.labels[1..] == body.labels
        && (body.pool != "" ==> r.labels[0].value == body.pool)
        && (body.pool == "" && body.envType == "pool" && body.envName != "" ==> r.labels[0].value == body.envName)
        && (body.pool == "" && (body.envType != "pool" || body.envName == "") ==> r.labels[0].value == "default")
    {
      hide Inv, NewId, GeneratedId;
      CreateKeepsInv(Model(), body, nowMs);
      var pool := body.pool;
      if pool == "" && body.envType == "pool" {
        pool := body.envName;
      }
      if pool == "" {
        pool := "default";
      }
      var info := body.info;
      if info.repoUrl == "" && body.repos != [] {
        info := info.(repoUrl := body.repos[0]);
      }
      var id := ChooseId(body);
      if id in requests {
        return Conflict;
      }
      var req := Request(id, info, [Label("pool", pool)] + body.labels, nowMs, "", false, Pending);
      assert req == NewRequest(id, body, nowMs);
      var name := body.name;
      if name == "" {
        name := "fake agent " + id;
      }
      Insert(id, req, Agent(id, name, Active, nowMs, nowMs));
      reply := OK;
    }

    method Claim(id: string, worker: string) returns (reply: Reply)
      requires Valid()
      modifies this
      ensures Valid() && (Model(), reply) == Fleet.Claim(old(Model()), id, worker)
    {
      hide Inv;
      ClaimKeepsInv(Model(), id, worker);
      if id == "" || worker == "" {
        return BadRequest;
      }
      if id !in requests || requests[id].status == Expired {
        return NotFound;
      }
      var req := requests[id];
      if req.status == Claimed {
        return Conflict;
      }
      requests := requests[id := req.(status := Claimed, claimedWorkerId := worker, awaitingWake := false)];
      if worker !in workers {
        workers := workers[worker := Worker(worker, "", req.Pool(), false, 0, "")];
      }
      claims := claims + [(id, worker)];
      EmitLocked(ClaimedEvent, IdPayload(id));
      reply := OK;
    }

    method Release(id: string) returns (reply: Reply)
      requires Valid()
      modifies this
      ensures Valid() && (Model(), reply) == Fleet.Release(old(Model()), id)
    {
      hide Inv;
      ReleaseKeepsInv(Model(), id);
      if id !in requests || requests[id].status != Claimed {
        return NotFound;
      }
      var req := requests[id].(status := Pending, claimedWorkerId := "", awaitingWake := false);
      requests := requests[id := req];
      releases := releases + [id];
      EmitLocked(Created, RequestPayload(req.View(0)));
      reply := OK;
    }

    method ArchiveAgent(id: string, nowMs: int) returns (reply: Reply)
      requires Valid()
      modifies this
      ensures Valid() && (Model(), reply) == Fleet.ArchiveAgent(old(Model()), id, nowMs)
    {
      hide Inv;
      InvStep(Model(), OpArchive(id, nowMs));
      if id !in agents {
        return NotFound;
      }
      agents := agents[id := agents[id].(status := Archived, updatedAt := nowMs)];
      reply := OK;
    }

    method DeleteAgent(id: string) returns (reply: Reply)
      requires Valid()
      modifies this
      ensures Valid() && (Model(), reply) == Fleet.DeleteAgent(old(Model()), id)
    {
      hide Inv;
      DeleteKeepsInv(Model(), id);
      if id !in agents {
        return NotFound;
      }
      agents := agents - {id};
      if id in requests {
        requests := requests[id := requests[id].(status := Expired)];
      }
      reply := OK;
    }

    method Followup(id: string, nowMs: int) returns (reply: Reply)
      requires Valid()
      modifies this
      ensures Valid() && (Model(), reply) == Fleet.Followup(old(Model()), id, nowMs)
    {
      hide Inv;
      FollowupKeepsInv(Model(), id, nowMs);
      if id !in agents || id !in requests {
        return NotFound;
      }
      if agents[id].status == Archived {
        return Conflict;
      }
      agents := agents[id := agents[id].(status := Active, updatedAt := nowMs)];
      var req := requests[id];
      if req.status == Claimed {
        var w := req.claimedWorkerId;
        if w in workers && workers[w].connected {
          workers := workers[w := workers[w].(activeBcId := id)];
        } else {
          req := req.(awaitingWake := true);
          requests := requests[id := req];
          EmitLocked(ClaimedOffline, RequestPayload(req.View(WakeTimeoutMs(Model(), req.Pool()))));
        }
      } else {
        req := req.(status := Pending, claimedWorkerId := "", awaitingWake := false);
        requests := requests[id := req];
        EmitLocked(Created, RequestPayload(req.View(0)));
      }
      reply := OK;
    }

    method ExpireRequest(id: string) returns (reply: Reply)
      requires Valid()
      modifies this
      ensures Valid() && (Model(), reply) == Fleet.ExpireRequest(old(Model()), id)
    {
      hide Inv;
      ExpireKeepsInv(Model(), id);
      if id !in requests {
        return NotFound;
      }
      requests := requests[id := requests[id].(status := Expired, awaitingWake := false)];
      EmitLocked(ExpiredEvent, IdPayload(id));
      reply := OK;
    }

    /** The loop walks the requests in any order and edits two tables as it goes;
        the last hit is the one reported as active. */
    method AdoptRequests(worker: string) returns (active: string)
      requires forall r :: r in requests ==> requests[r].id == r
      modifies this`requests, this`agents
      ensures requests == WakesArrived(old(Model()), HeldRequests(old(Model()), worker))
      ensures agents == AgentsResumed(old(Model()), HeldRequests(old(Model()), worker))
      ensures MayBecomeActive(old(Model()), worker, active)
    {
      ghost var s := Model();
      ghost var held := HeldRequests(s, worker);
      active := "";
      var todo := requests.Keys;
      assert held - todo == {};
      NobodyAdopted(s);
      hide WakesArrived, AgentsResumed;
      while todo != {}
        invariant todo <= s.requests.Keys
        invariant requests == WakesArrived(s, held - todo) && requests.Keys == s.requests.Keys
        invariant agents == AgentsResumed(s, held - todo)
        invariant if held <= todo then active == "" else active in held - todo
      {
        var r :| r in todo;
        NotYetAdopted(s, held - todo, r);
        var req := requests[r];
        if req.status == Claimed && req.claimedWorkerId == worker {
          Adopted(s, held - todo, r);
          assert held - (todo - {r}) == held - todo + {r};
          requests := requests[r := req.(awaitingWake := false)];
          active := req.id;
          if req.id in agents {
            agents := agents[req.id := agents[req.id].(status := Active)];
          }
        } else {
          assert held - (todo - {r}) == held - todo;
        }
        todo := todo - {r};
      }
      assert held - todo == held;
    }

    method ConnectWorker(id: string, body: ConnectBody, nowMs: int)
      requires Valid()
      modifies this
      ensures Valid()
      ensures exists active ::
        && MayBecomeActive(old(Model()), id, active)
        && Model() == Fleet.ConnectWorker(old(Model()), id, body, nowMs, active)
    {
      hide Inv, WakesArrived, AgentsResumed, HeldRequests, MayBecomeActive;
      ghost var s := Model();
      InvKeys(s);
      var wk := if id in workers then workers[id] else Worker(id, "", "", false, 0, "");
      if body.pool != "" {
        wk := wk.(pool := body.pool);
      }
      if wk.pool == "" {
        wk := wk.(pool := "default");
      }
      var active := AdoptRequests(id);
      wk := wk.(name := body.name, connected := true, connectedAtMs := nowMs, activeBcId := active);
      workers := workers[id := wk];
      connects := connects + [ConnectRecord(id, wk.pool, body.wake, body.markerFound, body.requestId, nowMs)];
      assert Model() == Fleet.ConnectWorker(s, id, body, nowMs, active);
      ConnectKeepsInv(s, id, body, nowMs, active);
    }

    method DisconnectWorker(id: string, nowMs: int) returns (reply: Reply)
      requires Valid()
      modifies this
      ensures Valid() && (Model(), reply) == Fleet.DisconnectWorker(old(Model()), id, nowMs)
    {
      hide Inv;
      DisconnectKeepsInv(Model(), id, nowMs);
      if id !in workers {
        return NotFound;
      }
      var wk := workers[id];
      if wk.activeBcId in agents && agents[wk.activeBcId].status == Active {
        agents := agents[wk.activeBcId := agents[wk.activeBcId].(status := Idle, updatedAt := nowMs)];
      }
      workers := workers[id := wk.(connected := false, activeBcId := "")];
      reply := OK;
    }

    method RegisterPool(p: Pool) returns (reply: Reply)
      requires Valid()
      modifies this
      ensures Valid() && (Model(), reply) == Fleet.RegisterPool(old(Model()), p)
    {
      hide Inv;
      OtherTablesKeepInv(Model(), Fleet.RegisterPool(Model(), p).0);
      if p.poolName == "" {
        return BadRequest;
      }
      pools := pools[p.poolName := if p.scope == "" then p.(scope := "team") else p];
      reply := OK;
    }

    /** None when the token slices out of bounds: the handler aborts with nothing changed. */
    method ListPending(pool: string, limit: int, token: string, nowMs: int) returns (page: Option<Page>)
      requires Valid()
      modifies this`cursors
      ensures Valid() && (Model(), page) == Fleet.ListPending(old(Model()), pool, limit, token, nowMs)
    {
      hide Inv;
      InvKeys(Model());
      ListKeepsInv(Model(), pool, limit, token, nowMs);
      var perPage := if limit <= 0 || limit > 100 then 50 else limit;
      var start := Atoi(token);
      var all := [];
      for i := 0 to |order|
        invariant all == Listed(Model(), order[..i], pool)
      {
        assert order[..i + 1][..i] == order[..i];
        var req := requests[order[i]];
        if !(!req.IsPending() || (pool != "" && req.Pool() != pool)) {
          all := all + [req.View(WakeTimeoutMs(Model(), req.Pool()))];
        }
      }
      assert order[..|order|] == order;
      var end := if start + perPage < |all| then start + perPage else |all|;
      if !(0 <= start <= end) {
        return None;
      }
      var next := if end < |all| then Decimal(end) else "";
      var cursor := "c" + Decimal(lastSeq);
      cursors := cursors[cursor := nowMs];
      page := Some(Page(all[start..end], next, cursor));
    }
  }

  lemma NobodyAdopted(s: State)
    ensures WakesArrived(s, {}) == s.requests && AgentsResumed(s, {}) == s.agents
  {
  }

  lemma NotYetAdopted(s: State, done: set<string>, r: string)
    requires r in s.requests && r !in done
    ensures r in WakesArrived(s, done) && WakesArrived(s, done)[r] == s.requests[r]
    ensures r in AgentsResumed(s, done) <==> r in s.agents
    ensures r in s.agents ==> AgentsResumed(s, done)[r] == s.agents[r]
  {
  }

  lemma Adopted(s: State, done: set<string>, r: string)
    requires r in s.requests
    ensures WakesArrived(s, done + {r}) == WakesArrived(s, done)[r := s.requests[r].(awaitingWake := false)]
    ensures AgentsResumed(s, done + {r}) ==
      if r in s.agents then AgentsResumed(s, done)[r := s.agents[r].(status := Active)] else AgentsResumed(s, done)
  {
  }
}
