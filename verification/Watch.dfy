/** List, then watch: nothing that needs the controller is lost between the two
    (internal/fakeapi/server.go listPending/stream, internal/cursorapi/types.go Pool). */
module Watch {
  import opened Common
  import opened CursorTypes
  import opened Fleet
  import opened FleetInvariant

  /** The event tells a controller that request `id` wants attention. */
  predicate Announces(e: Event, id: string) {
    (e.typ == Created || e.typ == ClaimedOffline) && e.data.RequestPayload? && e.data.view.id == id
  }

  /** The newest announcement of `id`, if any. */
  function Newest(events: seq<Event>, id: string): Option<Event> {
    if events == [] then None
    else if Announces(events[|events| - 1], id) then Some(events[|events| - 1])
    else Newest(events[..|events| - 1], id)
  }

  predicate PendingAs(s: State, id: string, worker: string, labels: seq<Label>) {
    && id in s.requests && s.requests[id].IsPending()
    && s.requests[id].claimedWorkerId == worker && s.requests[id].labels == labels
  }

  /** The event carries this worker and these labels; an offline claim always names a worker. */
  predicate Carries(e: Event, worker: string, labels: seq<Label>) {
    && e.data.RequestPayload? && e.data.view.claimedWorkerId == worker && e.data.view.labels == labels
    && (e.typ == ClaimedOffline ==> worker != "")
  }

  /** What holds between the listing's state and every later one: a request that
      is pending now was either announced since, newest announcement up to date,
      or has been pending all along, unchanged. */
  ghost predicate Tracked(listed: State, now: State, id: string) {
    && listed.events <= now.events
    && (id in now.requests && now.requests[id].IsPending() ==>
          var r := now.requests[id];
          match Newest(now.events[|listed.events|..], id)
          case Some(e) => Carries(e, r.claimedWorkerId, r.labels)
          case None => PendingAs(listed, id, r.claimedWorkerId, r.labels))
  }

  /** A step from `s` to `s'` seen from request `id`: if it ends pending, the step
      announced it with its current worker, or it was pending just so before. */
  ghost predicate Announced(s: State, s': State, id: string) {
    && (s'.events == s.events || (|s'.events| == |s.events| + 1 && s.events <= s'.events))
    && (id in s'.requests && s'.requests[id].IsPending() ==>
          var r := s'.requests[id];
          if s'.events != s.events && Announces(s'.events[|s.events|], id)
          then Carries(s'.events[|s.events|], r.claimedWorkerId, r.labels)
          else PendingAs(s, id, r.claimedWorkerId, r.labels))
  }

  lemma TrackedExtends(listed: State, s: State, s': State, id: string)
    requires Tracked(listed, s, id) && Announced(s, s', id)
    ensures Tracked(listed, s', id)
  {
    var n := |listed.events|;
    if s'.events != s.events {
      assert s'.events[n..][..|s.events| - n] == s.events[n..];
      assert s'.events[n..][|s.events| - n] == s'.events[|s.events|];
    }
  }

  // ---- every handler announces what it makes pending ------------------------------

  lemma CreateAnnounces(s: State, body: CreateBody, now: int, id: string)
    ensures Announced(s, CreateAgent(s, body, now).0, id)
  {
  }

  lemma ClaimAnnounces(s: State, r: string, worker: string, id: string)
    ensures Announced(s, Claim(s, r, worker).0, id)
  {
  }

  lemma RequeueAnnounces(s: State, r: string, id: string)
    requires r in s.requests && s.requests[r].id == r
    ensures Announced(s, Requeue(s, r), id)
  {
  }

  lemma AwaitWakeAnnounces(s: State, r: string, id: string)
    requires r in s.requests && s.requests[r].id == r && s.requests[r].claimedWorkerId != ""
    ensures Announced(s, AwaitWake(s, r), id)
  {
  }

  lemma FollowupAnnounces(s: State, r: string, now: int, id: string)
    requires Inv(s)
    ensures Announced(s, Followup(s, r, now).0, id)
  {
    InvKeys(s);
    if r in s.requests {
      assert s.requests[r].status == Claimed ==> s.requests[r].claimedWorkerId != "" by { assert RequestOk(s, r); }
    }
    hide Inv, IsConnected, Announced;
    if Followup(s, r, now).1 == OK {
      var s1 := s.(agents := s.agents[r := s.agents[r].(status := Active, updatedAt := now)]);
      RequeueAnnounces(s1, r, id);
      if s.requests[r].status == Claimed { AwaitWakeAnnounces(s1, r, id); }
      hide Requeue, AwaitWake;
    }
  }

  lemma ReleaseAnnounces(s: State, r: string, id: string)
    requires Inv(s)
    ensures Announced(s, Release(s, r).0, id)
  {
    InvKeys(s);
    hide Inv;
    if Release(s, r).1 == OK {
      RequeueAnnounces(s.(releases := s.releases + [r]), r, id);
    }
  }

  lemma ConnectAnnounces(s: State, w: string, body: ConnectBody, now: int, active: string, id: string)
    ensures Announced(s, ConnectWorker(s, w, body, now, active), id)
  {
  }

  lemma ExpireAnnounces(s: State, r: string, id: string)
    ensures Announced(s, ExpireRequest(s, r).0, id)
  {
  }

  lemma DeleteAnnounces(s: State, r: string, id: string)
    ensures Announced(s, DeleteAgent(s, r).0, id)
  {
  }

  lemma OtherTablesAnnounce(s: State, s': State, id: string)
    requires s'.events == s.events && s'.requests == s.requests
    ensures Announced(s, s', id)
  {
  }

  lemma StepAnnounces(s: State, op: Op, id: string)
    requires Inv(s) && Enabled(s, op)
    ensures Announced(s, Apply(s, op), id)
  {
    hide Inv, Announced, Followup, ConnectWorker, NewId, Requeue;
    match op
    case OpCreate(body, now) => CreateAnnounces(s, body, now, id);
    case OpClaim(r, worker) => ClaimAnnounces(s, r, worker, id);
    case OpRelease(r) => ReleaseAnnounces(s, r, id);
    case OpFollowup(r, now) => FollowupAnnounces(s, r, now, id);
    case OpConnect(w, body, now, active) => ConnectAnnounces(s, w, body, now, active, id);
    case OpArchive(r, now) => OtherTablesAnnounce(s, ArchiveAgent(s, r, now).0, id);
    case OpDelete(r) => DeleteAnnounces(s, r, id);
    case OpExpire(r) => ExpireAnnounces(s, r, id);
    case OpDisconnect(w, now) => OtherTablesAnnounce(s, DisconnectWorker(s, w, now).0, id);
    case OpRegisterPool(row) => OtherTablesAnnounce(s, RegisterPool(s, row).0, id);
    case OpList(pool, limit, token, now) => OtherTablesAnnounce(s, ListPending(s, pool, limit, token, now).0, id);
  }

  /** Over any run after the listing, every request stays tracked. */
  lemma {:induction false} TrackedAlways(listed: State, s: State, ops: seq<Op>, id: string)
    requires Inv(s) && Legal(s, ops) && Tracked(listed, s, id)
    ensures Tracked(listed, Run(s, ops), id)
    decreases |ops|
  {
    if ops != [] {
      InvStep(s, ops[0]);
      StepAnnounces(s, ops[0], id);
      TrackedExtends(listed, s, Apply(s, ops[0]), id);
      hide Inv, Tracked;
      TrackedAlways(listed, Apply(s, ops[0]), ops[1..], id);
    }
  }

  // ---- the listing ------------------------------------------------------------------

  /** The two pool rules agree wherever the first label is a non-empty pool. */
  lemma PoolRulesAgree(r: Request, view: PendingRequest)
    requires r.labels != [] && r.labels[0].key == "pool" && r.labels[0].value != ""
    requires view.labels == r.labels
    ensures r.Pool() == view.Pool() == r.labels[0].value
  {
  }

  /** A listing shows each pending request of its pool, exactly once and as it stands. */
  lemma {:induction false} ListedShows(s: State, ids: seq<string>, pool: string, id: string)
    requires forall i :: i in ids ==> i in s.requests
    requires id in ids && s.requests[id].IsPending() && (pool == "" || s.requests[id].Pool() == pool)
    ensures s.requests[id].View(WakeTimeoutMs(s, s.requests[id].Pool())) in Listed(s, ids, pool)
  {
    var last := ids[|ids| - 1];
    if id != last {
      assert id in ids[..|ids| - 1];
      ListedShows(s, ids[..|ids| - 1], pool, id);
    }
  }

  /** The newest announcement sits at a position, and nothing after it announces the request again. */
  lemma {:induction false} NewestPosition(events: seq<Event>, id: string) returns (k: nat)
    requires Newest(events, id).Some?
    ensures k < |events| && events[k] == Newest(events, id).value && Announces(events[k], id)
    ensures forall j :: k < j < |events| ==> !Announces(events[j], id)
  {
    k := |events| - 1;
    if !Announces(events[k], id) {
      k := NewestPosition(events[..|events| - 1], id);
    }
  }

  /** The request was in the listing with the labels, and the worker, it has now. */
  ghost predicate InListing(listing: seq<PendingRequest>, id: string, worker: string, labels: seq<Label>) {
    exists v :: v in listing && v.id == id && v.claimedWorkerId == worker && v.labels == labels
  }

  /** Event `k` tells the stream's reader about `id`, with its current worker, and no later event does. */
  ghost predicate ToldBy(s: State, k: nat, after: int, pool: string, id: string, worker: string, labels: seq<Label>) {
    && k < |s.events|
    && s.events[k].num > after && StreamFilter(s.events[k], pool)
    && Announces(s.events[k], id) && Carries(s.events[k], worker, labels)
    && forall j :: k < j < |s.events| ==> !Announces(s.events[j], id)
  }

  lemma TrackedFromStart(listed: State, id: string)
    requires Inv(listed)
    ensures Tracked(listed, listed, id)
  {
  }

  lemma LabelsOk(s: State, id: string)
    requires Inv(s) && id in s.requests
    ensures var l := s.requests[id].labels; l != [] && l[0].key == "pool" && l[0].value != ""
  {
    assert RequestOk(s, id);
  }

  lemma EventNumber(s: State, n: nat)
    requires Inv(s) && n < |s.events|
    ensures s.events[n].num == n + 1
  {
  }

  lemma LastNumber(s: State)
    requires Inv(s)
    ensures s.lastSeq == |s.events|
  {
  }

  /** Announced since the listing: the newest announcement tells its reader. */
  lemma AnnouncedIsTold(listed: State, s: State, pool: string, id: string)
    requires Inv(listed) && Inv(s) && Tracked(listed, s, id)
    requires id in s.requests && s.requests[id].IsPending()
    requires pool == "" || s.requests[id].View(0).Pool() == pool
    requires Newest(s.events[|listed.events|..], id).Some?
    ensures exists k: nat ::
        ToldBy(s, k, listed.lastSeq, pool, id, s.requests[id].claimedWorkerId, s.requests[id].labels)
  {
    hide Inv, Announces;
    var r := s.requests[id];
    LabelsOk(s, id);
    PoolRulesAgree(r, r.View(0));
    var later := s.events[|listed.events|..];
    var k := NewestPosition(later, id);
    var n := |listed.events| + k;
    assert s.events[n] == later[k];
    EventNumber(s, n);
    forall j | n < j < |s.events| ensures !Announces(s.events[j], id) {
      assert s.events[j] == later[j - |listed.events|];
    }
    LastNumber(listed);
    PoolRulesAgree(r, s.events[n].data.view);
    assert ToldBy(s, n, listed.lastSeq, pool, id, r.claimedWorkerId, r.labels);
  }

  /** Not announced since: it was listed just as it is. */
  lemma UnannouncedIsListed(listed: State, r: Request, pool: string, id: string)
    requires Inv(listed) && PendingAs(listed, id, r.claimedWorkerId, r.labels)
    requires pool == "" || r.View(0).Pool() == pool
    ensures InListing(Listed(listed, listed.order, pool), id, r.claimedWorkerId, r.labels)
  {
    assert RequestOk(listed, id);
    var q := listed.requests[id];
    PoolRulesAgree(q, q.View(0));
    ListedShows(listed, listed.order, pool, id);
    var v := q.View(WakeTimeoutMs(listed, q.Pool()));
    assert v.id == id && v.claimedWorkerId == r.claimedWorkerId && v.labels == r.labels;
  }

  lemma TrackedMeans(listed: State, s: State, pool: string, id: string)
    requires Inv(listed) && Inv(s) && Tracked(listed, s, id)
    requires id in s.requests && s.requests[id].IsPending()
    requires pool == "" || s.requests[id].View(0).Pool() == pool
    ensures
      var r := s.requests[id];
      || InListing(Listed(listed, listed.order, pool), id, r.claimedWorkerId, r.labels)
      || exists k: nat :: ToldBy(s, k, listed.lastSeq, pool, id, r.claimedWorkerId, r.labels)
  {
    if Newest(s.events[|listed.events|..], id).Some? {
      AnnouncedIsTold(listed, s, pool, id);
    } else {
      hide Inv, InListing, Listed;
      InvKeys(listed);
      UnannouncedIsListed(listed, s.requests[id], pool, id);
    }
  }

  /** List-then-watch loses nothing. List `pool` in a reachable state; in every
      state reached later, each request of the pool that is pending or awaits a
      wake was in the listing with its current worker, or a created or
      claimed_offline event numbered above the listing's cursor passes the
      stream's pool filter and its newest payload carries the current worker. */
  lemma ListThenWatch(listed: State, ops: seq<Op>, pool: string, id: string)
    requires Inv(listed) && Legal(listed, ops)
    requires var s := Run(listed, ops); id in s.requests && s.requests[id].IsPending()
    requires pool == "" || Run(listed, ops).requests[id].View(0).Pool() == pool
    ensures
      var s := Run(listed, ops);
      var r := s.requests[id];
      || InListing(Listed(listed, listed.order, pool), id, r.claimedWorkerId, r.labels)
      || exists k: nat :: ToldBy(s, k, listed.lastSeq, pool, id, r.claimedWorkerId, r.labels)
  {
    TrackedFromStart(listed, id);
    TrackedAlways(listed, listed, ops, id);
    InvHoldsAlways(listed, ops);
    TrackedMeans(listed, Run(listed, ops), pool, id);
  }
}
