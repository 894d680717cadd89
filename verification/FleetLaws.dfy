/** What each handler of the fleet server means for those who list and watch, in terms of the
    stored fields alone (internal/fakeapi/server.go). */
module FleetLaws {
  import opened Common
  import opened CursorTypes
  import opened Fleet
  import opened FleetInvariant

  // ---- the listing --------------------------------------------------------------------

  /** Waiting for a worker, or for its claimed worker to wake. */
  ghost predicate Waits(r: Request) { r.status == Pending || (r.status == Claimed && r.awaitingWake) }

  /** The wake window of a pool: its ready timeout, in milliseconds; none when it is not registered. */
  ghost predicate IsWindow(s: State, pool: string, ms: int) {
    && (pool in s.pools ==> ms == s.pools[pool].workerReadyTimeoutSeconds * 1000)
    && (pool !in s.pools ==> ms == 0)
  }

  /** The view shows the request: with its worker and the wake window if a wake is awaited. */
  ghost predicate Shows(s: State, v: PendingRequest, r: Request) {
    && v.id == r.id && v.info == r.info && v.labels == r.labels && v.createdAtMs == r.createdAtMs
    && (!r.awaitingWake ==> v.claimedWorkerId == "" && v.wakeTimeoutMs == 0)
    && (r.awaitingWake ==> v.claimedWorkerId == r.claimedWorkerId)
    && (r.awaitingWake ==> r.labels != [] && IsWindow(s, r.labels[0].value, v.wakeTimeoutMs))
  }

  ghost predicate InListing(s: State, pool: string, id: string)
    requires OrderKnown(s)
  {
    exists v :: v in Listed(s, s.order, pool) && v.id == id
  }

  ghost predicate InPool(r: Request, pool: string) { pool == "" || (r.labels != [] && r.labels[0].value == pool) }

  lemma {:induction false} ListedFrom(s: State, ids: seq<string>, pool: string, v: PendingRequest)
    requires Inv(s) && (forall id :: id in ids ==> id in s.requests) && v in Listed(s, ids, pool)
    ensures v.id in ids && v.id in s.requests
    ensures Waits(s.requests[v.id]) && InPool(s.requests[v.id], pool) && Shows(s, v, s.requests[v.id])
  {
    var last := ids[|ids| - 1];
    if v in Listed(s, ids[..|ids| - 1], pool) {
      ListedFrom(s, ids[..|ids| - 1], pool, v);
    } else {
      assert RequestOk(s, last);
    }
  }

  lemma {:induction false} ListedAll(s: State, ids: seq<string>, pool: string, id: string)
    requires Inv(s) && (forall i :: i in ids ==> i in s.requests) && id in ids
    requires Waits(s.requests[id]) && InPool(s.requests[id], pool)
    ensures exists v :: v in Listed(s, ids, pool) && v.id == id
  {
    var last := ids[|ids| - 1];
    assert RequestOk(s, last);
    if id == last {
      var r := s.requests[id];
      assert r.View(WakeTimeoutMs(s, r.Pool())) in Listed(s, ids, pool);
    } else {
      assert id in ids[..|ids| - 1];
      ListedAll(s, ids[..|ids| - 1], pool, id);
    }
  }

  /** A listing has precisely the waiting requests of its pool, and shows each as it stands. */
  lemma ListingExactly(s: State, pool: string)
    requires Inv(s)
    ensures OrderKnown(s)
    ensures forall id :: InListing(s, pool, id) <==>
      id in s.requests && Waits(s.requests[id]) && InPool(s.requests[id], pool)
    ensures forall v :: v in Listed(s, s.order, pool) ==> v.id in s.requests && Shows(s, v, s.requests[v.id])
  {
    InvKeys(s);
    forall v | v in Listed(s, s.order, pool)
      ensures v.id in s.requests && Waits(s.requests[v.id]) && InPool(s.requests[v.id], pool)
      ensures Shows(s, v, s.requests[v.id])
    {
      ListedFrom(s, s.order, pool, v);
    }
    forall id | id in s.requests && Waits(s.requests[id]) && InPool(s.requests[id], pool)
      ensures InListing(s, pool, id)
    {
      ListedAll(s, s.order, pool, id);
    }
  }

  lemma ListedInItsPool(s: State, id: string)
    requires Inv(s) && id in s.requests
    ensures OrderKnown(s) && s.requests[id].labels != []
    ensures forall p :: InListing(s, p, id) <==>
      Waits(s.requests[id]) && (p == "" || p == s.requests[id].labels[0].value)
  {
    InvKeys(s);
    assert RequestOk(s, id);
    hide Inv, Listed, Waits;
    forall p
      ensures InListing(s, p, id) <==> Waits(s.requests[id]) && (p == "" || p == s.requests[id].labels[0].value)
    {
      ListingExactly(s, p);
    }
  }

  /** And in the order in which they were created. */
  lemma {:induction false} ListingInOrder(s: State, ids: seq<string>, pool: string, a: nat, b: nat)
    returns (i: nat, j: nat)
    requires Inv(s) && (forall id :: id in ids ==> id in s.requests) && a < b < |Listed(s, ids, pool)|
    ensures i < j < |ids| && ids[i] == Listed(s, ids, pool)[a].id && ids[j] == Listed(s, ids, pool)[b].id
  {
    var n := |ids| - 1;
    var front := Listed(s, ids[..n], pool);
    if b < |front| {
      i, j := ListingInOrder(s, ids[..n], pool, a, b);
    } else {
      assert front[a] in front;
      ListedFrom(s, ids[..n], pool, front[a]);
      i :| 0 <= i < n && ids[..n][i] == front[a].id;
      j := n;
      assert RequestOk(s, ids[n]);
    }
  }

  /** One page: the limit asked for, between 1 and 100, else 50; from the token's place on; a
      token for the next page exactly if there is more; and a cursor that opens the stream here.
      A token past the end aborts, and nothing changes. */
  lemma PageExactly(s: State, pool: string, limit: int, size: nat, start: nat, token: string, now: int)
    requires Inv(s) && OrderKnown(s) && (1 <= limit <= 100 ==> size == limit)
    requires limit <= 0 || limit > 100 ==> size == 50
    requires (token == "" && start == 0) || token == Decimal(start)
    ensures var (t, page) := ListPending(s, pool, limit, token, now);
      var all := Listed(s, s.order, pool);
      && (page.None? <==> start > |all|) && (page.None? ==> t == s)
      && (page.Some? ==>
            && page.value.requests == all[start..Min(start + size, |all|)]
            && (page.value.next != "" <==> start + size < |all|)
            && (page.value.next != "" ==> page.value.next == Decimal(start + size))
            && page.value.cursor == "c" + Decimal(s.lastSeq)
            && t == s.(cursors := s.cursors[page.value.cursor := now]))
  {
    DecimalRoundTrip(start);
    assert ParseInt("") == None;
    hide Listed, Inv, Decimal;
  }

  // ---- creating ------------------------------------------------------------------------

  /** The pool a creation asks for: its own, else a pool environment's, else the default. */
  ghost predicate AsksFor(body: CreateBody, pool: string) {
    && (body.pool != "" ==> pool == body.pool)
    && (body.pool == "" && body.envType == "pool" && body.envName != "" ==> pool == body.envName)
    && (body.pool == "" && (body.envType != "pool" || body.envName == "") ==> pool == "default")
  }

  /** The stored request is the one asked for, new and pending. */
  ghost predicate IsAsked(r: Request, id: string, body: CreateBody, pool: string, now: int) {
    && r.id == id && r.status == Pending && r.claimedWorkerId == "" && !r.awaitingWake && r.createdAtMs == now
    && r.labels == [Label("pool", pool)] + body.labels
    && r.info == body.info.(repoUrl := r.info.repoUrl)
    && (body.info.repoUrl != "" || body.repos == [] ==> r.info.repoUrl == body.info.repoUrl)
    && (body.info.repoUrl == "" && body.repos != [] ==> r.info.repoUrl == body.repos[0])
  }

  ghost predicate HasCreated(s: State, t: State, body: CreateBody, pool: string, now: int, id: string) {
    && id !in s.requests && (body.id != "" ==> id == body.id) && t.order == s.order + [id]
    && (body.id == "" ==> id == GeneratedId(t.nextId) && t.nextId == s.nextId + 1)
    && id in t.requests && t.requests == s.requests[id := t.requests[id]]
    && IsAsked(t.requests[id], id, body, pool, now)
    && id in t.agents && t.agents == s.agents[id := t.agents[id]] && t.agents[id].status == Active
    && (body.name != "" ==> t.agents[id].name == body.name)
    && (body.name == "" ==> t.agents[id].name == "fake agent " + id)
    && t.agents[id].id == id && t.agents[id].createdAt == now && t.agents[id].updatedAt == now
    && t.workers == s.workers && t.claims == s.claims && t.releases == s.releases
  }

  /** The last event announces request `id`: a watcher of its pool, or of all, gets it. */
  ghost predicate Announced(s: State, t: State, typ: EventType, id: string, pool: string) {
    && id in t.requests && |t.events| == |s.events| + 1 && s.events <= t.events
    && var e := t.events[|s.events|];
       && e.typ == typ && e.num == |t.events| && e.data.RequestPayload? && Shows(t, e.data.view, t.requests[id])
       && forall p :: StreamFilter(e, p) <==> p == "" || p == pool
  }

  /** A creation is accepted exactly if its id is free; the new request is then listed and
      announced in the pool asked for, and in no other. */
  lemma CreatedWhereAsked(s: State, body: CreateBody, now: int, pool: string)
    requires Inv(s) && AsksFor(body, pool)
    ensures var (t, reply) := CreateAgent(s, body, now);
      && Inv(t) && (reply == OK || reply == Conflict) && (body.id != "" ==> (reply == OK <==> body.id !in s.requests))
      && (reply != OK ==> t == s.(nextId := t.nextId))
      && (reply == OK ==> OrderKnown(t) && exists id ::
            && HasCreated(s, t, body, pool, now, id) && Announced(s, t, Created, id, pool)
            && forall p :: InListing(t, p, id) <==> p == "" || p == pool)
  {
    hide Inv, InListing, GeneratedId, Announced, HasCreated, AsksFor, Waits, OrderKnown;
    var (t, reply) := CreateAgent(s, body, now);
    CreateKeepsInv(s, body, now);
    if reply == OK {
      var id := NewId(s, body).1;
      CreatedIs(s, body, now, pool);
      CreatedTells(s, body, now, pool);
      CreatedWaits(s, t, body, pool, now, id);
      hide CreateAgent;
      ListedInItsPool(t, id);
    }
  }

  lemma CreatedIs(s: State, body: CreateBody, now: int, pool: string)
    requires AsksFor(body, pool) && CreateAgent(s, body, now).1 == OK
    ensures HasCreated(s, CreateAgent(s, body, now).0, body, pool, now, NewId(s, body).1)
  {
    hide GeneratedId;
  }

  lemma CreatedWaits(s: State, t: State, body: CreateBody, pool: string, now: int, id: string)
    requires HasCreated(s, t, body, pool, now, id)
    ensures id in t.requests && Waits(t.requests[id])
    ensures t.requests[id].labels != [] && t.requests[id].labels[0].value == pool
  {
  }

  lemma CreatedTells(s: State, body: CreateBody, now: int, pool: string)
    requires Inv(s) && AsksFor(body, pool) && CreateAgent(s, body, now).1 == OK
    ensures Announced(s, CreateAgent(s, body, now).0, Created, NewId(s, body).1, pool)
  {
    var t, id := CreateAgent(s, body, now).0, NewId(s, body).1;
    hide GeneratedId;
    assert t.requests[id].labels[0] == Label("pool", pool);
    Tells(s, t, Created, id, t.requests[id], 0, pool);
  }

  /** One more event, with the request's view. */
  lemma Tells(s: State, t: State, typ: EventType, id: string, r: Request, window: int, pool: string)
    requires |s.events| == s.lastSeq && id in t.requests && t.requests[id] == r
    requires t.events == s.events + [Event(s.lastSeq + 1, typ, RequestPayload(r.View(window)))]
    requires r.labels != [] && r.labels[0] == Label("pool", pool) && pool != ""
    requires r.awaitingWake ==> IsWindow(t, pool, window)
    ensures Announced(s, t, typ, id, pool)
  {
    PoolsFilter(t.events[|s.events|], pool);
    hide StreamFilter;
  }

  /** The stream's filter, on a payload whose first label is a pool. */
  lemma PoolsFilter(e: Event, pool: string)
    requires e.data.RequestPayload? && e.data.view.labels != [] && e.data.view.labels[0] == Label("pool", pool)
    requires pool != ""
    ensures forall p :: StreamFilter(e, p) <==> p == "" || p == pool
  {
  }

  lemma PaddedLength(width: nat, s: string)
    ensures |PadZero(width, s)| == if |s| < width then width else |s|
    decreases width - |s|
  {
  }

  lemma {:induction false} PaddedValue(width: nat, s: string)
    requires AllDigits(s)
    ensures AllDigits(PadZero(width, s)) && DigitsValue(PadZero(width, s)) == DigitsValue(s)
    decreases width - |s|
  {
    if |s| < width {
      LeadingZero(s);
      PaddedValue(width, "0" + s);
    }
  }

  lemma {:induction false} LeadingZero(s: string)
    requires AllDigits(s)
    ensures AllDigits("0" + s) && DigitsValue("0" + s) == DigitsValue(s)
  {
    var t := "0" + s;
    if s == [] {
      assert t[..0] == [];
    } else {
      LeadingZero(s[..|s| - 1]);
      assert t[..|t| - 1] == "0" + s[..|s| - 1];
    }
  }

  /** Generated ids have the shape of the API's ids, and two are never the same. */
  lemma GeneratedIds(m: nat, n: nat)
    ensures GeneratedId(m)[..3] == "bc-" && |GeneratedId(m)| >= 36
    ensures GeneratedId(m) == GeneratedId(n) ==> m == n
  {
    var tail := "-0000-0000-0000-000000000000";
    var a, b := PadZero(8, Decimal(m)), PadZero(8, Decimal(n));
    PaddedLength(8, Decimal(m));
    assert |tail| == 28;
    if GeneratedId(m) == GeneratedId(n) {
      assert GeneratedId(m)[3..|GeneratedId(m)| - 28] == a && GeneratedId(n)[3..|GeneratedId(n)| - 28] == b;
      PaddedValue(8, Decimal(m));
      PaddedValue(8, Decimal(n));
      DecimalValue(m);
      DecimalValue(n);
    }
  }

  // ---- claiming and releasing --------------------------------------------------------------

  /** A worker nobody knew joins as offline, in the request's pool; a known one stays as it is. */
  ghost predicate JoinsOffline(s: State, t: State, worker: string, r: Request) {
    && r.labels != [] && (worker in s.workers ==> t.workers == s.workers)
    && (worker !in s.workers ==>
          t.workers == s.workers[worker := Worker(worker, "", r.labels[0].value, false, 0, "")])
  }

  lemma ClaimJoins(s: State, id: string, worker: string)
    requires Inv(s) && Claim(s, id, worker).1 == OK
    ensures id in s.requests && JoinsOffline(s, Claim(s, id, worker).0, worker, s.requests[id])
  {
    LabelsAndNumbers(s, id);
    hide Inv;
  }

  /** A claim is accepted exactly for a waiting, unclaimed request and a named worker; the
      request then leaves every listing and belongs to the worker, and the rest stays. */
  lemma ClaimedAndGone(s: State, id: string, worker: string)
    requires Inv(s)
    ensures var (t, reply) := Claim(s, id, worker);
      && Inv(t) && OrderKnown(t)
      && (reply == OK <==> id in s.requests && s.requests[id].status == Pending && worker != "")
      && (reply != OK ==> t == s)
      && (reply == OK ==>
            && t.requests == s.requests[id := s.requests[id].(status := Claimed, claimedWorkerId := worker)]
            && t.claims == s.claims + [(id, worker)] && worker in t.workers && t.agents == s.agents
            && JoinsOffline(s, t, worker, s.requests[id])
            && t.events == s.events + [Event(|s.events| + 1, ClaimedEvent, IdPayload(id))]
            && forall p :: !InListing(t, p, id))
  {
    hide Inv, InListing, OrderKnown, JoinsOffline;
    ClaimKeepsInv(s, id, worker);
    var (t, reply) := Claim(s, id, worker);
    InvKeys(t);
    if id in s.requests {
      LabelsAndNumbers(s, id);
      KeysAreNames(s, id);
    }
    if reply == OK {
      ClaimJoins(s, id, worker);
      ListedInItsPool(t, id);
    }
  }

  lemma KeysAreNames(s: State, id: string)
    requires Inv(s) && id in s.requests
    ensures id != "" && s.requests[id].id == id
    ensures s.requests[id].status == Pending ==> s.requests[id].claimedWorkerId == "" && !s.requests[id].awaitingWake
  {
    assert RequestOk(s, id);
  }

  /** The request waits, listed and told to the watchers of its pool and of all. */
  ghost predicate WaitsAgain(s: State, t: State, typ: EventType, id: string, r: Request) {
    && id in s.requests && s.requests[id].labels != []
    && t.requests == s.requests[id := r] && t.workers == s.workers
    && Announced(s, t, typ, id, s.requests[id].labels[0].value)
    && OrderKnown(t) && forall p :: InListing(t, p, id) <==> p == "" || p == s.requests[id].labels[0].value
  }

  lemma RequeueTells(s: State, id: string)
    requires Inv(s) && id in s.requests && Inv(Requeue(s, id))
    ensures WaitsAgain(s, Requeue(s, id), Created, id,
      s.requests[id].(status := Pending, claimedWorkerId := "", awaitingWake := false))
  {
    hide Inv, InListing, Announced, StreamFilter;
    var t := Requeue(s, id);
    LabelsAndNumbers(s, id);
    ListedInItsPool(t, id);
    Tells(s, t, Created, id, t.requests[id], 0, s.requests[id].labels[0].value);
  }

  lemma AwaitTells(s: State, id: string)
    requires Inv(s) && id in s.requests && s.requests[id].status == Claimed && Inv(AwaitWake(s, id))
    ensures WaitsAgain(s, AwaitWake(s, id), ClaimedOffline, id, s.requests[id].(awaitingWake := true))
  {
    hide Inv, InListing, Announced, StreamFilter;
    var t := AwaitWake(s, id);
    LabelsAndNumbers(s, id);
    ListedInItsPool(t, id);
    var pool := s.requests[id].labels[0].value;
    Tells(s, t, ClaimedOffline, id, t.requests[id], WakeTimeoutMs(s, pool), pool);
  }

  lemma LabelsAndNumbers(s: State, id: string)
    requires Inv(s) && id in s.requests
    ensures s.lastSeq == |s.events| && s.requests[id].labels != []
    ensures s.requests[id].labels[0].key == "pool" && s.requests[id].labels[0].value != ""
  {
    assert RequestOk(s, id);
  }

  /** Claiming and releasing gives the requests back as they were, announced and listed again. */
  lemma ReleaseUndoesClaim(s: State, id: string, worker: string)
    requires Inv(s) && Claim(s, id, worker).1 == OK
    ensures id in s.requests
    ensures var (t, reply) := Release(Claim(s, id, worker).0, id);
      && reply == OK && Inv(t) && t.requests == s.requests && t.agents == s.agents && t.releases == s.releases + [id]
      && WaitsAgain(Claim(s, id, worker).0, t, Created, id, s.requests[id])
  {
    hide Inv, Claim, Release, InListing, WaitsAgain, OrderKnown;
    ClaimedAndGone(s, id, worker);
    PendingIsFree(s, id);
    var c := Claim(s, id, worker).0;
    ClaimReleasesNone(s, id, worker);
    ReleaseTells(c, id);
    ReleaseKeepsInv(c, id);
    WaitsMeans(c, Release(c, id).0, Created, id, s.requests[id]);
    assert c.requests[id := s.requests[id]] == s.requests;
  }

  lemma PendingIsFree(s: State, id: string)
    requires Inv(s) && id in s.requests && s.requests[id].status == Pending
    ensures s.requests[id].claimedWorkerId == "" && !s.requests[id].awaitingWake
  {
    assert RequestOk(s, id);
  }

  lemma ClaimReleasesNone(s: State, id: string, worker: string)
    ensures Claim(s, id, worker).0.releases == s.releases
  {
  }

  lemma WaitsMeans(s: State, t: State, typ: EventType, id: string, r: Request)
    requires WaitsAgain(s, t, typ, id, r)
    ensures t.requests == s.requests[id := r] && OrderKnown(t)
  {
  }

  lemma WaitsFromSame(s: State, s': State, t: State, typ: EventType, id: string, r: Request)
    requires WaitsAgain(s, t, typ, id, r)
    requires s'.requests == s.requests && s'.workers == s.workers && s'.events == s.events
    ensures WaitsAgain(s', t, typ, id, r)
  {
    hide InListing, Shows, StreamFilter;
  }

  lemma ReleaseTells(s: State, id: string)
    requires Inv(s) && id in s.requests && s.requests[id].status == Claimed
    ensures var (t, reply) := Release(s, id);
      && reply == OK && t.agents == s.agents && t.releases == s.releases + [id]
      && WaitsAgain(s, t, Created, id, s.requests[id].(status := Pending, claimedWorkerId := "", awaitingWake := false))
  {
    var s1 := s.(releases := s.releases + [id]);
    OtherTablesKeepInv(s, s1);
    assert RequestOk(s, id);
    RequeueKeepsInv(s1, id);
    RequeueTells(s1, id);
    hide Inv, WaitsAgain;
    WaitsFromSame(s1, s, Requeue(s1, id), Created, id,
      s.requests[id].(status := Pending, claimedWorkerId := "", awaitingWake := false));
  }

  /** Only a claimed request is released. */
  lemma ReleasedExactly(s: State, id: string)
    requires Inv(s)
    ensures var (t, reply) := Release(s, id);
      && (reply == OK <==> id in s.requests && s.requests[id].status == Claimed)
      && (reply != OK ==> reply == NotFound && t == s)
      && (reply == OK ==> t.requests == s.requests[id :=
            s.requests[id].(status := Pending, claimedWorkerId := "", awaitingWake := false)])
  {
  }

  // ---- the end of a request ------------------------------------------------------------------

  /** Over: in no listing, and neither claimed nor released again. */
  ghost predicate Over(t: State, id: string)
    requires OrderKnown(t)
  {
    && (forall p :: !InListing(t, p, id)) && (forall w :: w != "" ==> Claim(t, id, w) == (t, NotFound))
    && Release(t, id) == (t, NotFound)
  }

  lemma ExpiredIsOver(t: State, id: string)
    requires Inv(t) && id in t.requests && t.requests[id].status == Expired
    ensures OrderKnown(t) && Over(t, id)
  {
    InvKeys(t);
    forall p ensures !InListing(t, p, id) { ListingExactly(t, p); }
    assert RequestOk(t, id);
  }

  /** Expiring a request, or deleting its agent, ends it; only expiring tells the watchers. */
  lemma EndedIsOver(s: State, id: string)
    requires Inv(s) && id in s.requests
    ensures var (t, reply) := ExpireRequest(s, id);
      && reply == OK && Inv(t) && OrderKnown(t) && Over(t, id) && t.agents == s.agents && t.workers == s.workers
      && t.requests == s.requests[id := s.requests[id].(status := Expired, awaitingWake := false)]
      && t.events == s.events + [Event(|s.events| + 1, ExpiredEvent, IdPayload(id))]
    ensures id in s.agents ==> var (t, reply) := DeleteAgent(s, id);
      && reply == OK && Inv(t) && OrderKnown(t) && Over(t, id) && t.events == s.events && t.agents == s.agents - {id}
      && t.requests == s.requests[id := s.requests[id].(status := Expired)]
  {
    ExpireKeepsInv(s, id);
    ExpiredIsOver(ExpireRequest(s, id).0, id);
    if id in s.agents {
      DeleteKeepsInv(s, id);
      ExpiredIsOver(DeleteAgent(s, id).0, id);
    }
  }

  // ---- follow-ups and the worker's connection -----------------------------------------------

  /** A follow-up for an active agent: the offline worker's wake is awaited and asked for with
      its pool's window; a connected worker takes it up at once; without a worker the request
      waits to be claimed. */
  lemma FollowedUp(s: State, id: string, now: int)
    requires Inv(s) && id in s.agents && s.agents[id].status != Archived
    ensures id in s.requests
    ensures var (t, reply) := Followup(s, id, now);
      var r := s.requests[id];
      var w := r.claimedWorkerId;
      && reply == OK && Inv(t) && OrderKnown(t) && id in t.agents
      && t.agents == s.agents[id := s.agents[id].(status := Active, updatedAt := now)]
      && (r.status == Claimed && w in s.workers && s.workers[w].connected ==>
            && t.requests == s.requests && t.events == s.events
            && t.workers == s.workers[w := s.workers[w].(activeBcId := id)]
            && forall p :: !InListing(t, p, id))
      && (r.status == Claimed && (w !in s.workers || !s.workers[w].connected) ==>
            WaitsAgain(s, t, ClaimedOffline, id, r.(awaitingWake := true)))
      && (r.status != Claimed ==>
            WaitsAgain(s, t, Created, id, r.(status := Pending, claimedWorkerId := "", awaitingWake := false)))
  {
    hide Inv, WaitsAgain, InListing, Requeue, AwaitWake, OrderKnown, Waits;
    FollowupKeepsInv(s, id, now);
    AgentHasRequest(s, id);
    var t, w := Followup(s, id, now).0, s.requests[id].claimedWorkerId;
    InvKeys(t);
    var s1 := s.(agents := s.agents[id := s.agents[id].(status := Active, updatedAt := now)]);
    AgentFieldsKeepInv(s, s1);
    AgentsSame(s1, id);
    var r := s.requests[id];
    if r.status != Claimed {
      RequeueKeepsInv(s1, id);
      RequeueTells(s1, id);
      WaitsFromSame(s1, s, t, Created, id, r.(status := Pending, claimedWorkerId := "", awaitingWake := false));
    } else if !IsConnected(s, w) {
      AwaitWakeKeepsInv(s1, id);
      AwaitTells(s1, id);
      WaitsFromSame(s1, s, t, ClaimedOffline, id, r.(awaitingWake := true));
    } else {
      ListedInItsPool(t, id);
      ConnectedIsAwake(s, id);
    }
  }

  lemma AgentHasRequest(s: State, id: string)
    requires Inv(s) && id in s.agents
    ensures id in s.requests
  {
  }

  lemma ConnectedIsAwake(s: State, id: string)
    requires Inv(s) && id in s.requests && IsConnected(s, s.requests[id].claimedWorkerId)
    requires s.requests[id].status == Claimed
    ensures !Waits(s.requests[id])
  {
    assert RequestOk(s, id);
  }

  lemma AgentsSame(s: State, id: string)
    requires id in s.requests
    ensures Requeue(s, id).agents == AwaitWake(s, id).agents == s.agents
  {
  }

  /** Archived agents and unknown ones take no follow-up, and nothing changes. */
  lemma NotFollowedUp(s: State, id: string, now: int)
    requires id !in s.agents || id !in s.requests || s.agents[id].status == Archived
    ensures Followup(s, id, now) ==
      (s, if id in s.agents && id in s.requests then Conflict else NotFound)
  {
  }

  /** An archived agent is archived from then on, and only it: its follow-ups conflict. */
  lemma ArchivedIsClosed(s: State, id: string, now: int, later: int)
    requires Inv(s)
    ensures var (t, reply) := ArchiveAgent(s, id, now);
      && (reply == OK <==> id in s.agents) && (reply != OK ==> t == s)
      && (reply == OK ==>
            && t == s.(agents := s.agents[id := s.agents[id].(status := Archived, updatedAt := now)])
            && Followup(t, id, later) == (t, Conflict))
  {
    if id in s.agents { AgentHasRequest(s, id); }
  }

  ghost predicate Holds(s: State, w: string, id: string) {
    id in s.requests && s.requests[id].status == Claimed && s.requests[id].claimedWorkerId == w
  }

  /** A worker that connects ends the waits for it and resumes the agents of what it holds;
      a follow-up for one of its requests then reaches it at once. */
  lemma ConnectedTakesOver(s: State, w: string, body: ConnectBody, now: int, active: string, id: string)
    requires Inv(s) && MayBecomeActive(s, w, active) && id in s.requests
    ensures var t := ConnectWorker(s, w, body, now, active);
      && Inv(t) && OrderKnown(t) && w in t.workers && t.workers[w].connected
      && t.events == s.events && t.order == s.order
      && (body.pool != "" ==> t.workers[w].pool == body.pool) && t.workers[w].name == body.name
      && t.workers == s.workers[w := t.workers[w]] && id in t.requests
      && t.workers[w].id == (if w in s.workers then s.workers[w].id else w) && t.workers[w].connectedAtMs == now
      && (body.pool == "" && w in s.workers && s.workers[w].pool != "" ==> t.workers[w].pool == s.workers[w].pool)
      && (body.pool == "" && (w !in s.workers || s.workers[w].pool == "") ==> t.workers[w].pool == "default")
      && t.connects == s.connects +
           [ConnectRecord(w, t.workers[w].pool, body.wake, body.markerFound, body.requestId, now)]
      && (t.workers[w].activeBcId != "" ==> Holds(s, w, t.workers[w].activeBcId))
      && (s.requests[id].status == Claimed && s.requests[id].claimedWorkerId == w ==>
            && t.requests[id] == s.requests[id].(awaitingWake := false) && (forall p :: !InListing(t, p, id))
            && t.workers[w].activeBcId != ""
            && (id in s.agents ==> t.agents[id].status == Active))
      && (s.requests[id].status != Claimed || s.requests[id].claimedWorkerId != w ==>
            t.requests[id] == s.requests[id] && (id in s.agents ==> t.agents[id] == s.agents[id]))
  {
    ConnectKeepsInv(s, w, body, now, active);
    var t := ConnectWorker(s, w, body, now, active);
    InvKeys(t);
    if s.requests[id].status == Claimed && s.requests[id].claimedWorkerId == w {
      assert id in HeldRequests(s, w);
      forall p ensures !InListing(t, p, id) { ListingExactly(t, p); }
    }
    assert id in s.agents ==> id in t.agents;
  }

  /** A worker that disconnects is offline, idles the agent it was active with, and leaves the
      requests as they are: the next follow-up awaits its wake. */
  lemma DisconnectedIsOffline(s: State, w: string, now: int)
    requires Inv(s)
    ensures var (t, reply) := DisconnectWorker(s, w, now);
      && (reply == OK <==> w in s.workers) && (reply != OK ==> t == s)
      && (reply == OK ==>
            && t.workers == s.workers[w := s.workers[w].(connected := false, activeBcId := "")]
            && t.requests == s.requests && t.events == s.events
            && var a := s.workers[w].activeBcId;
               t.agents == if a in s.agents && s.agents[a].status == Active
                 then s.agents[a := s.agents[a].(status := Idle, updatedAt := now)] else s.agents)
  {
  }

  /** A registered pool gives its follow-ups their wake window, and asks for team scope unless told otherwise. */
  lemma RegisteredWindow(s: State, row: Pool)
    requires row.poolName != ""
    ensures var (t, reply) := RegisterPool(s, row);
      && reply == OK && IsWindow(t, row.poolName, row.workerReadyTimeoutSeconds * 1000)
      && t == s.(pools := t.pools) && t.pools == s.pools[row.poolName := t.pools[row.poolName]]
      && t.pools[row.poolName].scope == (if row.scope == "" then "team" else row.scope)
      && t.pools[row.poolName].repoUrl == row.repoUrl && t.pools[row.poolName].poolName == row.poolName
  {
  }

  // ---- cursors ----------------------------------------------------------------------------------

  /** A cursor opens a stream exactly while it is issued and no older than its life. */
  lemma OpensWhileYoung(s: State, cursor: string, now: int, ttl: int)
    requires Inv(s)
    ensures OpenStream(s, cursor, now, ttl).StreamAfter? <==> cursor in s.cursors && now - s.cursors[cursor] <= ttl
    ensures !OpenStream(s, cursor, now, ttl).StreamAfter? ==> OpenStream(s, cursor, now, ttl) == CursorGone
    ensures forall n: nat :: cursor == CursorText(n) && OpenStream(s, cursor, now, ttl).StreamAfter? ==>
      OpenStream(s, cursor, now, ttl).after == n
  {
    forall n: nat | cursor == CursorText(n) ensures ParseInt(TrimC(cursor)) == Some(n) {
      DecimalRoundTrip(n);
      assert TrimC(cursor) == Decimal(n);
    }
  }
}
