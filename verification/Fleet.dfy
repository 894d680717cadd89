/** The fleet server as values: its state and what each handler does to it
    (internal/fakeapi/server.go). `FleetServer.Server` is the object whose methods
    run these steps in place under the mutex. */
module Fleet {
  import opened Common
  import opened CursorTypes

  datatype Status = Pending | Claimed | Expired

  datatype AgentStatus = Active | Idle | Archived

  datatype Request = Request(
    id: string,
    info: RequestInfo,
    labels: seq<Label>,
    createdAtMs: int,
    claimedWorkerId: string,
    awaitingWake: bool,
    status: Status)
  {
    /** `Request.pool`: the first pool label, even when its value is empty. */
    function Pool(): string {
      match FirstLabel(labels, "pool") case Some(v) => v case None => "default"
    }

    /** `isPendingLocked`. */
    predicate IsPending() { status == Pending || (status == Claimed && awaitingWake) }

    /** `pendingView`: the claimed worker is shown only while a wake is awaited. */
    function View(wakeTimeoutMs: int): PendingRequest {
      if awaitingWake
      then PendingRequest(id, info, labels, createdAtMs, claimedWorkerId, wakeTimeoutMs)
      else PendingRequest(id, info, labels, createdAtMs, "", 0)
    }

    predicate HeldBy(worker: string) { status == Claimed && claimedWorkerId == worker }
  }

  datatype Worker = Worker(id: string, name: string, pool: string, connected: bool, connectedAtMs: int,
    activeBcId: string)

  datatype Agent = Agent(id: string, name: string, status: AgentStatus, createdAt: int, updatedAt: int)

  /** A registered pool; the ready timeout is the wake window in seconds. */
  datatype Pool = Pool(poolName: string, scope: string, workerReadyTimeoutSeconds: int, repoUrl: string)

  datatype EventType = Created | ClaimedEvent | ClaimedOffline | ExpiredEvent

  /** What an event's JSON payload carries: a whole request, or just its id. */
  datatype Payload = RequestPayload(view: PendingRequest) | IdPayload(id: string)
  {
    function RequestId(): string { match this case RequestPayload(v) => v.id case IdPayload(i) => i }
  }

  datatype Event = Event(num: int, typ: EventType, data: Payload)

  datatype ConnectRecord = ConnectRecord(workerId: string, pool: string, wake: bool, markerFound: bool,
    requestId: string, atMs: int)

  datatype State = State(
    requests: map<string, Request>,
    order: seq<string>,
    workers: map<string, Worker>,
    agents: map<string, Agent>,
    pools: map<string, Pool>,
    events: seq<Event>,
    cursors: map<string, int>,
    claims: seq<(string, string)>,
    releases: seq<string>,
    connects: seq<ConnectRecord>,
    lastSeq: int,
    notify: nat,
    nextId: nat)

  /** The HTTP outcome of a handler. */
  datatype Reply = OK | BadRequest | NotFound | Conflict

  datatype CreateBody = CreateBody(
    id: string, name: string, pool: string, envType: string, envName: string,
    info: RequestInfo, repos: seq<string>, labels: seq<Label>)

  datatype ConnectBody = ConnectBody(pool: string, name: string, wake: bool, markerFound: bool, requestId: string)

  const EmptyState := State(map[], [], map[], map[], map["default" := Pool("default", "team", 0, "")], [], map[], [],
    [], [], 0, 0, 0)

  // ---- shared helpers ---------------------------------------------------------

  /** `emitLocked`: number the event, append it, close the notify channel and
      open the next one. Channels are named by how many were opened before. */
  function Emit(s: State, typ: EventType, data: Payload): State {
    s.(lastSeq := s.lastSeq + 1, events := s.events + [Event(s.lastSeq + 1, typ, data)], notify := s.notify + 1)
  }

  function WakeTimeoutMs(s: State, pool: string): int {
    if pool in s.pools then s.pools[pool].workerReadyTimeoutSeconds * 1000 else 0
  }

  /** `eventMatchesPool`: payloads without labels are always delivered. */
  predicate EventMatchesPool(e: Event, pool: string) {
    e.data.RequestPayload? && e.data.view.labels != [] ==> e.data.view.Pool() == pool
  }

  /** The filter the stream loop applies; an empty pool means every event. */
  predicate StreamFilter(e: Event, pool: string) { pool != "" ==> EventMatchesPool(e, pool) }

  function PadZero(width: nat, s: string): (r: string)
    ensures |r| >= |s|
    decreases width - |s|
  {
    if |s| >= width then s else PadZero(width, "0" + s)
  }

  /** `fmt.Sprintf("bc-%08d-0000-0000-0000-000000000000", n)`. */
  function GeneratedId(n: nat): string {
    "bc-" + PadZero(8, Decimal(n)) + "-0000-0000-0000-000000000000"
  }

  function CursorText(n: nat): string { "c" + Decimal(n) }

  // ---- handlers ---------------------------------------------------------------

  function BodyPool(body: CreateBody): string {
    var pool := if body.pool == "" && body.envType == "pool" then body.envName else body.pool;
    if pool == "" then "default" else pool
  }

  function BodyInfo(body: CreateBody): RequestInfo {
    if body.info.repoUrl == "" && body.repos != [] then body.info.(repoUrl := body.repos[0]) else body.info
  }

  function NewRequest(id: string, body: CreateBody, nowMs: int): Request {
    Request(id, BodyInfo(body), [Label("pool", BodyPool(body))] + body.labels, nowMs, "", false, Pending)
  }

  /** The id a creation uses: the caller's, else a generated one (the counter
      advances even when the generated id turns out to be taken). */
  function NewId(s: State, body: CreateBody): (r: (State, string))
    ensures r.1 != ""
    ensures r.0 == s.(nextId := r.0.nextId)
  {
    if body.id == "" then (s.(nextId := s.nextId + 1), GeneratedId(s.nextId + 1)) else (s, body.id)
  }

  function AddRequest(s: State, id: string, req: Request, agent: Agent): State {
    Emit(s.(requests := s.requests[id := req], order := s.order + [id], agents := s.agents[id := agent]),
         Created, RequestPayload(req.View(0)))
  }

  function CreateAgent(s: State, body: CreateBody, nowMs: int): (State, Reply) {
    var (s1, id) := NewId(s, body);
    if id in s.requests then (s1, Conflict) else
    var name := if body.name == "" then "fake agent " + id else body.name;
    (AddRequest(s1, id, NewRequest(id, body, nowMs), Agent(id, name, Active, nowMs, nowMs)), OK)
  }

  function Claim(s: State, id: string, worker: string): (State, Reply) {
    if id == "" || worker == "" then (s, BadRequest)
    else if id !in s.requests || s.requests[id].status == Expired then (s, NotFound)
    else if s.requests[id].status == Claimed then (s, Conflict)
    else
      var req := s.requests[id].(status := Claimed, claimedWorkerId := worker, awaitingWake := false);
      var workers := if worker in s.workers then s.workers
                     else s.workers[worker := Worker(worker, "", req.Pool(), false, 0, "")];
      (Emit(s.(requests := s.requests[id := req], workers := workers, claims := s.claims + [(id, worker)]),
            ClaimedEvent, IdPayload(id)), OK)
  }

  /** Back to the queue: pending, unclaimed, and announced again. */
  function Requeue(s: State, id: string): State
    requires id in s.requests
  {
    var req := s.requests[id].(status := Pending, claimedWorkerId := "", awaitingWake := false);
    Emit(s.(requests := s.requests[id := req]), Created, RequestPayload(req.View(0)))
  }

  function Release(s: State, id: string): (State, Reply) {
    if id !in s.requests || s.requests[id].status != Claimed then (s, NotFound)
    else (Requeue(s.(releases := s.releases + [id]), id), OK)
  }

  function ArchiveAgent(s: State, id: string, nowMs: int): (State, Reply) {
    if id !in s.agents then (s, NotFound)
    else (s.(agents := s.agents[id := s.agents[id].(status := Archived, updatedAt := nowMs)]), OK)
  }

  function DeleteAgent(s: State, id: string): (State, Reply) {
    if id !in s.agents then (s, NotFound)
    else
      var requests := if id in s.requests then s.requests[id := s.requests[id].(status := Expired)] else s.requests;
      (s.(agents := s.agents - {id}, requests := requests), OK)
  }

  /** A follow-up whose claimed worker is offline: await its wake and say so. */
  function AwaitWake(s: State, id: string): State
    requires id in s.requests
  {
    var req := s.requests[id].(awaitingWake := true);
    Emit(s.(requests := s.requests[id := req]), ClaimedOffline, RequestPayload(req.View(WakeTimeoutMs(s, req.Pool()))))
  }

  predicate IsConnected(s: State, w: string) { w in s.workers && s.workers[w].connected }

  function Followup(s: State, id: string, nowMs: int): (State, Reply) {
    if id !in s.agents || id !in s.requests then (s, NotFound)
    else if s.agents[id].status == Archived then (s, Conflict)
    else
      var s1 := s.(agents := s.agents[id := s.agents[id].(status := Active, updatedAt := nowMs)]);
      var w := s.requests[id].claimedWorkerId;
      if s.requests[id].status != Claimed then (Requeue(s1, id), OK)
      else if IsConnected(s, w) then (s1.(workers := s.workers[w := s.workers[w].(activeBcId := id)]), OK)
      else (AwaitWake(s1, id), OK)
  }

  function ExpireRequest(s: State, id: string): (State, Reply) {
    if id !in s.requests then (s, NotFound)
    else
      (Emit(s.(requests := s.requests[id := s.requests[id].(status := Expired, awaitingWake := false)]),
            ExpiredEvent, IdPayload(id)), OK)
  }

  /** The requests a connecting worker takes over. */
  function HeldRequests(s: State, worker: string): set<string> {
    set r | r in s.requests && s.requests[r].HeldBy(worker)
  }

  /** The handler walks the request map in no fixed order and the last hit stays
      in ActiveBcID, so any held request may end up there. */
  predicate MayBecomeActive(s: State, worker: string, active: string) {
    if HeldRequests(s, worker) == {} then active == "" else active in HeldRequests(s, worker)
  }

  function WakesArrived(s: State, held: set<string>): map<string, Request> {
    map r | r in s.requests :: if r in held then s.requests[r].(awaitingWake := false) else s.requests[r]
  }

  function AgentsResumed(s: State, held: set<string>): map<string, Agent> {
    map a | a in s.agents :: if a in held then s.agents[a].(status := Active) else s.agents[a]
  }

  function ConnectWorker(s: State, id: string, body: ConnectBody, nowMs: int, active: string): State {
    var was := if id in s.workers then s.workers[id] else Worker(id, "", "", false, 0, "");
    var pool := if body.pool != "" then body.pool else if was.pool == "" then "default" else was.pool;
    s.(workers := s.workers[id := Worker(was.id, body.name, pool, true, nowMs, active)],
       requests := WakesArrived(s, HeldRequests(s, id)),
       agents := AgentsResumed(s, HeldRequests(s, id)),
       connects := s.connects + [ConnectRecord(id, pool, body.wake, body.markerFound, body.requestId, nowMs)])
  }

  function DisconnectWorker(s: State, id: string, nowMs: int): (State, Reply) {
    if id !in s.workers then (s, NotFound)
    else
      var wk := s.workers[id];
      var agents := if wk.activeBcId in s.agents && s.agents[wk.activeBcId].status == Active
                    then s.agents[wk.activeBcId := s.agents[wk.activeBcId].(status := Idle, updatedAt := nowMs)]
                    else s.agents;
      (s.(workers := s.workers[id := wk.(connected := false, activeBcId := "")], agents := agents), OK)
  }

  function RegisterPool(s: State, p: Pool): (State, Reply) {
    if p.poolName == "" then (s, BadRequest)
    else (s.(pools := s.pools[p.poolName := if p.scope == "" then p.(scope := "team") else p]), OK)
  }

  // ---- listing ----------------------------------------------------------------

  /** The ids, out of `ids`, that a listing for `pool` shows, in order. */
  function Listed(s: State, ids: seq<string>, pool: string): (r: seq<PendingRequest>)
    requires forall id :: id in ids ==> id in s.requests
  {
    if ids == [] then [] else
    var last := ids[|ids| - 1];
    var req := s.requests[last];
    var front := Listed(s, ids[..|ids| - 1], pool);
    if !req.IsPending() || (pool != "" && req.Pool() != pool) then front
    else front + [req.View(WakeTimeoutMs(s, req.Pool()))]
  }

  datatype Page = Page(requests: seq<PendingRequest>, next: string, cursor: string)

  function EffectiveLimit(limit: int): (l: int)
    ensures 1 <= l <= 100
  {
    if limit <= 0 || limit > 100 then 50 else limit
  }

  /** Cutting one page out of the full listing; a token past the end slices out
      of bounds and aborts the handler before it has changed anything. */
  function CutPage(all: seq<PendingRequest>, limit: int, token: string, cursor: string): Option<Page> {
    var start := Atoi(token);
    var end := Min(start + EffectiveLimit(limit), |all|);
    if !(0 <= start <= end) then None
    else Some(Page(all[start..end], if end < |all| then Decimal(end) else "", cursor))
  }

  predicate OrderKnown(s: State) { s.lastSeq >= 0 && forall id :: id in s.order ==> id in s.requests }

  function ListPending(s: State, pool: string, limit: int, token: string, nowMs: int): (State, Option<Page>)
    requires OrderKnown(s)
  {
    var page := CutPage(Listed(s, s.order, pool), limit, token, CursorText(s.lastSeq));
    (if page.None? then s else s.(cursors := s.cursors[CursorText(s.lastSeq) := nowMs]), page)
  }

  /** What opening a stream answers: gone, or the number to deliver after. */
  datatype StreamOpen = CursorGone | BadCursor | StreamAfter(after: int)

  function TrimC(cursor: string): string {
    if cursor != [] && cursor[0] == 'c' then cursor[1..] else cursor
  }

  function OpenStream(s: State, cursor: string, nowMs: int, ttlMs: int): StreamOpen {
    if cursor !in s.cursors || nowMs - s.cursors[cursor] > ttlMs then CursorGone
    else match ParseInt(TrimC(cursor)) case Some(n) => StreamAfter(n) case None => BadCursor
  }
}
