/** What the watch loop does with each listed request and each event
    (internal/controller/controller.go watchLoop, handleEvent, handleRequest, servesPool). */
module Routing {
  import opened Common
  import opened CursorTypes
  import opened Fleet
  import opened FleetInvariant
  import opened Watch
  import opened Stream

  /** The handler a request or event ends up at. */
  datatype Route = WakeFor(r: PendingRequest) | ClaimFor(r: PendingRequest) | ResolveClaim(id: string) | Nothing

  /** One pool is watched by name; none, or several, by watching every pool. */
  function WatchPool(pools: seq<string>): string { if |pools| == 1 then pools[0] else "" }

  predicate Serves(pools: seq<string>, pool: string) { pools == [] || pool in pools }

  function HandleRequest(r: PendingRequest): Route { if r.IsOfflineClaim() then WakeFor(r) else ClaimFor(r) }

  /** The list pass. */
  function HandleListed(pools: seq<string>, r: PendingRequest): Route {
    if WatchPool(pools) == "" && pools != [] && !Serves(pools, r.Pool()) then Nothing else HandleRequest(r)
  }

  /** One event of the stream; `recent` are the requests claimed here a moment ago. */
  function HandleEvent(pools: seq<string>, recent: set<string>, e: Event): Route {
    match e.typ
    case ExpiredEvent => Nothing
    case ClaimedEvent =>
      if e.data.RequestId() in recent then Nothing else ResolveClaim(e.data.RequestId())
    case _ =>
      if !e.data.RequestPayload? then Nothing
      else if e.typ == ClaimedOffline && e.data.view.claimedWorkerId == "" then Nothing
      else if WatchPool(pools) == "" && pools != [] && !Serves(pools, e.data.view.Pool()) then Nothing
      else HandleRequest(e.data.view)
  }

  /** The route takes request `id` to the right handler: wake its claimed worker, or claim it. */
  predicate Handles(route: Route, id: string, worker: string) {
    if worker != "" then route.WakeFor? && route.r.id == id && route.r.claimedWorkerId == worker
    else route.ClaimFor? && route.r.id == id
  }

  lemma ListedIsHandled(pools: seq<string>, v: PendingRequest)
    requires Serves(pools, v.Pool())
    ensures Handles(HandleListed(pools, v), v.id, v.claimedWorkerId)
  {
  }

  lemma EventIsHandled(pools: seq<string>, recent: set<string>, e: Event, id: string, worker: string,
      labels: seq<Label>)
    requires Announces(e, id) && Carries(e, worker, labels) && Serves(pools, e.data.view.Pool())
    ensures Handles(HandleEvent(pools, recent, e), id, worker)
  {
  }

  /** No request of a pool that is not served is ever claimed or woken for. */
  lemma OnlyServedPools(pools: seq<string>, recent: set<string>, e: Event)
    requires |pools| != 1 && e.data.RequestPayload? && !Serves(pools, e.data.view.Pool())
    ensures !HandleEvent(pools, recent, e).WakeFor? && !HandleEvent(pools, recent, e).ClaimFor?
  {
  }

  /** Nor by the list pass, which passes over exactly the pools that are not served; a pool
      watched alone by its name is not filtered again. */
  lemma ListedExactlyServed(pools: seq<string>, r: PendingRequest)
    ensures HandleListed(pools, r) == Nothing <==>
      pools != [] && (|pools| != 1 || pools[0] == "") && r.Pool() !in pools
  {
  }

  /** A claim made here a moment ago needs nothing; any other is traced to its worker. */
  lemma ClaimsTraced(pools: seq<string>, recent: set<string>, e: Event)
    requires e.typ == ClaimedEvent
    ensures e.data.RequestId() in recent ==> HandleEvent(pools, recent, e) == Nothing
    ensures e.data.RequestId() !in recent ==> HandleEvent(pools, recent, e) == ResolveClaim(e.data.RequestId())
  {
  }

  /** Some listed request, or some event the stream delivered, is routed to `id`'s handler. */
  ghost predicate Reached(pools: seq<string>, recent: Event -> set<string>, listing: seq<PendingRequest>,
                          delivered: seq<Event>, id: string, worker: string) {
    || (exists v :: v in listing && Handles(HandleListed(pools, v), id, worker))
    || (exists e :: e in delivered && Handles(HandleEvent(pools, recent(e), e), id, worker))
  }

  /** The controller hears of everything it serves: list, open the stream at the
      listing's cursor, and let everything interleave. Whenever the stream is drained,
      each request of a served pool that is pending or awaits a wake was routed to the
      handler that fits its present state. */
  lemma EverythingServedIsHandled(listed: State, before: seq<Op>, actions: seq<Action>, pools: seq<string>,
                                  recent: Event -> set<string>, id: string)
    requires Inv(listed) && Legal(listed, before)
    requires CanRun(Opened(Run(listed, before), listed.lastSeq), actions, WatchPool(pools))
    requires var end := RunStream(Opened(Run(listed, before), listed.lastSeq), actions, WatchPool(pools));
      && end.loop.pc.Asleep? && !Stream.CanAct(end, Wake)
      && id in end.server.requests && end.server.requests[id].IsPending()
      && Serves(pools, end.server.requests[id].View(0).Pool())
    ensures var end := RunStream(Opened(Run(listed, before), listed.lastSeq), actions, WatchPool(pools));
      Reached(pools, recent, Listed(listed, listed.order, WatchPool(pools)), EventsOf(end.loop.out), id,
        end.server.requests[id].claimedWorkerId)
  {
    hide Inv, CanRun, RunStream, Legal, Run, Listed, InListing, Delivered, Reached, Stream.CanAct;
    InvKeys(listed);
    var pool := WatchPool(pools);
    var end := RunStream(Opened(Run(listed, before), listed.lastSeq), actions, pool);
    var r := end.server.requests[id];
    WatcherMissesNothing(listed, before, actions, pool, id);
    WatchedIsReached(pools, recent, Listed(listed, listed.order, pool), end.loop.out, id, r.claimedWorkerId, r.labels,
      r.View(0));
  }

  lemma WatchedIsReached(pools: seq<string>, recent: Event -> set<string>, listing: seq<PendingRequest>,
                         out: seq<Frame>, id: string, worker: string, labels: seq<Label>, view: PendingRequest)
    requires InListing(listing, id, worker, labels) || Delivered(out, id, worker, labels)
    requires Serves(pools, view.Pool()) && view.labels == labels
    ensures Reached(pools, recent, listing, EventsOf(out), id, worker)
  {
    hide HandleListed, HandleEvent, EventsOf, Handles;
    if InListing(listing, id, worker, labels) {
      var v :| v in listing && v.id == id && v.claimedWorkerId == worker && v.labels == labels;
      ListedIsHandled(pools, v);
    } else {
      var e :| e in EventsOf(out) && Announces(e, id) && Carries(e, worker, labels);
      EventIsHandled(pools, recent(e), e, id, worker, labels);
    }
  }
}
