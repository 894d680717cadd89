/** A follow-up recovers, whatever became of the workspace: the fleet server, the
    controller's handlers and the Kubernetes backend put together
    (internal/controller/controller.go handleRequest, wake, claimAndSpawn). */
module Recovery {
  import opened Common
  import opened Backend
  import opened CursorTypes
  import opened Fleet
  import opened FleetInvariant
  import opened FleetServer
  import opened KubeStore
  import opened ClusterApi
  import opened Onward
  import ClaimHandlers
  import WakeLoop
  import KubeBackend
  import KubeLifecycle

  datatype End = NotOurs | Busy | NotClaimed | HasWorker | GaveBack | Failed

  /** The request is claimed by `w`, which has a live pod. */
  ghost predicate Served(s: State, t: Store, id: string, w: string) {
    id in s.requests && s.requests[id].HeldBy(w) && HasLive(t, w)
  }

  /** What Wake needs is there: the retained claim, or without claims some pod. */
  ghost predicate Wakeable(cfg: KubeBackend.Config, s: Store, w: string) {
    if cfg.persistent then KubeBackend.PvcRetained(s, w) else !KubeBackend.NoPods(s, w)
  }

  /** It is missing, or terminating. */
  ghost predicate Lost(cfg: KubeBackend.Config, s: Store, w: string) {
    if cfg.persistent then KubeBackend.PvcGone(s, w) else KubeBackend.NoPods(s, w)
  }

  /** A worker can be started under this id. */
  ghost predicate Startable(c: Cluster, cfg: KubeBackend.Config, s: Store, w: string) {
    KubeBackend.FreshNames(c, w, s) && (cfg.persistent ==> KubeLifecycle.WorkspaceReady(c, cfg, s, w))
  }

  /** The backend's answer, as the retry loop of `WakeLoop` reads it. */
  function AsResult(err: KubeBackend.Error): WakeLoop.Result {
    match err
    case Nil => WakeLoop.Woken
    case WorkspaceMissing => WakeLoop.WorkspaceMissing
    case UnknownWorker => WakeLoop.UnknownWorker
    case OtherError => WakeLoop.Transient
  }

  /** Calm from now on, with what Wake needs: the worker will be woken. */
  ghost predicate CanWake(c: Cluster, cfg: KubeBackend.Config, s: Store, w: string) {
    c.Quiet() && Wakeable(cfg, s, w) && KubeBackend.FreshNames(c, w, s)
  }

  /** Calm from now on, with the workspace lost. */
  ghost predicate MustReplace(c: Cluster, cfg: KubeBackend.Config, s: Store, w: string) {
    c.Quiet() && Lost(cfg, s, w)
  }

  /** What an attempt on `c`, from its origin to its store, can have answered. */
  ghost predicate Decides(c: Cluster, cfg: KubeBackend.Config, spec: KubeBackend.Spec, r: WakeLoop.Result)
    reads c
  {
    && (r == WakeLoop.Woken ==> SawLive(spec.worker, c.log, 0))
    && (c.Quiet() && r == WakeLoop.Woken ==> HasLive(c.store, spec.worker))
    && (CanWake(c, cfg, c.origin, spec.worker) ==>
          r == WakeLoop.Woken && (cfg.persistent ==> KubeBackend.Restamps(c, spec, c.origin, c.store)))
    && (MustReplace(c, cfg, c.origin, spec.worker) ==> WakeLoop.Gone(r) && c.store == c.origin)
    // Only a workspace that is gone, or a worker without pods, counts as lost.
    && (WakeLoop.Gone(r) && cfg.persistent ==> KubeBackend.PvcGone(c.store, spec.worker))
    && (WakeLoop.Gone(r) && !cfg.persistent ==> KubeBackend.SawNone(spec.worker, c.log, 0))
    // A first call that fails tells nothing.
    && (c.fault(0) != Fine ==> r == WakeLoop.Transient)
  }

  /** Every call is refused, or its reply lost. */
  ghost predicate NothingWorks(c: Cluster) { forall n :: c.fault(n) != Fine }

  lemma CanWakeLater(c: Cluster, d: Cluster, cfg: KubeBackend.Config, s: Store, w: string)
    requires Later(c, d)
    ensures CanWake(c, cfg, s, w) ==> CanWake(d, cfg, s, w)
    ensures MustReplace(c, cfg, s, w) ==> MustReplace(d, cfg, s, w)
    ensures Startable(c, cfg, s, w) ==> Startable(d, cfg, s, w)
  {
    LaterKeeps(c, d, cfg, w, s);
    hide c.Quiet, d.Quiet, Wakeable, Lost, KubeBackend.FreshNames, KubeLifecycle.WorkspaceReady, Later;
  }

  lemma NothingWorksLater(c: Cluster, d: Cluster)
    requires Later(c, d)
    ensures NothingWorks(c) ==> NothingWorks(d)
  {
    var k: nat :| FromCall(c, k, d);
  }

  lemma NothingIsDecided(c: Cluster, cfg: KubeBackend.Config, spec: KubeBackend.Spec, r: WakeLoop.Result)
    requires Decides(c, cfg, spec, r) && NothingWorks(c)
    ensures r == WakeLoop.Transient
  {
    hide CanWake, MustReplace, HasLive, SawLive, KubeBackend.Restamps, KubeBackend.SawNone, c.Quiet;
  }

  lemma ValidEverywhere(c: Cluster, w: string)
    requires c.ValidForAll()
    ensures c.Valid(w)
  {
  }

  /** An operation on `w` leaves the cluster in order for every worker. */
  lemma OrderKept(c: Cluster, w: string, before: Cluster)
    requires before.ValidForAll() && Later(before, c) && c.origin == before.store
    requires c.Valid(w) && OwnSteps(w, c.log, 0)
    ensures c.ValidForAll()
  {
    hide Later, StoreOk, PodsNamed, before.World, c.World, OwnSteps, c.Linked, before.Linked;
    forall v ensures c.Valid(v) {
      assert before.Valid(v);
      LaterWorld(before, c, v);
      if v != w { OthersStayNamed(c, w, v, |c.log|); }
      AtEnd(c);
    }
  }

  lemma AtEnd(c: Cluster)
    requires c.Linked()
    ensures c.StateAt(c.log, |c.log|) == c.store
  {
  }

  class Controller {
    const server: Server
    const cfg: KubeBackend.Config
    /** Guards, recent claims and timing. */
    const loop: WakeLoop.Controller
    /** The cluster, from the last wake attempt on. */
    var cluster: Cluster

    constructor (server: Server, cluster: Cluster, cfg: KubeBackend.Config, loop: WakeLoop.Controller)
      ensures this.server == server && this.cluster == cluster && this.cfg == cfg && this.loop == loop
    {
      this.server, this.cluster, this.cfg, this.loop := server, cluster, cfg, loop;
    }

    /** The mark goes, and the request goes back to the queue. */
    method Release(id: string)
      requires server.Valid()
      modifies loop`recentClaims, loop`releases, server
      ensures server.Valid() && server.Model() == Fleet.Release(old(server.Model()), id).0
      ensures loop.recentClaims == old(loop.recentClaims) - {id} && loop.releases == old(loop.releases) + [id]
    {
      loop.Release(id);
      var reply := server.Release(id);
    }

    /** Claim under a new id, then spawn; a failed spawn gives the claim back. */
    method ClaimAndSpawn(r: PendingRequest, newId: string) returns (end: End, ghost guards: set<string>)
      requires server.Valid() && cluster.Valid(newId)
      modifies loop, server, cluster
      ensures server.Valid() && cluster.Valid(newId) && loop.inflight == old(loop.inflight)
      ensures loop.recentClaims == (match end
        case Busy => old(loop.recentClaims)
        case HasWorker => old(loop.recentClaims) + {r.id}
        case _ => old(loop.recentClaims) - {r.id})
      ensures end == HasWorker ==>
        HasLive(cluster.store, newId) && server.Model() == Claim(old(server.Model()), r.id, newId).0
      ensures end == GaveBack ==> server.Model() == Fleet.Release(Claim(old(server.Model()), r.id, newId).0, r.id).0
      ensures end != HasWorker && end != GaveBack ==>
        server.Model() == old(server.Model()) && cluster.store == old(cluster.store)
      ensures end == HasWorker || end == GaveBack ==> Claim(old(server.Model()), r.id, newId).1 == OK
      ensures end == HasWorker || end == GaveBack || end == NotClaimed || end == Busy
      ensures end == Busy <==> "req:" + r.id in old(loop.inflight)
      ensures end == NotClaimed ==> Claim(old(server.Model()), r.id, newId).1 != OK
      // The request's guard is held while server and backend are asked.
      ensures end != Busy ==> guards == old(loop.inflight) + {"req:" + r.id}
      // Undisturbed, the worker's pod is built for this claim.
      ensures cluster.Quiet() && end == HasWorker ==> exists s ::
        KubeBackend.AddsPod(cluster, cfg, KubeBackend.Spec(newId, r.Pool(), "claim", r.id), s, cluster.store)
      // When no call fails it ends with a worker.
      ensures (cluster.Quiet() && "req:" + r.id !in old(loop.inflight)
        && Claim(old(server.Model()), r.id, newId).1 == OK
        && Startable(cluster, cfg, old(cluster.store), newId)) ==> end == HasWorker
    {
      hide Inv, cluster.Linked, cluster.World, cluster.Quiet, Rely, HasLive, KubeBackend.FreshNames, OwnSteps,
        KubeBackend.SeedsCarried;
      if "req:" + r.id in loop.inflight {
        return Busy, loop.inflight;
      }
      loop.inflight := loop.inflight + {"req:" + r.id};
      guards := loop.inflight;
      loop.recentClaims := loop.recentClaims + {r.id};
      ghost var before := server.Model();
      var reply := server.Claim(r.id, newId);
      if reply != OK {
        loop.recentClaims := loop.recentClaims - {r.id};
        ClaimRefused(before, r.id, newId);
        end := NotClaimed;
      } else {
        var ok := KubeLifecycle.Spawn(cluster, cfg, KubeBackend.Spec(newId, r.Pool(), "claim", r.id));
        end := HasWorker;
        if !ok {
          Release(r.id);
          end := GaveBack;
        }
      }
      loop.inflight := loop.inflight - {"req:" + r.id};
    }

    /** One attempt: the backend's Wake on the cluster as it has become. */
    method Attempt(spec: KubeBackend.Spec) returns (result: WakeLoop.Result)
      requires cluster.Valid(spec.worker) && spec.kind == "wake"
      modifies this`cluster, loop`now, loop`calls
      ensures fresh(cluster) && cluster.Valid(spec.worker)
      ensures FromCall(old(cluster), old(cluster.calls), cluster) && cluster.origin == old(cluster.store)
      ensures Decides(cluster, cfg, spec, result)
      ensures old(cluster.ValidForAll()) ==> cluster.ValidForAll()
      ensures loop.now == old(loop.now) + loop.wakeTakes(old(loop.calls)) && loop.calls == old(loop.calls) + 1
    {
      hide cluster.Valid, cluster.Quiet, Rely, HasLive, KubeBackend.FreshNames, OwnSteps, FromCall, PodsNamed, StoreOk,
        KubeBackend.SeedsCarried, KubeBackend.NoPods, KubeBackend.Restamps, cluster.ValidForAll;
      ghost var before := cluster;
      cluster := Continue(cluster, spec.worker);
      var err := KubeBackend.Wake(cluster, cfg, spec);
      result := AsResult(err);
      loop.Elapse();
      if before.ValidForAll() { OrderKept(cluster, spec.worker, before); }
    }

    /** The wake handler: attempts until one is decisive or the wake window is over; a missing
        workspace or an unknown worker gives the claim back. */
    method Wake(r: PendingRequest, handlerDeadline: int)
      returns (end: End, results: seq<WakeLoop.Result>, ghost guards: set<string>)
      requires server.Valid() && cluster.Valid(r.claimedWorkerId) && loop.Valid() && loop.now <= handlerDeadline
      modifies this`cluster, loop, server
      ensures server.Valid() && cluster.Valid(r.claimedWorkerId) && loop.Valid() && Later(old(cluster), cluster)
      ensures old(cluster.ValidForAll()) ==> cluster.ValidForAll()
      ensures loop.inflight == old(loop.inflight)
      ensures results == [] <==> !loop.Owns(r.claimedWorkerId) || "wake:" + r.claimedWorkerId in old(loop.inflight)
      ensures if results == [] then (end == NotOurs || end == Busy) && cluster == old(cluster)
        else fresh(cluster) && end == EndOf(results[|results| - 1])
      // The worker's guard is held while the backend is asked.
      ensures results != [] ==> guards == old(loop.inflight) + {"wake:" + r.claimedWorkerId}
      // Exactly one release when the worker cannot come back, else none.
      ensures server.Model() ==
        if end == GaveBack then Fleet.Release(old(server.Model()), r.id).0 else old(server.Model())
      ensures loop.releases == if end == GaveBack then old(loop.releases) + [r.id] else old(loop.releases)
      // It releases only what is lost: the claim gone or terminating, or without claims no pod.
      ensures end == GaveBack && cfg.persistent ==> KubeBackend.PvcGone(cluster.store, r.claimedWorkerId)
      ensures end == GaveBack && !cfg.persistent ==> KubeBackend.SawNone(r.claimedWorkerId, cluster.log, 0)
      ensures end == HasWorker ==> SawLive(r.claimedWorkerId, cluster.log, 0)
      // It retries transient failures only, inside the window.
      ensures forall i :: 0 <= i < |results| - 1 ==> results[i] == WakeLoop.Transient
      ensures end == Failed && r.wakeTimeoutMs > 0 ==>
        loop.now >= old(loop.now) + r.wakeTimeoutMs || loop.now >= handlerDeadline
      ensures r.wakeTimeoutMs > 0 ==> |results| <= WakeLoop.Intervals(r.wakeTimeoutMs, loop.retryInterval) + 1
      ensures r.wakeTimeoutMs > 0 ==>
        |results| <= WakeLoop.Intervals(handlerDeadline - old(loop.now), loop.retryInterval) + 1
      ensures r.wakeTimeoutMs <= 0 ==> |results| <= 1
      // The real attempts are answers of the loop of `WakeLoop`, in a world that answers so.
      ensures (results != [] && loop.Predicted(results, old(loop.calls))) ==>
        results == loop.Answers(old(loop.now), old(loop.calls), r.wakeTimeoutMs,
          WakeLoop.Deadline(old(loop.now), r.wakeTimeoutMs, handlerDeadline))
      // When no call works it fails in the end, and releases nothing.
      ensures results != [] && old(NothingWorks(cluster)) ==> end == Failed
      // What the last attempt found decides, if it was calm from there on.
      ensures cluster.Quiet() && end == HasWorker ==> HasLive(cluster.store, r.claimedWorkerId)
      ensures results != [] && CanWake(cluster, cfg, cluster.origin, r.claimedWorkerId) ==>
        end == HasWorker && (cfg.persistent ==> KubeBackend.Restamps(cluster,
          KubeBackend.Spec(r.claimedWorkerId, r.Pool(), "wake", r.id), cluster.origin, cluster.store))
      ensures results != [] && MustReplace(cluster, cfg, cluster.origin, r.claimedWorkerId) ==>
        cluster.Quiet() && end == GaveBack && cluster.store == cluster.origin
      // When it was calm from the start, the first attempt is the last.
      ensures (results != [] && old(CanWake(cluster, cfg, cluster.store, r.claimedWorkerId)
        || MustReplace(cluster, cfg, cluster.store, r.claimedWorkerId))) ==>
        |results| == 1 && cluster.origin == old(cluster.store)
    {
      hide *;
      var w := r.claimedWorkerId;
      LaterItself(cluster);
      if !loop.Owns(w) {
        NoAttempts(r.wakeTimeoutMs, loop.now, handlerDeadline);
        return NotOurs, [], loop.inflight;
      }
      if "wake:" + w in loop.inflight {
        NoAttempts(r.wakeTimeoutMs, loop.now, handlerDeadline);
        return Busy, [], loop.inflight;
      }
      loop.inflight := loop.inflight + {"wake:" + w};
      guards := loop.inflight;
      results := Attempts(r, handlerDeadline);
      end := EndOf(results[|results| - 1]);
      if end == GaveBack {
        Release(r.id);
      }
      loop.inflight := loop.inflight - {"wake:" + w};
    }

    lemma NoAttempts(window: int, now: int, handlerDeadline: int)
      requires loop.Valid() && now <= handlerDeadline
      ensures window > 0 ==> 0 <= WakeLoop.Intervals(window, loop.retryInterval)
      ensures 0 <= WakeLoop.Intervals(handlerDeadline - now, loop.retryInterval)
    {
    }

    /** The attempts of one wake handler, and what their last answer tells. */
    method Attempts(r: PendingRequest, handlerDeadline: int) returns (results: seq<WakeLoop.Result>)
      requires cluster.Valid(r.claimedWorkerId) && loop.Valid() && loop.now <= handlerDeadline
      modifies this`cluster, loop`now, loop`calls
      ensures results != [] && fresh(cluster) && cluster.Valid(r.claimedWorkerId) && Later(old(cluster), cluster)
      ensures old(cluster.ValidForAll()) ==> cluster.ValidForAll()
      ensures forall i :: 0 <= i < |results| - 1 ==> results[i] == WakeLoop.Transient
      ensures var end := EndOf(results[|results| - 1]);
        && (end == GaveBack && cfg.persistent ==> KubeBackend.PvcGone(cluster.store, r.claimedWorkerId))
        && (end == GaveBack && !cfg.persistent ==> KubeBackend.SawNone(r.claimedWorkerId, cluster.log, 0))
        && (end == HasWorker ==> SawLive(r.claimedWorkerId, cluster.log, 0))
        && (cluster.Quiet() && end == HasWorker ==> HasLive(cluster.store, r.claimedWorkerId))
        && (end == Failed && r.wakeTimeoutMs > 0 ==>
              loop.now >= old(loop.now) + r.wakeTimeoutMs || loop.now >= handlerDeadline)
        && (old(NothingWorks(cluster)) ==> end == Failed)
        && (CanWake(cluster, cfg, cluster.origin, r.claimedWorkerId) ==>
              end == HasWorker && (cfg.persistent ==> KubeBackend.Restamps(cluster,
                KubeBackend.Spec(r.claimedWorkerId, r.Pool(), "wake", r.id), cluster.origin, cluster.store)))
        && (MustReplace(cluster, cfg, cluster.origin, r.claimedWorkerId) ==>
              cluster.Quiet() && end == GaveBack && cluster.store == cluster.origin)
      ensures r.wakeTimeoutMs > 0 ==> |results| <= WakeLoop.Intervals(r.wakeTimeoutMs, loop.retryInterval) + 1
      ensures r.wakeTimeoutMs > 0 ==>
        |results| <= WakeLoop.Intervals(handlerDeadline - old(loop.now), loop.retryInterval) + 1
      ensures r.wakeTimeoutMs <= 0 ==> |results| <= 1
      // The real attempts are answers of the loop of `WakeLoop`, in a world that answers so.
      ensures loop.Predicted(results, old(loop.calls)) ==>
        results == loop.Answers(old(loop.now), old(loop.calls), r.wakeTimeoutMs,
          WakeLoop.Deadline(old(loop.now), r.wakeTimeoutMs, handlerDeadline))
      ensures old(CanWake(cluster, cfg, cluster.store, r.claimedWorkerId)
        || MustReplace(cluster, cfg, cluster.store, r.claimedWorkerId)) ==>
        |results| == 1 && cluster.origin == old(cluster.store)
    {
      hide cluster.Valid, cluster.ValidForAll, Decides, CanWake, MustReplace, Later, loop.Answers, loop.Predicted,
        WakeLoop.Intervals, WakeLoop.Deadline, HasLive, SawLive, KubeBackend.Restamps, KubeBackend.SawNone,
        KubeBackend.PvcGone, NothingWorks, cluster.Quiet, KubeBackend.FreshNames;
      var spec := KubeBackend.Spec(r.claimedWorkerId, r.Pool(), "wake", r.id);
      ghost var c0, start := cluster, loop.now;
      if r.wakeTimeoutMs > 0 { WakeLoop.DeadlineOver(start, r.wakeTimeoutMs, handlerDeadline, start); }
      results := Retry(spec, r.wakeTimeoutMs, WakeLoop.Deadline(loop.now, r.wakeTimeoutMs, handlerDeadline));
      ghost var last := results[|results| - 1];
      DecidedEnd(cluster, cfg, spec, last);
      NothingWorksLater(c0, cluster);
      if NothingWorks(cluster) { NothingIsDecided(cluster, cfg, spec, last); }
      if r.wakeTimeoutMs > 0 {
        WakeLoop.DeadlineOver(start, r.wakeTimeoutMs, handlerDeadline, loop.now);
        WakeLoop.AttemptsFit(|results|, start, r.wakeTimeoutMs, handlerDeadline, loop.retryInterval);
      }
    }

    /** The attempts, paced as `WakeLoop.Controller.Retry` paces its own. */
    method Retry(spec: KubeBackend.Spec, window: int, deadline: int) returns (results: seq<WakeLoop.Result>)
      requires cluster.Valid(spec.worker) && spec.kind == "wake"
      requires loop.Valid() && (window > 0 ==> loop.now <= deadline)
      modifies this`cluster, loop`now, loop`calls
      ensures results != [] && fresh(cluster) && cluster.Valid(spec.worker) && Later(old(cluster), cluster)
      ensures old(cluster.ValidForAll()) ==> cluster.ValidForAll()
      ensures forall i :: 0 <= i < |results| - 1 ==> results[i] == WakeLoop.Transient
      ensures window > 0 && results[|results| - 1] == WakeLoop.Transient ==> loop.now >= deadline
      ensures window > 0 ==> |results| <= WakeLoop.Intervals(deadline - old(loop.now), loop.retryInterval) + 1
      ensures window <= 0 ==> |results| == 1
      ensures loop.Predicted(results, old(loop.calls)) ==>
        results == loop.Answers(old(loop.now), old(loop.calls), window, deadline)
      ensures Decides(cluster, cfg, spec, results[|results| - 1])
      ensures old(CanWake(cluster, cfg, cluster.store, spec.worker)
        || MustReplace(cluster, cfg, cluster.store, spec.worker)) ==>
        |results| == 1 && cluster.origin == old(cluster.store)
    {
      hide cluster.Valid, cluster.ValidForAll, Decides, CanWake, MustReplace, FromCall, Later,
        loop.Answers, loop.Retries, loop.Paced, loop.Slept,
        loop.Predicted, WakeLoop.Intervals;
      ghost var c0, s0, start, call := cluster, cluster.store, loop.now, loop.calls;
      ghost var whole := loop.Answers(start, call, window, deadline);
      ghost var clear := CanWake(c0, cfg, s0, spec.worker) || MustReplace(c0, cfg, s0, spec.worker);
      LaterItself(cluster);
      loop.FirstIsPaced(loop.now, window, deadline);
      var again := true;
      results := [];
      while again
        invariant cluster.Valid(spec.worker) && Later(c0, cluster) && loop.now >= start
        invariant c0.ValidForAll() ==> cluster.ValidForAll()
        invariant if results == [] then again && cluster == c0 else fresh(cluster)
        invariant results != [] ==> Decides(cluster, cfg, spec, results[|results| - 1])
        invariant loop.Paced(|results| + if again then 1 else 0, start, loop.now, window, deadline)
        invariant forall i :: 0 <= i < |results| - (if again then 0 else 1) ==> results[i] == WakeLoop.Transient
        invariant !again && window > 0 && results[|results| - 1] == WakeLoop.Transient ==> loop.now >= deadline
        invariant again ==> loop.calls == call + 2 * |results|
        invariant loop.Predicted(results, call) ==>
          whole == results + if again then loop.Answers(loop.now, loop.calls, window, deadline) else []
        invariant clear && results != [] ==> |results| == 1 && !again && cluster.origin == s0
        decreases again, deadline - loop.now
      {
        loop.AnswersBegin(results, loop.now, loop.calls, window, deadline);
        ghost var was, began := cluster, loop.now;
        var result := Attempt(spec);
        LaterStill(c0, was, was.calls, cluster);
        if loop.Predicted(results + [result], call) { loop.PredictedMore(results, result, call); }
        results := results + [result];
        loop.StaysPaced(|results|, start, began, loop.now, window, deadline);
        if clear {
          CanWakeLater(c0, cluster, cfg, s0, spec.worker);
          DecidesAtOnce(cluster, cfg, spec, result);
        }
        again := loop.Again(result, window, deadline, start, |results|);
      }
      loop.AttemptsAreFew(|results|, start, loop.now, window, deadline);
    }

    /** From a claimed request whose owned worker is offline: a follow-up, the wake it announces
        with its retries and, if that gave the claim back, the claim its requeueing announces.
        If the last wake attempt found calm, the request ends served: by the same worker on the
        same claim when that was there, else by a new worker after exactly one release. In any
        case a request that is not served is still pending, so it is listed again. */
    method FollowupRecovers(id: string, newId: string, nowMs: int, handlerDeadline: int) returns (served: string)
      requires server.Valid() && cluster.ValidForAll() && loop.Valid() && loop.now <= handlerDeadline
      requires id in server.requests && server.requests[id].status == Claimed
      requires id in server.agents && server.agents[id].status != Archived
      requires !IsConnected(server.Model(), server.requests[id].claimedWorkerId)
      requires loop.Owns(server.requests[id].claimedWorkerId) && newId != ""
      requires "req:" + id !in loop.inflight && "wake:" + server.requests[id].claimedWorkerId !in loop.inflight
      modifies this`cluster, loop, server
      ensures server.Valid() && loop.inflight == old(loop.inflight) && Later(old(cluster), cluster)
      ensures id in server.requests && if served == "" then server.requests[id].IsPending()
        else server.requests[id].HeldBy(served)
      ensures cluster.Quiet() && served != "" ==>
        Served(server.Model(), cluster.store, id, served)
      ensures CanWake(cluster, cfg, cluster.origin, old(server.requests[id].claimedWorkerId)) ==>
        served == old(server.requests[id].claimedWorkerId) && server.releases == old(server.releases)
          && server.claims == old(server.claims)
      ensures CanWake(cluster, cfg, cluster.origin, old(server.requests[id].claimedWorkerId)) && cfg.persistent ==>
        exists pool ::
          KubeBackend.Restamps(cluster, KubeBackend.Spec(served, pool, "wake", id), cluster.origin, cluster.store)
      ensures (MustReplace(cluster, cfg, cluster.origin, old(server.requests[id].claimedWorkerId))
        && Startable(cluster, cfg, cluster.origin, newId)) ==>
        served == newId && server.releases == old(server.releases) + [id]
          && server.claims == old(server.claims) + [(id, newId)]
      // Calm from the start: the last attempt is the first, and found what there was.
      ensures old(CanWake(cluster, cfg, cluster.store, server.requests[id].claimedWorkerId)) ==>
        CanWake(cluster, cfg, cluster.origin, old(server.requests[id].claimedWorkerId))
          && cluster.origin == old(cluster.store)
      ensures old(MustReplace(cluster, cfg, cluster.store, server.requests[id].claimedWorkerId)) ==>
        MustReplace(cluster, cfg, cluster.origin, old(server.requests[id].claimedWorkerId))
          && cluster.origin == old(cluster.store)
      ensures old(Startable(cluster, cfg, cluster.store, newId)) && cluster.origin == old(cluster.store) ==>
        Startable(cluster, cfg, cluster.origin, newId)
    {
      hide Inv, cluster.Valid, cluster.ValidForAll, HasLive, KubeBackend.FreshNames, KubeLifecycle.WorkspaceReady,
        CanWake, MustReplace, Startable, Later, loop.Answers, loop.Predicted, WakeLoop.Intervals, WakeLoop.Deadline,
        Fleet.Followup, Fleet.Claim, Fleet.Release;
      ghost var s0, w0, c0, t0 := server.Model(), server.requests[id].claimedWorkerId, cluster, cluster.store;
      HeldByKey(s0, id);
      var reply := server.Followup(id, nowMs);
      OfflineAnnounced(s0, id, nowMs);
      var view := server.events[|server.events| - 1].data.view;
      ValidEverywhere(cluster, w0);
      ghost var s1 := server.Model();
      var end, results, held := Wake(view, handlerDeadline);
      CanWakeLater(c0, cluster, cfg, t0, w0);
      CanWakeLater(c0, cluster, cfg, t0, newId);
      served := if end == HasWorker then view.claimedWorkerId else "";
      if end == GaveBack {
        RequeueAnnounced(s1, id);
        ValidEverywhere(cluster, newId);
        served := ClaimAgain(id, newId);
      }
    }

    /** The claim that a requeueing announces. */
    method ClaimAgain(id: string, newId: string) returns (served: string)
      requires server.Valid() && cluster.Valid(newId) && newId != "" && "req:" + id !in loop.inflight
      requires id in server.requests && server.requests[id].status == Pending && server.requests[id].id == id
      requires server.events != [] && server.events[|server.events| - 1].data.RequestPayload?
      requires server.events[|server.events| - 1].data.view.id == id && id != ""
      modifies loop, server, cluster
      ensures server.Valid() && loop.inflight == old(loop.inflight) && (served == "" || served == newId)
      ensures id in server.requests && if served == "" then server.requests[id].IsPending()
        else server.requests[id].HeldBy(served)
      ensures served != "" ==> HasLive(cluster.store, newId) && server.releases == old(server.releases)
      ensures served != "" ==> server.claims == old(server.claims) + [(id, newId)]
      ensures cluster.Quiet() && Startable(cluster, cfg, old(cluster.store), newId) ==> served == newId
    {
      hide Inv, cluster.Valid, HasLive, Startable, cluster.Quiet, Fleet.Claim, Fleet.Release;
      var view := server.events[|server.events| - 1].data.view;
      ghost var before := server.Model();
      ClaimsPending(before, id, newId);
      var end, held := ClaimAndSpawn(view, newId);
      RequeueAnnounced(Claim(before, id, newId).0, id);
      served := if end == HasWorker then newId else "";
    }
  }

  function EndOf(last: WakeLoop.Result): End {
    if last == WakeLoop.Woken then HasWorker else if WakeLoop.Gone(last) then GaveBack else Failed
  }

  lemma DecidedEnd(c: Cluster, cfg: KubeBackend.Config, spec: KubeBackend.Spec, r: WakeLoop.Result)
    requires Decides(c, cfg, spec, r)
    ensures c.Quiet() && EndOf(r) == HasWorker ==> HasLive(c.store, spec.worker)
    ensures CanWake(c, cfg, c.origin, spec.worker) ==>
      EndOf(r) == HasWorker && (cfg.persistent ==> KubeBackend.Restamps(c, spec, c.origin, c.store))
    ensures MustReplace(c, cfg, c.origin, spec.worker) ==>
      c.Quiet() && EndOf(r) == GaveBack && c.store == c.origin
    ensures EndOf(r) == GaveBack && cfg.persistent ==> KubeBackend.PvcGone(c.store, spec.worker)
    ensures EndOf(r) == GaveBack && !cfg.persistent ==> KubeBackend.SawNone(spec.worker, c.log, 0)
    ensures EndOf(r) == HasWorker ==> SawLive(spec.worker, c.log, 0)
  {
    hide CanWake, HasLive, KubeBackend.Restamps, c.Quiet, SawLive, KubeBackend.SawNone, KubeBackend.PvcGone;
  }

  lemma DecidesAtOnce(c: Cluster, cfg: KubeBackend.Config, spec: KubeBackend.Spec, r: WakeLoop.Result)
    requires Decides(c, cfg, spec, r)
    requires CanWake(c, cfg, c.origin, spec.worker) || MustReplace(c, cfg, c.origin, spec.worker)
    ensures r != WakeLoop.Transient
  {
  }

  /** The interleaved handler of `ClaimHandlers`, run without anybody in between, leaves the
      server just as `ClaimAndSpawn` does, whether the spawn succeeds or not. */
  lemma SameAsHandlerAlone(s: State, id: string, w: string, spawned: bool)
    requires Claim(s, id, w).1 == OK
    ensures var acts := ClaimHandlers.Script(id, w, spawned);
      ClaimHandlers.CanRun(ClaimHandlers.Initial(s), acts) &&
      ClaimHandlers.RunAll(ClaimHandlers.Initial(s), acts).server ==
        if spawned then Claim(s, id, w).0 else Release(Claim(s, id, w).0, id).0
  {
    ClaimHandlers.RunsAlone(s, id, w, spawned);
    hide Claim, Release, ClaimHandlers.RunAll, ClaimHandlers.CanRun;
  }

  lemma ClaimRefused(s: State, id: string, w: string)
    requires Claim(s, id, w).1 != OK
    ensures Claim(s, id, w).0 == s
  {
  }

  lemma HeldByKey(s: State, id: string)
    requires Inv(s) && id in s.requests
    ensures s.requests[id].id == id && id != ""
  {
  }

  /** The follow-up awaits the wake and announces it with the claimed worker. */
  lemma OfflineAnnounced(s: State, id: string, now: int)
    requires id in s.requests && s.requests[id].id == id && s.requests[id].status == Claimed && id in s.agents
    requires s.agents[id].status != Archived
    requires !IsConnected(s, s.requests[id].claimedWorkerId) && s.requests[id].claimedWorkerId != ""
    ensures var t := Followup(s, id, now).0;
      t.events != [] && var e := t.events[|t.events| - 1];
      e.typ == ClaimedOffline && e.data.RequestPayload? && e.data.view.id == id && e.data.view.IsOfflineClaim()
        && e.data.view.claimedWorkerId == s.requests[id].claimedWorkerId
    ensures var t := Followup(s, id, now).0;
      id in t.requests && t.requests[id] == s.requests[id].(awaitingWake := true) && t.releases == s.releases
        && t.claims == s.claims
  {
  }

  /** The release requeues the request and announces it unclaimed. */
  lemma RequeueAnnounced(s: State, id: string)
    requires id in s.requests && s.requests[id].id == id && s.requests[id].status == Claimed
    ensures var t := Release(s, id).0;
      t.events != [] && var e := t.events[|t.events| - 1];
      e.typ == Created && e.data.RequestPayload? && e.data.view.id == id && !e.data.view.IsOfflineClaim()
    ensures var t := Release(s, id).0;
      id in t.requests && t.requests[id].status == Pending && t.requests[id].id == id
        && t.releases == s.releases + [id] && t.claims == s.claims
  {
  }

  lemma ClaimsPending(s: State, id: string, w: string)
    requires id in s.requests && s.requests[id].status == Pending && id != "" && w != ""
    ensures Claim(s, id, w).1 == OK && id in Claim(s, id, w).0.requests
    ensures Claim(s, id, w).0.requests[id].HeldBy(w) && Claim(s, id, w).0.requests[id].id == s.requests[id].id
    ensures Claim(s, id, w).0.releases == s.releases && Claim(s, id, w).0.claims == s.claims + [(id, w)]
  {
  }
}
