/** What a disposal leaves for the next listing (internal/backend/kube/kube.go Dispose,
    ListWorkers): the claim is ignored, and the worker is listed, if at all, only through
    pods that are going, and not as live. */
module KubeDisposed {
  import opened Common
  import opened Backend
  import opened KubeStore
  import opened ClusterApi
  import KubeBackend
  import KubeDispose
  import opened KubeListing
  import opened KubeFacts
  import opened KubeReport
  import opened KubeRuns
  import KubeDriver

  /** Claims labelled for the worker sit under its name. */
  predicate ClaimsNamed(s: Store, w: string) {
    forall n :: n in s.pvcs && s.pvcs[n].labels.Managed() && s.pvcs[n].labels.Owner() == w ==> n == PvcName(w)
  }

  /** A pod of the worker is still there, terminal or terminating. */
  predicate Going(s: Store, w: string, n: string) { n in s.pods && IsPodOf(w, s.pods[n]) && !IsLive(s.pods[n]) }

  /** What a report may say of a worker whose claim is gone and that has no live pod. */
  lemma ListedOnlyByPods(
      s: Store, t: Store, w: string, o: Options, pvcs: seq<Pvc>, pods: seq<Pod>, times: seq<Time>, out: seq<WorkerInfo>,
      r: WorkerInfo)
    requires ManagedPvcs(pvcs, s) && ClaimsNamed(s, w) && KubeBackend.PvcGone(s, w)
    requires ManagedPods(pods, t) && !HasLive(t, w) && StoreOk(t)
    requires |times| == |pods| && IsReport(out, PvcFacts(pvcs) + PodFacts(o, pods, times)) && r in out && r.id == w
    ensures r.live == Some(false) && exists n :: Going(t, w, n)
  {
    hide IsReport, ManagedPvcs, ManagedPods, HasLive, StoreOk, ClaimsNamed, Going, IsLive, PvcFacts, PodFacts;
    LiveIsKnown(out, PvcFacts(pvcs) + PodFacts(o, pods, times), r);
    ClaimsTerminating(s, w, pvcs);
    OnlyThroughPods(o, pvcs, pods, times, out, r);
    GoingPods(t, w, pods);
  }

  lemma LiveIsKnown(out: seq<WorkerInfo>, facts: seq<Fact>, r: WorkerInfo)
    requires IsReport(out, facts) && r in out
    ensures r.live == Some(true) || r.live == Some(false)
  {
    assert Reports(r, facts);
    if r.live.value { assert r.live == Some(true); } else { assert r.live == Some(false); }
  }

  lemma GoingPods(t: Store, w: string, pods: seq<Pod>)
    requires ManagedPods(pods, t) && StoreOk(t) && !HasLive(t, w)
    ensures forall p :: p in pods && p.labels.Owner() == w ==> Going(t, w, p.name) && !IsLive(p)
  {
    hide ManagedPods, StoreOk, HasLive;
    forall p | p in pods && p.labels.Owner() == w ensures Going(t, w, p.name) && !IsLive(p) {
      PodOfWorker(t, w, p, pods);
    }
  }

  lemma ClaimsTerminating(s: Store, w: string, pvcs: seq<Pvc>)
    requires ManagedPvcs(pvcs, s) && ClaimsNamed(s, w) && KubeBackend.PvcGone(s, w)
    ensures forall p :: p in pvcs && p.labels.Owner() == w ==> p.deletedAt.Some?
  {
    forall p | p in pvcs && p.labels.Owner() == w ensures p.deletedAt.Some? {
      var n :| n in s.pvcs && s.pvcs[n] == p;
    }
  }

  lemma PodOfWorker(t: Store, w: string, p: Pod, pods: seq<Pod>)
    requires ManagedPods(pods, t) && StoreOk(t) && !HasLive(t, w) && p in pods && p.labels.Owner() == w
    ensures Going(t, w, p.name) && !IsLive(p)
  {
    var n :| n in t.pods && t.pods[n] == p;
    assert !LivePod(t, w, n);
  }

  /** While nobody else creates the worker's claim, the world leaves a gone one gone. */
  lemma GoneNextMoment(c: Cluster, w: string, s: Store, m: Moment)
    requires c.World(w) && c.PvcKept(w) && StoreOk(s) && c.Follows(s, m) && m.Outside? && KubeBackend.PvcGone(s, w)
    ensures KubeBackend.PvcGone(m.state, w)
  {
    var k :| m.state == c.env(k, s);
    assert Rely(w, s, m.state) && KeepsPvc(w, s, m.state);
  }

  /** Dispose, then list: after nil, and with nobody else making the worker's claim, whatever
      else the world does in between, a report names the worker only while one of its pods is
      still there on its way out, and then not as live. */
  method DisposeThenList(c: Cluster, cfg: KubeBackend.Config, o: Options, w: string, reason: string)
    returns (ok: bool, out: Option<seq<WorkerInfo>>, ghost seen: Store, ghost listed: Store)
    requires c.ValidForAll() && WorldForAll(c) && Settled(c.origin) && KubeDriver.Accounted(c.log)
    requires c.PvcKept(w) && cfg.persistent && o.persistent
    modifies c
    ensures ok && out.Some? && ClaimsNamed(seen, w) ==> forall r :: r in out.value && r.id == w ==>
      r.live == Some(false) && exists n :: Going(listed, w, n)
    ensures c.Quiet() && ok ==> out.Some?
    ensures out.Some? ==> exists i, j :: 0 <= i < j < |c.log| && c.log[i].state == seen && c.log[j].state == listed
  {
    hide c.Valid, WorldForAll, Settled, HasLive, KubeDriver.Accounted, KubeDriver.MadeFor, OwnSteps, c.PvcKept, c.Quiet,
      IsReport, ManagedPods, ManagedPvcs, OnlyMarks, c.Linked, KubeDispose.EndedIdle, KubeDispose.PodsFirst;
    ghost var log0 := c.log;
    seen, listed := c.store, c.store;
    KubeDriver.ValidFor(c, w);
    ok := KubeDispose.Dispose(c, cfg, w, reason);
    out := None;
    if !ok {
      return;
    }
    KubeDriver.Settle(c, w, log0);
    KubeDriver.LinkedNow(c);
    ghost var log1, from := c.log, |c.log|;
    ghost var pvcs, pods, times;
    out, pvcs, pods, times := ListWorkers(c, o);
    if out.Some? {
      seen, listed := c.log[from].state, c.log[from + 1].state;
      KubeDriver.LinkedNow(c);
      KubeDriver.MadeByListing(o, pods, c.log, from);
      KubeDriver.StaysAccounted(None, log1, c.log);
      StillGone(c, w, log1);
      if ClaimsNamed(seen, w) {
        forall r | r in out.value && r.id == w
          ensures r.live == Some(false) && exists n :: Going(listed, w, n)
        {
          ListedOnlyByPods(seen, listed, w, o, pvcs, pods, times, out.value, r);
        }
      }
    }
  }

  lemma StillGone(c: Cluster, w: string, part: seq<Moment>)
    requires WorldForAll(c) && c.Linked() && Settled(c.origin) && KubeDriver.Accounted(c.log) && c.PvcKept(w)
    requires part <= c.log && |part| + 1 < |c.log| && KubeDriver.MadeFor(None, c.log, |part|) && c.log[|part|].Outside?
    requires !HasLive(c.StateAt(part, |part|), w) && KubeBackend.PvcGone(c.StateAt(part, |part|), w)
    ensures KubeBackend.PvcGone(c.log[|part|].state, w)
    ensures !HasLive(c.log[|part| + 1].state, w) && StoreOk(c.log[|part| + 1].state)
  {
    var k := |part|;
    assert c.StateAt(c.log, k) == c.StateAt(part, k) && c.StateAt(c.log, k + 2) == c.log[k + 1].state;
    assert c.Follows(c.StateAt(c.log, k), c.log[k]) && c.World(w);
    hide WorldForAll, c.World, c.Linked, c.PvcKept, Settled, HasLive, KubeDriver.Accounted, KubeDriver.MadeFor,
      c.Follows;
    KubeDriver.UnusedThroughout(c, w, None, k, k + 2);
    KubeDriver.SettledAt(c, k);
    KubeDriver.SettledAt(c, k + 2);
    SettledStore(c.StateAt(c.log, k));
    SettledStore(c.StateAt(c.log, k + 2));
    GoneNextMoment(c, w, c.StateAt(c.log, k), c.log[k]);
  }
}
