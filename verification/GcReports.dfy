/** Garbage collection over the Kubernetes backend's reports: what ListWorkers knows of a
    pod's startup protects its worker from every later pass. */
module GcReports {
  import opened Common
  import opened Backend
  import opened KubeStore
  import opened ClusterApi
  import opened KubeListing
  import opened KubeFacts
  import opened KubeReport
  import opened KubeStartup
  import KubeRuns
  import opened ControllerConfig
  import opened Gc
  import opened GcRuns

  /** While a pod that once carried the startup marker lives, no pass over a later report
      disposes of its worker, whatever the policy, the clock and the agent API say. */
  lemma StartedIsSpared(
      stores: seq<Store>, w: string, n: string, k: nat, j: nat, o: Options,
      pvcs: seq<Pvc>, pods: seq<Pod>, times: seq<Time>, cfg: Config, passes: seq<Pass>, first: nat, i: nat)
    requires KubeRuns.IsRun(stores) && k <= j < |stores| && PodNameOf(w, n)
    requires n in stores[k].pods && n in stores[j].pods && stores[j].pods[n].uid == stores[k].pods[n].uid
    requires stores[k].pods[n].ann.started && IsPodOf(w, stores[j].pods[n]) && IsLive(stores[j].pods[n])
    requires GcRuns.IsRun(cfg, passes, first) && i < |passes|
    requires ManagedPods(pods, stores[j]) && |times| == |pods|
    requires IsReport(passes[i].ws, PvcFacts(pvcs) + PodFacts(o, pods, times))
    ensures forall d :: d in passes[i].made ==> d.worker.id != w
  {
    hide KubeRuns.IsRun, GcRuns.IsRun, IsReport, Selected;
    PassAt(cfg, passes, first, i);
    forall d | d in passes[i].made ensures d.worker.id != w {
      assert Selects(cfg, passes[i].ws, passes[i].answers, passes[i].disabled, first + i, |passes[i].ws|, d);
      assert d.worker in passes[i].ws;
      if d.worker.id == w {
        ReportedLive(stores, w, n, k, j, o, passes[i].ws, pvcs, pods, times, d.worker);
        OnlyKnownOffline(cfg, passes, first, i, d.place);
      }
    }
  }

  /** No pass over a report disposes of a worker one of whose listed pods was up and younger
      than the startup timeout, or has no creation time, or meets no timeout. */
  lemma YoungIsSpared(
      o: Options, pvcs: seq<Pvc>, pods: seq<Pod>, times: seq<Time>, n: nat, cfg: Config, passes: seq<Pass>, first: nat,
      i: nat)
    requires GcRuns.IsRun(cfg, passes, first) && i < |passes| && n < |pods| && |times| == |pods|
    requires ReportOn(passes[i].ws, o, pvcs, pods, times) && pods[n].labels.Owner() != ""
    requires pods[n].deletedAt.None? && (pods[n].phase == PodPending || pods[n].phase == PodRunning)
    requires o.startupTimeout <= 0 || pods[n].created == 0 || times[n] - pods[n].created < o.startupTimeout
    ensures forall d :: d in passes[i].made ==> d.worker.id != pods[n].labels.Owner()
  {
    hide GcRuns.IsRun, ReportOn, Selected;
    PassAt(cfg, passes, first, i);
    YoungIsLive(passes[i].ws, o, pvcs, pods, times, n);
    forall d | d in passes[i].made ensures d.worker.id != pods[n].labels.Owner() {
      assert Selects(cfg, passes[i].ws, passes[i].answers, passes[i].disabled, first + i, |passes[i].ws|, d);
      if d.worker.id == pods[n].labels.Owner() { OnlyKnownOffline(cfg, passes, first, i, d.place); }
    }
  }

  /** And a pass over a report disposes of every owned worker whose pods that are up are all
      unstarted and past the startup timeout, for just that reason. */
  lemma OverdueIsDisposed(
      o: Options, pvcs: seq<Pvc>, pods: seq<Pod>, times: seq<Time>, id: string, cfg: Config, passes: seq<Pass>,
      first: nat, i: nat)
    requires GcRuns.IsRun(cfg, passes, first) && i < |passes| && |times| == |pods|
    requires ReportOn(passes[i].ws, o, pvcs, pods, times) && HasPrefix(id, cfg.workerIdPrefix)
    requires o.startupTimeout > 0 && exists n :: 0 <= n < |pods| && pods[n].labels.Owner() == id && Up(pods[n])
    requires forall n :: 0 <= n < |pods| && pods[n].labels.Owner() == id && Up(pods[n]) ==>
      !Evidence(o, pods[n]) && pods[n].created != 0 && times[n] - pods[n].created >= o.startupTimeout
    ensures exists d :: d in passes[i].made && d.worker.id == id && d.reason == StartupTimeout
  {
    hide GcRuns.IsRun, ReportOn, Up, Evidence;
    assert id != "";
    OverdueIsTimedOut(passes[i].ws, o, pvcs, pods, times, id);
    var r :| r in passes[i].ws && r.id == id;
    var place :| 0 <= place < |passes[i].ws| && passes[i].ws[place] == r;
    PassAt(cfg, passes, first, i);
    assert Selected(cfg, passes[i].ws, passes[i].answers, passes[i].disabled, place, StartupTimeout);
    assert Disposal(first + i, place, r, StartupTimeout) in passes[i].made;
  }
}
