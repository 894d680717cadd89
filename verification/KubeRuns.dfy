/** Whole runs of the Kubernetes backend: operations on any workers, in any
    interleaving in which those on one worker do not overlap, with the rest of the
    world acting in between. */
module KubeRuns {
  import opened Common
  import opened KubeStore
  import opened ClusterApi
  import opened KubeBackend

  /** The rest of the world: kubelets, users, other controllers' objects. */
  ghost predicate Outsiders(s: Store, t: Store) {
    StoreOk(t) && forall v :: Rely(v, s, t)
  }

  /** A write of Spawn, Wake, RecordClaim or Dispose for some worker, or of ListWorkers. */
  ghost predicate BackendWrites(s: Store, t: Store) { MarksPod(s, t) || exists w :: OwnStep(w, s, t) }

  ghost predicate RunStep(s: Store, t: Store) { Outsiders(s, t) || BackendWrites(s, t) }

  ghost predicate IsRun(run: seq<Store>) {
    run != [] && Settled(run[0]) && forall i | 0 <= i < |run| - 1 :: RunStep(run[i], run[i + 1])
  }

  /** Objects sit under their names, pods under names minted for their worker, and
      no worker has two live pods. */
  ghost predicate Settled(s: Store) {
    StoreOk(s) && forall w :: PodsNamed(s, w) && AtMostOneLive(s, w)
  }

  lemma MarkingIsOutside(s: Store, t: Store)
    requires StoreOk(s) && MarksPod(s, t)
    ensures Outsiders(s, t)
  {
  }

  lemma OutsideKeepsSettled(s: Store, t: Store)
    requires Settled(s) && Outsiders(s, t)
    ensures Settled(t)
  {
    forall w ensures PodsNamed(t, w) && AtMostOneLive(t, w) {
      assert Rely(w, s, t) && PodsNamed(s, w) && AtMostOneLive(s, w);
      forall n | LivePod(t, w, n) ensures LivePod(s, w, n) {}
    }
  }

  lemma OwnKeepsOne(w: string, s: Store, t: Store)
    requires Settled(s) && OwnStep(w, s, t)
    ensures PodsNamed(t, w) && AtMostOneLive(t, w)
  {
    assert PodsNamed(s, w) && AtMostOneLive(s, w);
    if CreatesPod(w, s, t) {
      forall m | LivePod(t, w, m) ensures m !in s.pods { assert !LivePod(s, w, m); }
    } else {
      forall m | LivePod(t, w, m) ensures LivePod(s, w, m) {}
    }
  }

  lemma OwnKeepsSettled(w: string, s: Store, t: Store)
    requires Settled(s) && OwnStep(w, s, t)
    ensures Settled(t)
  {
    OwnStepKeepsStore(w, s, t);
    OwnKeepsOne(w, s, t);
    forall v ensures PodsNamed(t, v) && AtMostOneLive(t, v) {
      if v != w {
        assert PodsNamed(s, v) && AtMostOneLive(s, v);
        OwnWriteIsOutside(v, w, s, t);
        forall n | LivePod(t, v, n) ensures LivePod(s, v, n) {}
      }
    }
  }

  /** In every run no worker ever has two live pods. */
  lemma {:induction false} OneLivePodAlways(run: seq<Store>, i: nat)
    requires IsRun(run) && i < |run|
    ensures Settled(run[i])
  {
    hide Settled, RunStep;
    if i > 0 {
      OneLivePodAlways(run, i - 1);
      assert RunStep(run[i - 1], run[i - 1 + 1]);
      StepKeepsSettled(run[i - 1], run[i]);
    }
  }

  lemma StepKeepsSettled(s: Store, t: Store)
    requires Settled(s) && RunStep(s, t)
    ensures Settled(t)
  {
    hide OwnStep, MarksPod, StoreOk, Rely, Settled;
    if Outsiders(s, t) {
      OutsideKeepsSettled(s, t);
    } else if MarksPod(s, t) {
      SettledStore(s);
      MarkingIsOutside(s, t);
      OutsideKeepsSettled(s, t);
    } else {
      var w :| OwnStep(w, s, t);
      OwnKeepsSettled(w, s, t);
    }
  }

  lemma SettledStore(s: Store)
    requires Settled(s)
    ensures StoreOk(s)
  {
  }

  // ---- objects followed by uid through a run --------------------------------------------------

  /** The pod is the same object, no more alive and no less started than before. */
  predicate PodLater(p: Pod, q: Pod) {
    && q.uid == p.uid && q.labels == p.labels && q.ann.seed == p.ann.seed && q.created == p.created
    && (p.ann.started ==> q.ann.started) && (IsLive(q) ==> IsLive(p))
  }

  predicate PvcLater(p: Pvc, q: Pvc) {
    && q.uid == p.uid && q.labels == p.labels && q.ann.seed == p.ann.seed && (p.deletedAt.Some? ==> q.deletedAt.Some?)
  }

  /** What is there later under a name of `w` is the earlier object, or was made since. */
  ghost predicate Tracks(w: string, s: Store, t: Store) {
    && t.nextUid >= s.nextUid
    && (forall n :: n in t.pods && PodNameOf(w, n) ==>
          (n in s.pods && PodLater(s.pods[n], t.pods[n])) || t.pods[n].uid >= s.nextUid)
    && (PvcName(w) in t.pvcs ==>
          (PvcName(w) in s.pvcs && PvcLater(s.pvcs[PvcName(w)], t.pvcs[PvcName(w)]))
            || t.pvcs[PvcName(w)].uid >= s.nextUid)
  }

  lemma TracksChain(w: string, s: Store, t: Store, u: Store)
    requires Tracks(w, s, t) && Tracks(w, t, u)
    ensures Tracks(w, s, u)
  {
  }

  lemma TracksSelf(w: string, s: Store)
    ensures Tracks(w, s, s)
  {
  }

  lemma OwnTracks(w: string, s: Store, t: Store)
    requires StoreOk(s) && OwnStep(w, s, t)
    ensures Tracks(w, s, t)
  {
  }

  lemma RelyTracks(w: string, s: Store, t: Store)
    requires Rely(w, s, t)
    ensures Tracks(w, s, t)
  {
  }

  lemma StepTracks(w: string, s: Store, t: Store)
    requires Settled(s) && RunStep(s, t)
    ensures Tracks(w, s, t)
  {
    hide OwnStep, MarksPod, StoreOk, Rely, Tracks;
    if Outsiders(s, t) {
      RelyTracks(w, s, t);
    } else if MarksPod(s, t) {
      MarkingIsOutside(s, t);
      RelyTracks(w, s, t);
    } else {
      var v :| OwnStep(v, s, t);
      if v == w {
        OwnTracks(w, s, t);
      } else {
        assert PodsNamed(s, w);
        OwnWriteIsOutside(w, v, s, t);
        RelyTracks(w, s, t);
      }
    }
  }

  lemma {:induction false} TracksAlways(run: seq<Store>, w: string, i: nat, j: nat)
    requires IsRun(run) && i <= j < |run|
    ensures Tracks(w, run[i], run[j])
    decreases j
  {
    hide Settled, RunStep, PodLater, PvcLater;
    if i < j {
      TracksAlways(run, w, i, j - 1);
      OneLivePodAlways(run, j - 1);
      assert RunStep(run[j - 1], run[j - 1 + 1]);
      StepTracks(w, run[j - 1], run[j]);
      TracksChain(w, run[i], run[j - 1], run[j]);
    } else {
      TracksSelf(w, run[i]);
    }
  }

  /** The same pod seen at two times of a run: it keeps its seed and startup marker,
      and once terminal or deleted it is never live again. */
  lemma SamePodLater(run: seq<Store>, w: string, n: string, i: nat, j: nat)
    requires IsRun(run) && i <= j < |run| && PodNameOf(w, n)
    requires n in run[i].pods && n in run[j].pods && run[i].pods[n].uid == run[j].pods[n].uid
    ensures PodLater(run[i].pods[n], run[j].pods[n])
  {
    TracksAlways(run, w, i, j);
    OneLivePodAlways(run, i);
  }

  /** The same claim seen at two times of a run: its recorded seed never changes. */
  lemma SeedNeverChanges(run: seq<Store>, w: string, i: nat, j: nat)
    requires IsRun(run) && i <= j < |run|
    requires PvcName(w) in run[i].pvcs && PvcName(w) in run[j].pvcs
    requires run[i].pvcs[PvcName(w)].uid == run[j].pvcs[PvcName(w)].uid
    ensures PvcLater(run[i].pvcs[PvcName(w)], run[j].pvcs[PvcName(w)])
  {
    TracksAlways(run, w, i, j);
    OneLivePodAlways(run, i);
  }

  /** A pod made from a claim carries the claim's seed for as long as both last. */
  lemma PodsShareTheSeed(run: seq<Store>, cfg: Config, w: string, n: string, i: nat, j: nat)
    requires IsRun(run) && i < j < |run| && PodNameOf(w, n) && PvcName(w) in run[i].pvcs
    requires n !in run[i].pods && n in run[i + 1].pods
    requires run[i].pvcs[PvcName(w)].ann.seed != "" ==>
      run[i + 1].pods[n].ann.seed == run[i].pvcs[PvcName(w)].ann.seed
    requires run[i].pvcs[PvcName(w)].ann.seed == "" ==> run[i + 1].pods[n].ann.seed == cfg.podAnnotations.seed
    requires n in run[j].pods && run[j].pods[n].uid == run[i + 1].pods[n].uid
    requires PvcName(w) in run[j].pvcs && run[j].pvcs[PvcName(w)].uid == run[i].pvcs[PvcName(w)].uid
    ensures run[j].pvcs[PvcName(w)].ann.seed != "" ==>
      run[j].pods[n].ann.seed == run[j].pvcs[PvcName(w)].ann.seed
    ensures run[j].pvcs[PvcName(w)].ann.seed == "" ==> run[j].pods[n].ann.seed == cfg.podAnnotations.seed
  {
    SamePodLater(run, w, n, i + 1, j);
    SeedNeverChanges(run, w, i, j);
  }

  /** A pod that appears in a run by a backend write starts without the marker. */
  lemma BornUnmarked(s: Store, t: Store, n: string)
    requires BackendWrites(s, t) && n !in s.pods && n in t.pods
    ensures !t.pods[n].ann.started && t.pods[n].uid == s.nextUid
  {
  }

  /** So a name of a worker's pod that appears in a run is a new pod without the marker:
      what an earlier pod of the worker proved does not vouch for its successor. */
  lemma NewPodsAreUnmarked(run: seq<Store>, w: string, n: string, i: nat)
    requires IsRun(run) && i + 1 < |run| && PodNameOf(w, n) && n !in run[i].pods && n in run[i + 1].pods
    ensures !run[i + 1].pods[n].ann.started && run[i + 1].pods[n].uid == run[i].nextUid
  {
    hide Settled, OwnStep, MarksPod;
    assert RunStep(run[i], run[i + 1]);
    assert !Rely(w, run[i], run[i + 1]);
    BornUnmarked(run[i], run[i + 1], n);
  }

  // ---- the class's log is such a run ------------------------------------------------------------

  ghost function States(origin: Store, log: seq<Moment>): (run: seq<Store>)
    ensures |run| == |log| + 1 && run[0] == origin
    ensures forall i | 0 <= i < |log| :: run[i + 1] == log[i].state
  {
    if log == [] then [origin]
    else
      assert forall i | 0 <= i < |log| - 1 :: log[..|log| - 1][i] == log[i];
      States(origin, log[..|log| - 1]) + [log[|log| - 1].state]
  }

  /** The rest of the world respects every worker at once. */
  ghost predicate WorldForAll(c: Cluster) { forall w :: c.World(w) }

  /** What a cluster has seen, when every write came from the backend's operations,
      is a run: so all of the above holds of it at every moment. */
  lemma LogIsRun(c: Cluster)
    requires WorldForAll(c) && c.Linked() && Settled(c.origin)
    requires forall i | 0 <= i < |c.log| :: c.log[i].Own? ==> BackendWrites(c.log[i].before, c.log[i].state)
    ensures IsRun(States(c.origin, c.log))
  {
    LogPrefixIsRun(c, |c.log|);
    assert c.log[..|c.log|] == c.log;
  }

  lemma {:induction false} LogPrefixIsRun(c: Cluster, k: nat)
    requires WorldForAll(c) && c.Linked() && Settled(c.origin) && k <= |c.log|
    requires forall i | 0 <= i < |c.log| :: c.log[i].Own? ==> BackendWrites(c.log[i].before, c.log[i].state)
    ensures IsRun(States(c.origin, c.log[..k]))
  {
    hide Settled, RunStep, BackendWrites, WorldForAll;
    var run := States(c.origin, c.log[..k]);
    if k > 0 {
      LogPrefixIsRun(c, k - 1);
      var shorter := States(c.origin, c.log[..k - 1]);
      assert c.log[..k][..k - 1] == c.log[..k - 1];
      assert run == shorter + [c.log[k - 1].state];
      OneLivePodAlways(shorter, k - 1);
      assert shorter[k - 1] == c.StateAt(c.log, k - 1);
      MomentIsStep(c, shorter[k - 1], c.log[k - 1]);
      forall i | 0 <= i < |run| - 1 ensures RunStep(run[i], run[i + 1]) {
        if i < k - 1 { assert run[i] == shorter[i] && run[i + 1] == shorter[i + 1]; }
      }
    }
  }

  lemma MomentIsStep(c: Cluster, s: Store, m: Moment)
    requires WorldForAll(c) && Settled(s) && c.Follows(s, m)
    requires m.Own? ==> BackendWrites(m.before, m.state)
    ensures RunStep(s, m.state)
  {
    hide OwnStep, MarksPod, Rely;
    if m.Outside? {
      var k :| m.state == c.env(k, s);
      assert StoreOk(m.state) by { assert c.World(""); }
      forall v ensures Rely(v, s, m.state) { assert c.World(v); }
    }
  }
}
