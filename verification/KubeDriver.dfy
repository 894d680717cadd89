/** Any sequence of the backend's operations, on any workers: what the cluster goes
    through is a run, so the theorems about runs hold of it at every moment. */
module KubeDriver {
  import opened Common
  import opened KubeStore
  import opened ClusterApi
  import KubeBackend
  import KubeLifecycle
  import KubeDispose
  import KubeListing
  import KubeReport
  import opened KubeRuns

  datatype Call =
    | Spawn(spec: KubeBackend.Spec)
    | Wake(spec: KubeBackend.Spec)
    | RecordClaim(worker: string, requestId: string)
    | Dispose(worker: string, reason: string)
    | ListWorkers
  {
    function About(): Option<string> {
      match this
      case Spawn(spec) => Some(spec.worker)
      case Wake(spec) => Some(spec.worker)
      case RecordClaim(w, _) => Some(w)
      case Dispose(w, _) => Some(w)
      case ListWorkers => None
    }
  }

  /** Spawn is called with newly minted ids: not live, and not used by an earlier call. */
  ghost predicate NewIds(calls: seq<Call>, s: Store) {
    && (forall i :: 0 <= i < |calls| && calls[i].Spawn? ==> !HasLive(s, calls[i].spec.worker))
    && (forall i, j :: 0 <= j < i < |calls| && calls[i].Spawn? ==> calls[j].About() != Some(calls[i].spec.worker))
  }

  /** Every write so far came from the backend. */
  ghost predicate Accounted(log: seq<Moment>) {
    forall i | 0 <= i < |log| :: log[i].Own? ==> BackendWrites(log[i].before, log[i].state)
  }

  /** The writes from `from` on were made by an operation on `w`, or by ListWorkers. */
  ghost predicate MadeFor(w: Option<string>, log: seq<Moment>, from: nat) {
    forall i | from <= i < |log| && log[i].Own? ::
      || MarksPod(log[i].before, log[i].state) || log[i].state == log[i].before
      || (w.Some? && OwnStep(w.value, log[i].before, log[i].state))
  }

  lemma MadeByOperation(w: string, log: seq<Moment>, from: nat)
    requires OwnSteps(w, log, from)
    ensures MadeFor(Some(w), log, from)
  {
  }

  lemma MadeByListing(o: KubeListing.Options, pods: seq<Pod>, log: seq<Moment>, from: nat)
    requires KubeReport.OnlyMarks(o, pods, log, from)
    ensures MadeFor(None, log, from)
  {
  }

  lemma StaysAccounted(w: Option<string>, part: seq<Moment>, log: seq<Moment>)
    requires part <= log && Accounted(part) && MadeFor(w, log, |part|)
    ensures Accounted(log)
  {
    forall i | 0 <= i < |log| && log[i].Own? ensures BackendWrites(log[i].before, log[i].state) {
      if i < |part| {
        assert log[i] == part[i];
      } else if log[i].state == log[i].before {
        assert OwnStep("", log[i].before, log[i].state);
      }
    }
  }

  /** After a call everything is in order again, for every worker. */
  lemma OrderRestored(c: Cluster, w: string)
    requires c.Valid(w) && WorldForAll(c) && Settled(c.origin) && Accounted(c.log)
    ensures c.ValidForAll() && Settled(c.store)
  {
    LogIsRun(c);
    OneLivePodAlways(States(c.origin, c.log), |c.log|);
    assert States(c.origin, c.log)[|c.log|] == c.store;
    forall v ensures c.Valid(v) {
      assert c.World(v);
      assert PodsNamed(c.store, v);
    }
  }

  /** A moment that is not about `u` leaves an id unused. */
  lemma StillUnused(c: Cluster, u: string, w: Option<string>, s: Store, m: Moment)
    requires WorldForAll(c) && Settled(s) && c.Follows(s, m) && w != Some(u) && !HasLive(s, u)
    requires m.Own? ==> MarksPod(s, m.state) || m.state == s || (w.Some? && OwnStep(w.value, s, m.state))
    ensures !HasLive(m.state, u)
  {
    assert Rely(u, s, m.state) by {
      hide OwnStep, MarksPod, Rely, HasLive;
      if m.Outside? {
        var k :| m.state == c.env(k, s);
        assert c.World(u);
      } else if MarksPod(s, m.state) {
        MarkingIsOutside(s, m.state);
      } else if m.state == s {
        assert OwnStep(u + "-", s, s) by { UnchangedIsStep(u + "-", s); }
        assert PodsNamed(s, u);
        OwnWriteIsOutside(u, u + "-", s, s);
      } else {
        assert PodsNamed(s, u);
        OwnWriteIsOutside(u, w.value, s, m.state);
      }
    }
    KubeBackend.StaysDead(u, s, m.state);
  }

  lemma UnchangedIsStep(w: string, s: Store)
    ensures OwnStep(w, s, s)
  {
  }

  lemma SettledAt(c: Cluster, k: nat)
    requires WorldForAll(c) && c.Linked() && Settled(c.origin) && Accounted(c.log) && k <= |c.log|
    ensures Settled(c.StateAt(c.log, k))
  {
    hide WorldForAll, Settled, BackendWrites, IsRun, c.Linked;
    LogIsRun(c);
    OneLivePodAlways(States(c.origin, c.log), k);
  }

  lemma MomentAt(c: Cluster, w: Option<string>, from: nat, k: nat)
    requires c.Linked() && from <= k < |c.log| && MadeFor(w, c.log, from)
    ensures var s, m := c.StateAt(c.log, k), c.log[k];
      && c.Follows(s, m) && c.StateAt(c.log, k + 1) == m.state
      && (m.Own? ==> MarksPod(s, m.state) || m.state == s || (w.Some? && OwnStep(w.value, s, m.state)))
  {
    hide OwnStep, MarksPod;
  }

  lemma {:induction false} UnusedThroughout(c: Cluster, u: string, w: Option<string>, from: nat, k: nat)
    requires WorldForAll(c) && c.Linked() && Settled(c.origin) && Accounted(c.log)
    requires from <= k <= |c.log| && MadeFor(w, c.log, from) && w != Some(u) && !HasLive(c.StateAt(c.log, from), u)
    ensures !HasLive(c.StateAt(c.log, k), u)
    decreases k
  {
    hide WorldForAll, Settled, HasLive, Accounted, MadeFor, OwnStep, MarksPod, c.Linked, c.Follows;
    if from < k {
      UnusedThroughout(c, u, w, from, k - 1);
      SettledAt(c, k - 1);
      MomentAt(c, w, from, k - 1);
      StillUnused(c, u, w, c.StateAt(c.log, k - 1), c.log[k - 1]);
    }
  }

  // ---- seeds -----------------------------------------------------------------------------

  /** A pod that a write adds for a worker whose claim is there carries that claim's seed. */
  ghost predicate PodSeeded(cfg: KubeBackend.Config, m: Moment) {
    m.Own? ==> forall w, n ::
      n !in m.before.pods && n in m.state.pods && PodNameOf(w, n) && PvcName(w) in m.before.pvcs ==>
        var recorded, seed := m.before.pvcs[PvcName(w)].ann.seed, m.state.pods[n].ann.seed;
        (recorded != "" ==> seed == recorded) && (recorded == "" ==> seed == cfg.podAnnotations.seed)
  }

  ghost predicate AllSeeded(cfg: KubeBackend.Config, log: seq<Moment>, from: nat) {
    forall i | from <= i < |log| :: PodSeeded(cfg, log[i])
  }

  /** Nobody but the backend creates the workers' claims. */
  ghost predicate AllPvcsKept(c: Cluster) { forall w :: c.PvcKept(w) }

  lemma StepSeeded(cfg: KubeBackend.Config, w: string, m: Moment)
    requires KubeBackend.SeedCarried(cfg, w, m) && (m.Own? ==> OwnStep(w, m.before, m.state))
    ensures PodSeeded(cfg, m)
  {
    if m.Own? {
      forall v, n | n !in m.before.pods && n in m.state.pods && PodNameOf(v, n) && PvcName(v) in m.before.pvcs
        ensures
          var recorded, seed := m.before.pvcs[PvcName(v)].ann.seed, m.state.pods[n].ann.seed;
          (recorded != "" ==> seed == recorded) && (recorded == "" ==> seed == cfg.podAnnotations.seed)
      {
        assert PodNameOf(w, n);
        PodNamesDiffer(v, w, n);
      }
    }
  }

  lemma StepsSeeded(cfg: KubeBackend.Config, w: string, log: seq<Moment>, from: nat)
    requires KubeBackend.SeedsCarried(cfg, w, log, from) && OwnSteps(w, log, from)
    ensures AllSeeded(cfg, log, from)
  {
    hide OwnStep, KubeBackend.SeedCarried, PodSeeded;
    forall i | from <= i < |log| ensures PodSeeded(cfg, log[i]) { StepSeeded(cfg, w, log[i]); }
  }

  lemma MarksSeeded(cfg: KubeBackend.Config, o: KubeListing.Options, pods: seq<Pod>, log: seq<Moment>, from: nat)
    requires KubeReport.OnlyMarks(o, pods, log, from)
    ensures AllSeeded(cfg, log, from)
  {
    hide KubeReport.Worked;
  }

  lemma SeededJoined(cfg: KubeBackend.Config, part: seq<Moment>, whole: seq<Moment>, from: nat)
    requires from <= |part| && part <= whole && AllSeeded(cfg, part, from) && AllSeeded(cfg, whole, |part|)
    ensures AllSeeded(cfg, whole, from)
  {
    hide PodSeeded;
  }

  /** Every pod of a worker that appeared while its claim was there carries the claim's seed
      for as long as both exist, whoever wrote: the backend carried it over, and nobody else
      adds such a pod. */
  lemma PodsCarryTheirSeed(c: Cluster, cfg: KubeBackend.Config, w: string, n: string, i: nat, j: nat)
    requires WorldForAll(c) && c.Linked() && Settled(c.origin) && Accounted(c.log) && AllSeeded(cfg, c.log, 0)
    requires i < j <= |c.log| && PodNameOf(w, n)
    requires var s, t := c.StateAt(c.log, i), c.StateAt(c.log, i + 1);
      n !in s.pods && n in t.pods && PvcName(w) in s.pvcs
    requires var s, t, u := c.StateAt(c.log, i), c.StateAt(c.log, i + 1), c.StateAt(c.log, j);
      && n in u.pods && u.pods[n].uid == t.pods[n].uid
      && PvcName(w) in u.pvcs && u.pvcs[PvcName(w)].uid == s.pvcs[PvcName(w)].uid
    ensures var u := c.StateAt(c.log, j);
      && (u.pvcs[PvcName(w)].ann.seed != "" ==> u.pods[n].ann.seed == u.pvcs[PvcName(w)].ann.seed)
      && (u.pvcs[PvcName(w)].ann.seed == "" ==> u.pods[n].ann.seed == cfg.podAnnotations.seed)
  {
    var s, m := c.StateAt(c.log, i), c.log[i];
    assert c.Follows(s, m) && PodSeeded(cfg, m);
    SettledAt(c, i);
    if m.Outside? { NotFromOutside(c, w, n, s, m); }
    hide WorldForAll, c.Linked, Settled, Accounted, AllSeeded, IsRun;
    var run := States(c.origin, c.log);
    AccountedIsRun(c);
    assert run[i] == s && run[i + 1] == m.state && run[j] == c.StateAt(c.log, j);
    PodsShareTheSeed(run, cfg, w, n, i, j);
  }

  lemma NotFromOutside(c: Cluster, w: string, n: string, s: Store, m: Moment)
    requires WorldForAll(c) && Settled(s) && c.Follows(s, m) && m.Outside? && PodNameOf(w, n) && n in m.state.pods
    ensures n in s.pods
  {
    var k :| m.state == c.env(k, s);
    assert c.World(w);
  }

  /** One call, and what is left of the ids still to be used. */
  method Perform(c: Cluster, cfg: KubeBackend.Config, o: KubeListing.Options, call: Call)
    requires c.ValidForAll() && WorldForAll(c) && Settled(c.origin) && Accounted(c.log)
    requires call.Spawn? ==> !HasLive(c.store, call.spec.worker)
    modifies c
    ensures c.ValidForAll() && Accounted(c.log)
    ensures old(c.log) <= c.log && MadeFor(call.About(), c.log, |old(c.log)|)
    ensures cfg.persistent && AllPvcsKept(c) ==> AllSeeded(cfg, c.log, |old(c.log)|)
  {
    hide c.Valid, WorldForAll, Settled, HasLive, Accounted, MadeFor, OwnSteps, KubeReport.OnlyMarks, c.PvcKept,
      AllSeeded, KubeBackend.SeedsCarried;
    ghost var log := c.log;
    match call
    case ListWorkers =>
      var out, pvcs, pods, times := KubeReport.ListWorkers(c, o);
      MadeByListing(o, pods, c.log, |log|);
      MarksSeeded(cfg, o, pods, c.log, |log|);
      StaysAccounted(None, log, c.log);
    case Spawn(spec) =>
      ValidFor(c, spec.worker);
      var ok := KubeLifecycle.Spawn(c, cfg, spec);
      Settle(c, spec.worker, log);
      if cfg.persistent && c.PvcKept(spec.worker) { StepsSeeded(cfg, spec.worker, c.log, |log|); }
    case Wake(spec) =>
      ValidFor(c, spec.worker);
      var err := KubeBackend.Wake(c, cfg, spec);
      Settle(c, spec.worker, log);
      if cfg.persistent && c.PvcKept(spec.worker) { StepsSeeded(cfg, spec.worker, c.log, |log|); }
    case RecordClaim(w, requestId) =>
      ValidFor(c, w);
      var ok := KubeDispose.RecordClaim(c, cfg, w, requestId);
      Settle(c, w, log);
      StepsSeeded(cfg, w, c.log, |log|);
    case Dispose(w, reason) =>
      ValidFor(c, w);
      var ok := KubeDispose.Dispose(c, cfg, w, reason);
      Settle(c, w, log);
      StepsSeeded(cfg, w, c.log, |log|);
  }

  lemma ValidFor(c: Cluster, w: string)
    requires c.ValidForAll()
    ensures c.Valid(w)
  {
  }

  lemma Settle(c: Cluster, w: string, part: seq<Moment>)
    requires c.Valid(w) && WorldForAll(c) && Settled(c.origin) && part <= c.log && Accounted(part)
    requires OwnSteps(w, c.log, |part|)
    ensures c.ValidForAll() && Accounted(c.log) && MadeFor(Some(w), c.log, |part|)
  {
    hide c.Valid, WorldForAll, Settled, Accounted, MadeFor, OwnSteps;
    MadeByOperation(w, c.log, |part|);
    StaysAccounted(Some(w), part, c.log);
    OrderRestored(c, w);
  }

  lemma NewIdsLeft(c: Cluster, calls: seq<Call>, i: nat, part: seq<Moment>, s: Store)
    requires i < |calls| && NewIds(calls[i..], s)
    requires WorldForAll(c) && c.Linked() && Settled(c.origin) && Accounted(c.log)
    requires part <= c.log && s == c.StateAt(part, |part|) && MadeFor(calls[i].About(), c.log, |part|)
    ensures NewIds(calls[i + 1..], c.store)
  {
    assert s == c.StateAt(c.log, |part|);
    var all, rest := calls[i..], calls[i + 1..];
    assert all[0] == calls[i] && forall j :: 0 <= j < |rest| ==> all[j + 1] == rest[j];
    forall j | 0 <= j < |rest| && rest[j].Spawn? ensures !HasLive(c.store, rest[j].spec.worker) {
      assert all[j + 1].Spawn?;
      UnusedThroughout(c, rest[j].spec.worker, calls[i].About(), |part|, |c.log|);
    }
    forall j, k | 0 <= k < j < |rest| && rest[j].Spawn? ensures rest[k].About() != Some(rest[j].spec.worker) {
      assert all[j + 1].Spawn? && all[k + 1] == rest[k];
    }
  }

  /** From a settled cluster in a world that respects the workers, any calls in any order,
      Spawn with new ids: the whole history is a run, so no worker ever had two live pods,
      no recorded seed changed and no startup marker was lost. */
  method Drive(c: Cluster, cfg: KubeBackend.Config, o: KubeListing.Options, calls: seq<Call>)
    requires c.ValidForAll() && WorldForAll(c) && Settled(c.origin) && Accounted(c.log) && NewIds(calls, c.store)
    modifies c
    ensures c.ValidForAll() && old(c.log) <= c.log && Accounted(c.log)
    ensures IsRun(States(c.origin, c.log)) && Settled(c.store)
    ensures cfg.persistent && AllPvcsKept(c) ==> AllSeeded(cfg, c.log, |old(c.log)|)
  {
    hide c.Valid, WorldForAll, Settled, HasLive, Accounted, MadeFor, NewIds, IsRun, c.Linked, AllSeeded, AllPvcsKept;
    assert calls[0..] == calls;
    ghost var log0 := c.log;
    NothingSeeded(cfg, log0);
    for i := 0 to |calls|
      invariant c.ValidForAll() && Accounted(c.log) && NewIds(calls[i..], c.store) && log0 <= c.log
      invariant cfg.persistent && AllPvcsKept(c) ==> AllSeeded(cfg, c.log, |log0|)
    {
      ghost var log, s := c.log, c.store;
      FirstIsNew(calls[i..], s);
      LinkedNow(c);
      assert calls[i..][0] == calls[i];
      Perform(c, cfg, o, calls[i]);
      if cfg.persistent && AllPvcsKept(c) { SeededJoined(cfg, log, c.log, |log0|); }
      LinkedNow(c);
      NewIdsLeft(c, calls, i, log, s);
    }
    LinkedNow(c);
    ValidFor(c, "");
    OrderRestored(c, "");
    AccountedIsRun(c);
  }

  lemma NothingSeeded(cfg: KubeBackend.Config, log: seq<Moment>)
    ensures AllSeeded(cfg, log, |log|)
  {
  }

  lemma FirstIsNew(calls: seq<Call>, s: Store)
    requires NewIds(calls, s) && calls != []
    ensures calls[0].Spawn? ==> !HasLive(s, calls[0].spec.worker)
  {
  }

  lemma LinkedNow(c: Cluster)
    requires c.ValidForAll()
    ensures c.Linked() && c.store == c.StateAt(c.log, |c.log|)
  {
    assert c.Valid("");
  }

  lemma AccountedIsRun(c: Cluster)
    requires WorldForAll(c) && c.Linked() && Settled(c.origin) && Accounted(c.log)
    ensures IsRun(States(c.origin, c.log))
  {
    LogIsRun(c);
  }
}
