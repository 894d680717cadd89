/** The Kubernetes backend's operations on one worker (internal/backend/kube/kube.go
    Spawn, Wake, RecordClaim, Dispose, ensurePVC, createPod), with the rest of the
    world acting before every API call and any call able to fail. */
module KubeBackend {
  import opened Common
  import opened Snapshots
  import opened KubeStore
  import opened ClusterApi

  datatype Config = Config(
    persistent: bool,
    selectSeed: bool,
    podAnnotations: Annotations,
    pvcAnnotations: Annotations,
    containers: seq<Container>)

  datatype Spec = Spec(worker: string, pool: string, kind: string, requestId: string)

  datatype Error = Nil | WorkspaceMissing | UnknownWorker | OtherError

  // ---- manifests -----------------------------------------------------------------

  function WorkerLabels(spec: Spec): Labels { Labels(true, Some(spec.worker), spec.pool) }

  /** The template's annotations, overridden by the stamps of this spawn. */
  function Stamped(template: Annotations, spec: Spec, now: Time): Annotations {
    template.(lastClaimedAt := now, spawnKind := spec.kind,
              requestId := if spec.requestId != "" then spec.requestId else template.requestId)
  }

  /** `annotatePVC`'s merge patch. */
  function Restamped(spec: Spec, now: Time): Annotations -> Annotations {
    a => Stamped(a, spec, now)
  }

  function BuildPod(cfg: Config, spec: Spec, suffix: string, now: Time): Pod {
    Pod(spec.worker + "-" + suffix, 0, WorkerLabels(spec), Stamped(cfg.podAnnotations, spec, now).(started := false),
        0, None, PodPending, false, cfg.containers, [])
  }

  function BuildPvc(cfg: Config, spec: Spec, now: Time): Pvc {
    Pvc(PvcName(spec.worker), 0, WorkerLabels(spec), Stamped(cfg.pvcAnnotations, spec, now), 0, None)
  }

  lemma BuiltNames(cfg: Config, spec: Spec, suffix: string, now: Time)
    requires |suffix| == 5
    ensures PodNameOf(spec.worker, BuildPod(cfg, spec, suffix, now).name)
  {
  }

  // ---- what a spawn leaves on a pod and on a claim -----------------------------------------

  /** The stamps of this spawn over what was there: its kind, a time the clock showed, its
      request unless it has none, and nothing else that is read but perhaps seed and marker. */
  ghost predicate StampedFor(c: Cluster, spec: Spec, was: Annotations, ann: Annotations) {
    && ann.spawnKind == spec.kind && (exists k :: ann.lastClaimedAt == c.clock(k))
    && (spec.requestId != "" ==> ann.requestId == spec.requestId)
    && (spec.requestId == "" ==> ann.requestId == was.requestId)
    && ann.disposeReason == was.disposeReason
  }

  lemma StampedIs(c: Cluster, spec: Spec, was: Annotations, k: nat)
    ensures StampedFor(c, spec, was, Stamped(was, spec, c.clock(k)))
    ensures Stamped(was, spec, c.clock(k)).seed == was.seed && Stamped(was, spec, c.clock(k)).started == was.started
  {
  }

  /** A pending pod of the worker and its pool under a new name minted for it, from the
      template, without the startup marker. */
  ghost predicate IsBuilt(c: Cluster, cfg: Config, spec: Spec, p: Pod) {
    && (exists k :: p.name == spec.worker + "-" + c.suffix(k))
    && p.labels == Labels(true, Some(spec.worker), spec.pool)
    && StampedFor(c, spec, cfg.podAnnotations, p.ann) && !p.ann.started
    && p.deletedAt.None? && p.phase == PodPending && !p.readyCondition && p.containers == cfg.containers
    && p.statuses == []
  }

  lemma BuiltIs(c: Cluster, cfg: Config, spec: Spec, k: nat, p: Pod)
    requires var b := BuildPod(cfg, spec, c.suffix(k), c.clock(k));
      p == b.(ann := b.ann.(seed := p.ann.seed), uid := p.uid, created := p.created)
    ensures IsBuilt(c, cfg, spec, p)
  {
    StampedIs(c, spec, cfg.podAnnotations, k);
    assert p.name == spec.worker + "-" + c.suffix(k);
  }

  // ---- bookkeeping over the log ------------------------------------------------------

  /** A pod created while the worker's claim is there carries the claim's seed. */
  ghost predicate SeedCarried(cfg: Config, w: string, m: Moment) {
    m.Own? && PvcName(w) in m.before.pvcs ==>
      forall n :: n in m.state.pods && n !in m.before.pods ==>
        var recorded, seed := m.before.pvcs[PvcName(w)].ann.seed, m.state.pods[n].ann.seed;
        (recorded != "" ==> seed == recorded) && (recorded == "" ==> seed == cfg.podAnnotations.seed)
  }

  ghost predicate SeedsCarried(cfg: Config, w: string, log: seq<Moment>, from: nat) {
    forall i | from <= i < |log| :: SeedCarried(cfg, w, log[i])
  }

  lemma ReadLogged(cfg: Config, w: string, log: seq<Moment>, from: nat, s: Store)
    requires from <= |log|
    ensures OwnSteps(w, log, from) ==> OwnSteps(w, log + [Outside(s)], from)
    ensures OwnWrites(w, log, from) ==> OwnWrites(w, log + [Outside(s)], from)
    ensures SeedsCarried(cfg, w, log, from) ==> SeedsCarried(cfg, w, log + [Outside(s)], from)
  {
  }

  lemma WroteLogged(cfg: Config, w: string, log: seq<Moment>, from: nat, mid: Store, s: Store)
    requires from <= |log|
    ensures OwnSteps(w, log, from) && OwnStep(w, mid, s) ==> OwnSteps(w, log + [Outside(mid), Own(mid, s)], from)
    ensures OwnWrites(w, log, from) && OwnWrite(w, mid, s) ==> OwnWrites(w, log + [Outside(mid), Own(mid, s)], from)
    ensures SeedsCarried(cfg, w, log, from) && SeedCarried(cfg, w, Own(mid, s)) ==>
      SeedsCarried(cfg, w, log + [Outside(mid), Own(mid, s)], from)
  {
  }

  lemma LiveLogged(w: string, log: seq<Moment>, more: seq<Moment>, from: nat)
    requires from <= |log|
    ensures SawLive(w, log, from) ==> SawLive(w, log + more, from)
    ensures (exists i :: 0 <= i < |more| && HasLive(more[i].state, w)) ==> SawLive(w, log + more, from)
  {
    var all := log + more;
    if SawLive(w, log, from) {
      var i :| from <= i < |log| && HasLive(log[i].state, w);
      assert all[i] == log[i];
    }
    if i :| 0 <= i < |more| && HasLive(more[i].state, w) {
      assert all[|log| + i] == more[i];
    }
  }

  lemma StaysDead(w: string, s: Store, t: Store)
    requires Rely(w, s, t) && !HasLive(s, w)
    ensures !HasLive(t, w)
  {
    forall n ensures !LivePod(t, w, n) {
      assert !LivePod(s, w, n);
    }
  }

  /** Nothing but the worker's own pods and claim differs. */
  ghost predicate OthersSame(w: string, s: Store, t: Store) {
    && (forall n :: !PodNameOf(w, n) ==> (n in t.pods <==> n in s.pods) && (n in s.pods ==> t.pods[n] == s.pods[n]))
    && (forall n :: n != PvcName(w) ==> (n in t.pvcs <==> n in s.pvcs) && (n in s.pvcs ==> t.pvcs[n] == s.pvcs[n]))
  }

  lemma OwnWriteOthersSame(w: string, s: Store, t: Store)
    requires OwnWrite(w, s, t)
    ensures OthersSame(w, s, t)
  {
    if OwnStep(w, s, t) { OwnStepOthersSame(w, s, t); }
  }

  lemma OwnStepOthersSame(w: string, s: Store, t: Store)
    requires OwnStep(w, s, t)
    ensures OthersSame(w, s, t)
  {
  }

  /** The names the worker's next pods will get are free. */
  ghost predicate FreshNames(c: Cluster, w: string, s: Store) {
    forall k :: w + "-" + c.suffix(k) !in s.pods
  }

  /** The seed recorded on the worker's claim, or the template's if there is none. */
  ghost predicate HasSeed(cfg: Config, s: Store, w: string, p: Pod) {
    && (cfg.persistent && PvcName(w) in s.pvcs && s.pvcs[PvcName(w)].ann.seed != "" ==>
          p.ann.seed == s.pvcs[PvcName(w)].ann.seed)
    && (!cfg.persistent || PvcName(w) !in s.pvcs || s.pvcs[PvcName(w)].ann.seed == "" ==>
          p.ann.seed == cfg.podAnnotations.seed)
  }

  /** One new pod, built for this spawn with the claim's seed, and nothing else. */
  ghost predicate AddsPod(c: Cluster, cfg: Config, spec: Spec, s: Store, t: Store) {
    exists n :: n !in s.pods && n in t.pods
      && t == s.(pods := s.pods[n := t.pods[n]], nextUid := s.nextUid + 1)
      && IsBuilt(c, cfg, spec, t.pods[n]) && HasSeed(cfg, s, spec.worker, t.pods[n])
  }

  // ---- createPod ------------------------------------------------------------------------

  method CreatePod(c: Cluster, cfg: Config, spec: Spec) returns (ok: bool)
    requires c.Valid(spec.worker)
    modifies c
    ensures c.Valid(spec.worker)
    ensures old(c.log) <= c.log && OwnWrites(spec.worker, c.log, |old(c.log)|)
    ensures !old(HasLive(c.store, spec.worker)) ==> OwnSteps(spec.worker, c.log, |old(c.log)|)
    ensures cfg.persistent && c.PvcKept(spec.worker) ==> SeedsCarried(cfg, spec.worker, c.log, |old(c.log)|)
    ensures ok ==> HasLive(c.store, spec.worker) && SawLive(spec.worker, c.log, |old(c.log)|)
    ensures c.Quiet() ==> OthersSame(spec.worker, old(c.store), c.store) && c.store.pvcs == old(c.store).pvcs
    ensures (c.Quiet() && FreshNames(c, spec.worker, old(c.store))
      && (cfg.persistent ==> PvcName(spec.worker) in old(c.store).pvcs)) ==> ok
    ensures c.Quiet() && ok ==> AddsPod(c, cfg, spec, old(c.store), c.store)
    ensures c.Quiet() && !ok ==> c.store == old(c.store)
    ensures ok ==> |c.log| > |old(c.log)|
  {
    hide Rely, KeepsPvc, c.World, c.Linked, c.Quiet, c.PvcKept, HasLive, OwnStep, OwnWrite, OwnSteps, OwnWrites,
      SeedsCarried, SawLive, OthersSame, FreshNames, AddsPod, c.Found;
    ghost var suffix := c.calls;
    var w := spec.worker;
    var pod := BuildPod(cfg, spec, c.suffix(c.calls), c.Now());
    SuffixLength(c, w, c.calls);
    BuiltNames(cfg, spec, c.suffix(c.calls), c.Now());
    ghost var log0 := c.log;
    NothingLogged(cfg, w, c.log);
    ghost var readAt := c.store;
    if cfg.persistent {
      var reply := c.GetPvc(w);
      FoundStaysDead(c, w, old(c.store), c.store);
      ReadLogged(cfg, w, log0, |log0|, c.store);
      QuietIsSame(c, w, old(c.store), c.store);
      if !reply.FoundPvc? {
        SameOthers(w, c.store);
        return false;
      }
      if reply.pvc.ann.seed != "" {
        pod := pod.(ann := pod.ann.(seed := reply.pvc.ann.seed));
      }
      readAt := c.store;
    }
    ghost var log1 := c.log;
    var reply, mid := c.CreatePod(w, pod);
    FoundStaysDead(c, w, readAt, mid);
    CreatedStep(w, pod, mid, c.store);
    CreatedSeed(c, cfg, w, pod, readAt, mid, c.store);
    WroteLogged(cfg, w, log1, |log0|, mid, c.store);
    QuietIsSame(c, w, readAt, mid);
    OwnWriteOthersSame(w, mid, c.store);
    ok := reply.Written?;
    if ok {
      CreatedAdds(c, cfg, spec, suffix, pod, mid, c.store);
      CreatedLive(w, pod.name, c.store);
      LiveLogged(w, log1, [Outside(mid), Own(mid, c.store)], |log0|);
      assert [Outside(mid), Own(mid, c.store)][1].state == c.store;
    }
    FreshName(c, w, old(c.calls), old(c.store));
  }

  lemma NothingLogged(cfg: Config, w: string, log: seq<Moment>)
    ensures OwnSteps(w, log, |log|) && OwnWrites(w, log, |log|) && SeedsCarried(cfg, w, log, |log|)
  {
  }

  lemma SuffixLength(c: Cluster, w: string, k: nat)
    requires c.World(w)
    ensures |c.suffix(k)| == 5
  {
  }

  lemma FreshName(c: Cluster, w: string, k: nat, s: Store)
    ensures FreshNames(c, w, s) ==> w + "-" + c.suffix(k) !in s.pods
  {
  }

  lemma QuietIsSame(c: Cluster, w: string, s: Store, t: Store)
    requires c.Found(w, s, t)
    ensures c.Quiet() ==> t == s
  {
  }

  lemma SameOthers(w: string, s: Store)
    ensures OthersSame(w, s, s)
  {
  }

  lemma CreatedStep(w: string, pod: Pod, mid: Store, s: Store)
    requires PodNameOf(w, pod.name) && IsPodOf(w, pod) && !pod.ann.started
    requires s == mid || (pod.name !in mid.pods
        && exists at :: s == mid.(pods := mid.pods[pod.name := pod.(uid := mid.nextUid, created := at)],
          nextUid := mid.nextUid + 1))
    ensures OwnWrite(w, mid, s) && (!HasLive(mid, w) ==> OwnStep(w, mid, s))
  {
  }

  lemma CreatedSeed(c: Cluster, cfg: Config, w: string, pod: Pod, readAt: Store, mid: Store, s: Store)
    requires StoreOk(readAt) && c.Found(w, readAt, mid)
    requires cfg.persistent ==>
      PvcName(w) in readAt.pvcs
        && (readAt.pvcs[PvcName(w)].ann.seed != "" ==> pod.ann.seed == readAt.pvcs[PvcName(w)].ann.seed)
        && (readAt.pvcs[PvcName(w)].ann.seed == "" ==> pod.ann.seed == cfg.podAnnotations.seed)
    requires s == mid || (pod.name !in mid.pods
        && exists at :: s == mid.(pods := mid.pods[pod.name := pod.(uid := mid.nextUid, created := at)],
          nextUid := mid.nextUid + 1))
    ensures cfg.persistent && c.PvcKept(w) ==> SeedCarried(cfg, w, Own(mid, s))
  {
  }

  lemma CreatedAdds(c: Cluster, cfg: Config, spec: Spec, k: nat, pod: Pod, s: Store, t: Store)
    requires var b := BuildPod(cfg, spec, c.suffix(k), c.clock(k)); pod == b.(ann := b.ann.(seed := pod.ann.seed))
    requires t == s || (pod.name !in s.pods
        && exists at :: t == s.(pods := s.pods[pod.name := pod.(uid := s.nextUid, created := at)],
          nextUid := s.nextUid + 1))
    requires t != s
    ensures HasSeed(cfg, s, spec.worker, pod) ==> AddsPod(c, cfg, spec, s, t)
  {
    hide IsBuilt;
    BuiltIs(c, cfg, spec, k, t.pods[pod.name]);
  }

  lemma CreatedLive(w: string, n: string, s: Store)
    requires LivePod(s, w, n)
    ensures HasLive(s, w)
  {
  }

  // ---- Wake -----------------------------------------------------------------------------

  /** The worker's claim is not there to be used: absent or terminating. */
  predicate PvcGone(s: Store, w: string) {
    PvcName(w) !in s.pvcs || s.pvcs[PvcName(w)].deletedAt.Some?
  }

  /** The worker's claim is retained: there, not terminating, and labelled for it. */
  predicate PvcRetained(s: Store, w: string) { !PvcGone(s, w) && s.pvcs[PvcName(w)].labels.Owner() == w }

  /** A named worker's claim is the one under its name that is labelled for it and not
      terminating: one without a worker label is nobody's. */
  lemma RetainedExactly(s: Store, w: string)
    requires w != ""
    ensures PvcRetained(s, w) <==>
      var n := w + "-ws"; n in s.pvcs && s.pvcs[n].deletedAt.None? && s.pvcs[n].labels.worker == Some(w)
  {
  }

  /** The claim is the same object as before: same uid, labels and seed. */
  predicate SamePvc(w: string, s: Store, t: Store) {
    && PvcName(w) in s.pvcs && PvcName(w) in t.pvcs
    && t.pvcs[PvcName(w)].uid == s.pvcs[PvcName(w)].uid && t.pvcs[PvcName(w)].labels == s.pvcs[PvcName(w)].labels
    && t.pvcs[PvcName(w)].ann.seed == s.pvcs[PvcName(w)].ann.seed
      && t.pvcs[PvcName(w)].deletedAt == s.pvcs[PvcName(w)].deletedAt
  }

  /** The claim is the same but for the stamps of this spawn. */
  ghost predicate Restamps(c: Cluster, spec: Spec, s: Store, t: Store) {
    && PvcName(spec.worker) in s.pvcs && PvcName(spec.worker) in t.pvcs
    && var p, q := s.pvcs[PvcName(spec.worker)], t.pvcs[PvcName(spec.worker)];
       && q == p.(ann := q.ann) && StampedFor(c, spec, p.ann, q.ann)
       && q.ann.seed == p.ann.seed && q.ann.started == p.ann.started
  }

  lemma Annotated(w: string, change: Annotations -> Annotations, mid: Store, s: Store)
    requires forall a :: change(a).seed == a.seed
    requires s == mid || (PvcName(w) in mid.pvcs
        && s == mid.(pvcs := mid.pvcs[PvcName(w) := mid.pvcs[PvcName(w)].(ann := change(mid.pvcs[PvcName(w)].ann))]))
    ensures s.pods == mid.pods && (HasLive(mid, w) <==> HasLive(s, w))
    ensures PvcName(w) in mid.pvcs ==> SamePvc(w, mid, s)
  {
    forall n ensures LivePod(s, w, n) <==> LivePod(mid, w, n) {}
  }

  lemma OthersChain(w: string, s: Store, t: Store, u: Store)
    requires OthersSame(w, s, t) && OthersSame(w, t, u)
    ensures OthersSame(w, s, u)
  {
  }

  lemma NoNewPods(cfg: Config, w: string, mid: Store, s: Store)
    requires forall n :: n in s.pods ==> n in mid.pods
    ensures SeedCarried(cfg, w, Own(mid, s))
  {
  }

  /** One call that adds no pod, seen by all the bookkeeping at once. */
  lemma Accounted(c: Cluster, cfg: Config, w: string, log: seq<Moment>, from: nat, before: Store, mid: Store, s: Store)
    requires from <= |log| && OwnSteps(w, log, from)
    requires c.Found(w, before, mid) && OwnStep(w, mid, s) && forall n :: n in s.pods ==> n in mid.pods
    ensures OwnSteps(w, log + [Outside(mid), Own(mid, s)], from)
    ensures SeedsCarried(cfg, w, log, from) ==> SeedsCarried(cfg, w, log + [Outside(mid), Own(mid, s)], from)
    ensures c.Quiet() ==> mid == before && OthersSame(w, before, s)
  {
    NoNewPods(cfg, w, mid, s);
    WroteLogged(cfg, w, log, from, mid, s);
    OwnStepOthersSame(w, mid, s);
  }

  /** Wake's checks on the claim, and its stamp. */
  method CheckWorkspace(c: Cluster, cfg: Config, spec: Spec) returns (err: Error)
    requires c.Valid(spec.worker)
    modifies c
    ensures c.Valid(spec.worker)
    ensures old(c.log) <= c.log && OwnSteps(spec.worker, c.log, |old(c.log)|)
    ensures SeedsCarried(cfg, spec.worker, c.log, |old(c.log)|)
    ensures !old(HasLive(c.store, spec.worker)) ==> !HasLive(c.store, spec.worker)
    ensures err == WorkspaceMissing ==> PvcGone(c.store, spec.worker)
    ensures c.PvcKept(spec.worker) && PvcGone(old(c.store), spec.worker) ==>
      err == WorkspaceMissing || err == OtherError
    ensures err != UnknownWorker
    ensures c.Quiet() ==> OthersSame(spec.worker, old(c.store), c.store) && c.store.pods == old(c.store).pods
    ensures c.Quiet() && PvcGone(old(c.store), spec.worker) ==> err == WorkspaceMissing && c.store == old(c.store)
    ensures c.Quiet() && PvcRetained(old(c.store), spec.worker) ==>
      err == Nil && Restamps(c, spec, old(c.store), c.store)
    ensures c.Quiet() && !PvcGone(old(c.store), spec.worker) && !PvcRetained(old(c.store), spec.worker) ==>
      err == OtherError
  {
    hide Rely, KeepsPvc, c.World, c.Linked, c.Quiet, c.PvcKept, HasLive, OwnStep, OwnSteps, SeedsCarried, SawLive,
      OthersSame, c.Found;
    var w := spec.worker;
    ghost var log0, store0 := c.log, c.store;
    NothingLogged(cfg, w, log0);
    SameOthers(w, store0);
    var reply := c.GetPvc(w);
    ghost var store1, log1 := c.store, c.log;
    FoundStaysDead(c, w, store0, store1);
    GoneStaysGone(c, w, store0, store1);
    ReadLogged(cfg, w, log0, |log0|, store1);
    QuietIsSame(c, w, store0, store1);
    if reply.NoSuchPvc? {
      return WorkspaceMissing;
    }
    if reply.PvcError? {
      return OtherError;
    }
    if reply.pvc.deletedAt.Some? {
      return WorkspaceMissing;
    }
    if reply.pvc.labels.Owner() != w {
      return OtherError;
    }
    var change := Restamped(spec, c.Now());
    var patched, mid := c.PatchPvc(w, change);
    FoundStaysDead(c, w, store1, mid);
    Annotated(w, change, mid, c.store);
    Accounted(c, cfg, w, log1, |log0|, store1, mid, c.store);
    err := if patched.Written? then Nil else OtherError;
  }

  lemma FoundStaysDead(c: Cluster, w: string, s: Store, t: Store)
    requires c.Found(w, s, t)
    ensures !HasLive(s, w) ==> !HasLive(t, w)
  {
    if !HasLive(s, w) { StaysDead(w, s, t); }
  }

  /** While nobody else creates the claim, a missing or terminating one does not come back. */
  lemma GoneStaysGone(c: Cluster, w: string, s: Store, t: Store)
    requires StoreOk(s) && c.Found(w, s, t)
    ensures c.PvcKept(w) && PvcGone(s, w) ==> PvcGone(t, w)
  {
  }

  lemma NeverRevived(c: Cluster, w: string, s: Store, t: Store)
    requires c.Found(w, s, t)
    ensures forall n :: LivePod(t, w, n) ==> LivePod(s, w, n)
  {
  }

  predicate AllNamed(w: string, pods: seq<Pod>) {
    forall i :: 0 <= i < |pods| ==> PodNameOf(w, pods[i].name)
  }

  /** None of the writes from `from` on is about a claim. */
  ghost predicate PvcsUntouched(log: seq<Moment>, from: nat) {
    forall i | from <= i < |log| :: log[i].Own? ==> log[i].before.pvcs == log[i].state.pvcs
  }

  lemma UntouchedNone(log: seq<Moment>)
    ensures PvcsUntouched(log, |log|)
  {
  }

  lemma UntouchedMore(log: seq<Moment>, from: nat, mid: Store, s: Store)
    requires from <= |log| && PvcsUntouched(log, from) && mid.pvcs == s.pvcs
    ensures PvcsUntouched(log + [Outside(mid), Own(mid, s)], from)
  {
  }

  /** At some point of the call the pod's delete had taken effect: it was gone or terminating. */
  ghost predicate Deleted(n: string, log: seq<Moment>, from: nat) {
    exists j | from <= j < |log| ::
      log[j].Own? && (n in log[j].state.pods ==> log[j].state.pods[n].deletedAt.Some?)
  }

  ghost predicate AllDeleted(pods: seq<Pod>, upTo: nat, log: seq<Moment>, from: nat) {
    forall i :: 0 <= i < upTo && i < |pods| ==> Deleted(pods[i].name, log, from)
  }

  lemma DeletedMore(pods: seq<Pod>, i: nat, log: seq<Moment>, from: nat, mid: Store, s: Store)
    requires i < |pods| && from <= |log| && AllDeleted(pods, i, log, from)
    requires pods[i].name in s.pods ==> s.pods[pods[i].name].deletedAt.Some?
    ensures AllDeleted(pods, i + 1, log + [Outside(mid), Own(mid, s)], from)
  {
    var all := log + [Outside(mid), Own(mid, s)];
    assert all[|log| + 1] == Own(mid, s);
    forall j | 0 <= j < i + 1 ensures Deleted(pods[j].name, all, from) {
      if j < i { DeletedStays(pods[j].name, log, all, from); }
    }
  }

  lemma DeletedStays(n: string, log: seq<Moment>, longer: seq<Moment>, from: nat)
    requires log <= longer && Deleted(n, log, from)
    ensures Deleted(n, longer, from)
  {
    var j :| from <= j < |log| && log[j].Own? && (n in log[j].state.pods ==> log[j].state.pods[n].deletedAt.Some?);
    assert longer[j] == log[j];
  }

  lemma NoneDeleted(pods: seq<Pod>, log: seq<Moment>)
    ensures AllDeleted(pods, 0, log, |log|) && AllTried(pods, 0, log, |log|)
  {
  }

  /** The moments from `from` on are the delete calls for the first `upTo` pods, one after the
      other: each was refused, or its pod was gone or terminating after it. */
  ghost predicate AllTried(pods: seq<Pod>, upTo: nat, log: seq<Moment>, from: nat) {
    |log| == from + 2 * upTo && forall i :: 0 <= i < upTo && i < |pods| ==> Tried(pods[i].name, log[from + 2 * i + 1])
  }

  ghost predicate Tried(n: string, m: Moment) {
    m.Own? && (m.state == m.before || (n in m.state.pods ==> m.state.pods[n].deletedAt.Some?))
  }

  lemma TriedMore(pods: seq<Pod>, i: nat, log: seq<Moment>, from: nat, mid: Store, s: Store)
    requires i < |pods| && AllTried(pods, i, log, from)
    requires s == mid || (pods[i].name in s.pods ==> s.pods[pods[i].name].deletedAt.Some?)
    ensures AllTried(pods, i + 1, log + [Outside(mid), Own(mid, s)], from)
  {
    var all := log + [Outside(mid), Own(mid, s)];
    assert all[from + 2 * i + 1] == Own(mid, s);
    forall j | 0 <= j < i ensures all[from + 2 * j + 1] == log[from + 2 * j + 1] {}
  }

  /** Deletes the listed pods; Wake ignores failures, Dispose stops at the first. */
  method DeleteListed(c: Cluster, cfg: Config, w: string, pods: seq<Pod>, stopOnError: bool) returns (ok: bool)
    requires c.Valid(w) && AllNamed(w, pods)
    modifies c
    ensures c.Valid(w)
    ensures old(c.log) <= c.log && OwnSteps(w, c.log, |old(c.log)|) && SeedsCarried(cfg, w, c.log, |old(c.log)|)
    ensures PvcsUntouched(c.log, |old(c.log)|)
    ensures forall n :: LivePod(c.store, w, n) ==> LivePod(old(c.store), w, n)
    ensures stopOnError && ok ==> forall i :: 0 <= i < |pods| ==> !LivePod(c.store, w, pods[i].name)
    ensures stopOnError && ok ==> AllDeleted(pods, |pods|, c.log, |old(c.log)|)
    ensures !stopOnError ==> ok && AllTried(pods, |pods|, c.log, |old(c.log)|)
    ensures c.Quiet() ==> ok && OthersSame(w, old(c.store), c.store) && Clears(pods, |pods|, old(c.store), c.store)
  {
    hide Rely, KeepsPvc, c.World, c.Linked, c.Quiet, c.PvcKept, OwnStep, OwnSteps, SeedsCarried, OthersSame, c.Found,
      PvcsUntouched, Clears, AllDeleted, AllTried;
    ghost var log0, store0 := c.log, c.store;
    NothingLogged(cfg, w, log0);
    SameOthers(w, store0);
    UntouchedNone(log0);
    NoneDeleted(pods, log0);
    NothingCleared(pods, store0);
    ok := true;
    for i := 0 to |pods|
      invariant c.Valid(w) && ok && log0 <= c.log && OwnSteps(w, c.log, |log0|) && SeedsCarried(cfg, w, c.log, |log0|)
      invariant PvcsUntouched(c.log, |log0|)
      invariant forall n :: LivePod(c.store, w, n) ==> LivePod(store0, w, n)
      invariant stopOnError ==> forall j :: 0 <= j < i ==> !LivePod(c.store, w, pods[j].name)
      invariant stopOnError ==> AllDeleted(pods, i, c.log, |log0|)
      invariant !stopOnError ==> AllTried(pods, i, c.log, |log0|)
      invariant c.Quiet() ==> OthersSame(w, store0, c.store) && Clears(pods, i, store0, c.store)
    {
      ghost var log1, store1 := c.log, c.store;
      var reply, mid := c.DeletePod(w, pods[i].name);
      Accounted(c, cfg, w, log1, |log0|, store1, mid, c.store);
      NeverRevived(c, w, store1, mid);
      UntouchedMore(log1, |log0|, mid, c.store);
      if !stopOnError { TriedMore(pods, i, log1, |log0|, mid, c.store); }
      if c.Quiet() {
        OthersChain(w, store0, store1, c.store);
        ClearsOne(pods, i, store0, mid, c.store);
      }
      if stopOnError && !reply.Written? && !reply.Missing? {
        return false;
      }
      if stopOnError { DeletedMore(pods, i, log1, |log0|, mid, c.store); }
    }
  }

  /** The first `upTo` listed pods are gone or terminating, and nothing else changed. */
  ghost predicate Clears(pods: seq<Pod>, upTo: nat, s: Store, t: Store) {
    && t.pvcs == s.pvcs && t.nextUid == s.nextUid
    && (forall n :: n in t.pods ==> n in s.pods && t.pods[n] == s.pods[n].(deletedAt := t.pods[n].deletedAt))
    && (forall n :: n in s.pods && (forall j :: 0 <= j < upTo && j < |pods| ==> pods[j].name != n) ==>
      n in t.pods && t.pods[n] == s.pods[n])
    && (forall j :: 0 <= j < upTo && j < |pods| && pods[j].name in t.pods ==> t.pods[pods[j].name].deletedAt.Some?)
  }

  lemma NothingCleared(pods: seq<Pod>, s: Store)
    ensures Clears(pods, 0, s, s)
  {
  }

  lemma ClearsKeepsPvcs(pods: seq<Pod>, s: Store, t: Store)
    requires Clears(pods, |pods|, s, t)
    ensures t.pvcs == s.pvcs
  {
  }

  lemma ClearsOne(pods: seq<Pod>, i: nat, s: Store, t: Store, u: Store)
    requires i < |pods| && Clears(pods, i, s, t)
    requires u.pvcs == t.pvcs && u.nextUid == t.nextUid
    requires forall m ::
        m != pods[i].name ==> (m in u.pods <==> m in t.pods) && (m in t.pods ==> u.pods[m] == t.pods[m])
    requires pods[i].name in u.pods ==> pods[i].name in t.pods
    requires pods[i].name in u.pods ==>
      u.pods[pods[i].name] == t.pods[pods[i].name].(deletedAt := u.pods[pods[i].name].deletedAt)
        && u.pods[pods[i].name].deletedAt.Some?
    ensures Clears(pods, i + 1, s, u)
  {
    forall n | n in u.pods ensures n in s.pods && u.pods[n] == s.pods[n].(deletedAt := u.pods[n].deletedAt) {
      assert n in t.pods;
    }
    forall n | n in s.pods && (forall j :: 0 <= j < i + 1 && j < |pods| ==> pods[j].name != n)
      ensures n in u.pods && u.pods[n] == s.pods[n]
    {
      assert n in t.pods && n != pods[i].name;
    }
    forall j | 0 <= j < i + 1 && pods[j].name in u.pods ensures u.pods[pods[j].name].deletedAt.Some? {
      if pods[j].name != pods[i].name { assert j < i && pods[j].name in t.pods; }
    }
  }

  // ---- joining the parts of an operation -------------------------------------------------

  lemma Joined(cfg: Config, w: string, part: seq<Moment>, whole: seq<Moment>, from: nat)
    requires from <= |part| && part <= whole
    requires OwnSteps(w, part, from) && OwnSteps(w, whole, |part|)
    ensures OwnSteps(w, whole, from)
    ensures SeedsCarried(cfg, w, part, from) && SeedsCarried(cfg, w, whole, |part|) ==>
      SeedsCarried(cfg, w, whole, from)
    ensures SawLive(w, part, from) || SawLive(w, whole, |part|) ==> SawLive(w, whole, from)
  {
  }

  predicate SomeLive(pods: seq<Pod>) { exists i :: 0 <= i < |pods| && IsLive(pods[i]) }

  lemma ListingTellsLive(w: string, pods: seq<Pod>, s: Store)
    requires Enumerates(pods, s, w)
    ensures SomeLive(pods) <==> HasLive(s, w)
  {
    if n :| LivePod(s, w, n) {
      assert s.pods[n] in pods;
    }
    if i :| 0 <= i < |pods| && IsLive(pods[i]) {
      assert pods[i] in pods;
      assert LivePod(s, w, pods[i].name);
    }
  }

  ghost predicate NoPods(s: Store, w: string) { forall n :: n in s.pods ==> !IsPodOf(w, s.pods[n]) }

  lemma ListingTellsAny(w: string, pods: seq<Pod>, s: Store)
    requires Enumerates(pods, s, w)
    ensures |pods| == 0 <==> NoPods(s, w)
  {
    if |pods| > 0 { assert pods[0] in pods; }
  }

  lemma SameLivePods(w: string, s: Store, t: Store)
    requires forall n :: LivePod(s, w, n) <==> LivePod(t, w, n)
    ensures HasLive(s, w) <==> HasLive(t, w)
  {
  }

  lemma SamePodsSameLive(w: string, s: Store, t: Store)
    requires s.pods == t.pods
    ensures HasLive(s, w) <==> HasLive(t, w)
  {
    SameLivePods(w, s, t);
  }

  /** A live pod serves on: told the request, and when, if it does not carry it; else untouched. */
  ghost predicate Reused(c: Cluster, spec: Spec, s: Store, t: Store) {
    t.pvcs == s.pvcs && exists n, k :: KeptOn(spec, n, c.clock(k), s, t)
  }

  ghost predicate KeptOn(spec: Spec, n: string, at: Time, s: Store, t: Store) {
    && LivePod(s, spec.worker, n)
    && (spec.requestId == "" || s.pods[n].ann.requestId == spec.requestId ==> t.pods == s.pods)
    && (spec.requestId != "" && s.pods[n].ann.requestId != spec.requestId ==> Stamps(n, spec.requestId, at, s, t))
  }

  lemma ReusedBy(c: Cluster, spec: Spec, pods: seq<Pod>, i: nat, k: nat, s: Store, t: Store)
    requires i < |pods| && IsLive(pods[i]) && Enumerates(pods, s, spec.worker)
    requires if spec.requestId == "" || pods[i].ann.requestId == spec.requestId then t == s
             else Stamps(pods[i].name, spec.requestId, c.clock(k), s, t)
    ensures Reused(c, spec, s, t)
  {
    assert pods[i] in pods && KeptOn(spec, pods[i].name, c.clock(k), s, t);
  }

  /** A live pod among those listed is kept, and told the request it now serves. */
  method ReuseLive(c: Cluster, cfg: Config, spec: Spec, pods: seq<Pod>) returns (found: bool)
    requires c.Valid(spec.worker) && AllNamed(spec.worker, pods)
    modifies c
    ensures c.Valid(spec.worker) && found == SomeLive(pods)
    ensures !found ==> c.store == old(c.store) && c.log == old(c.log)
    ensures old(c.log) <= c.log && OwnSteps(spec.worker, c.log, |old(c.log)|)
    ensures SeedsCarried(cfg, spec.worker, c.log, |old(c.log)|)
    ensures c.Quiet() ==> OthersSame(spec.worker, old(c.store), c.store) && c.store.pvcs == old(c.store).pvcs
    ensures c.Quiet() ==> (HasLive(old(c.store), spec.worker) <==> HasLive(c.store, spec.worker))
    ensures c.Quiet() && found && Enumerates(pods, old(c.store), spec.worker) ==> Reused(c, spec, old(c.store), c.store)
  {
    hide Rely, KeepsPvc, c.World, c.Linked, c.Quiet, c.PvcKept, HasLive, OwnStep, OwnSteps, SeedsCarried, SawLive,
      OthersSame, c.Found, Reused, Enumerates, Stamps;
    var w := spec.worker;
    ghost var log0, store0 := c.log, c.store;
    NothingLogged(cfg, w, log0);
    SameOthers(w, store0);
    for i := 0 to |pods|
      invariant c.store == store0 && c.log == log0 && c.Valid(w)
      invariant forall j :: 0 <= j < i ==> !IsLive(pods[j])
    {
      if IsLive(pods[i]) {
        if spec.requestId != "" && pods[i].ann.requestId != spec.requestId {
          ghost var now := c.calls;
          var at := c.Now();
          var reply, mid := c.PatchPod(w, pods[i].name, spec.requestId, at);
          Accounted(c, cfg, w, log0, |log0|, store0, mid, c.store);
          SameLivePods(w, mid, c.store);
          if c.Quiet() && Enumerates(pods, store0, w) {
            ListedIsThere(pods, i, store0, w);
            ReusedBy(c, spec, pods, i, now, store0, c.store);
          }
        } else if Enumerates(pods, store0, w) {
          ReusedBy(c, spec, pods, i, 0, store0, c.store);
        }
        return true;
      }
    }
    found := false;
  }

  lemma ListedIsThere(pods: seq<Pod>, i: nat, s: Store, w: string)
    requires Enumerates(pods, s, w) && i < |pods|
    ensures pods[i].name in s.pods
  {
    assert pods[i] in pods;
  }

  /** One new pod, built for this spawn; what pods the worker had are gone or terminating. */
  ghost predicate Renewed(c: Cluster, cfg: Config, spec: Spec, s: Store, t: Store) {
    t.pvcs == s.pvcs && exists n ::
      && n !in s.pods && n in t.pods && IsBuilt(c, cfg, spec, t.pods[n]) && HasSeed(cfg, s, spec.worker, t.pods[n])
      && forall m :: m in s.pods && IsPodOf(spec.worker, s.pods[m]) && m in t.pods ==> t.pods[m].deletedAt.Some?
  }

  lemma RenewedBy(c: Cluster, cfg: Config, spec: Spec, pods: seq<Pod>, s: Store, mid: Store, t: Store)
    requires AddsPod(c, cfg, spec, s, mid) && Clears(pods, |pods|, mid, t) && Enumerates(pods, s, spec.worker)
    requires StoreOk(s)
    ensures Renewed(c, cfg, spec, s, t) && HasLive(t, spec.worker)
  {
    hide IsBuilt;
    var n :| n !in s.pods && n in mid.pods && mid == s.(pods := s.pods[n := mid.pods[n]], nextUid := s.nextUid + 1)
      && IsBuilt(c, cfg, spec, mid.pods[n]) && HasSeed(cfg, s, spec.worker, mid.pods[n]);
    forall j | 0 <= j < |pods| ensures pods[j].name != n { assert pods[j] in pods; }
    assert n in t.pods && t.pods[n] == mid.pods[n];
    forall m | m in s.pods && IsPodOf(spec.worker, s.pods[m]) && m in t.pods ensures t.pods[m].deletedAt.Some? {
      assert s.pods[m] in pods;
      var j :| 0 <= j < |pods| && pods[j] == s.pods[m];
      assert pods[j].name == m;
    }
    BuiltLives(c, cfg, spec, t.pods[n]);
    CreatedLive(spec.worker, n, t);
  }

  lemma BuiltLives(c: Cluster, cfg: Config, spec: Spec, p: Pod)
    requires IsBuilt(c, cfg, spec, p)
    ensures IsPodOf(spec.worker, p) && IsLive(p)
  {
  }

  /** With no live pod: create one, then clear the terminal ones away. */
  method Replace(c: Cluster, cfg: Config, spec: Spec, pods: seq<Pod>) returns (ok: bool)
    requires c.Valid(spec.worker) && AllNamed(spec.worker, pods) && !HasLive(c.store, spec.worker)
    modifies c
    ensures c.Valid(spec.worker)
    ensures old(c.log) <= c.log && OwnSteps(spec.worker, c.log, |old(c.log)|)
    ensures cfg.persistent && c.PvcKept(spec.worker) ==> SeedsCarried(cfg, spec.worker, c.log, |old(c.log)|)
    ensures ok ==> SawLive(spec.worker, c.log, |old(c.log)|)
    // Whatever becomes of a delete, the next is tried.
    ensures ok ==> exists from: nat :: |old(c.log)| < from && AllTried(pods, |pods|, c.log, from)
    ensures c.Quiet() ==> OthersSame(spec.worker, old(c.store), c.store) && c.store.pvcs == old(c.store).pvcs
    ensures (c.Quiet() && FreshNames(c, spec.worker, old(c.store))
      && (cfg.persistent ==> PvcName(spec.worker) in old(c.store).pvcs)) ==> ok
    ensures c.Quiet() && ok && Enumerates(pods, old(c.store), spec.worker) ==>
      Renewed(c, cfg, spec, old(c.store), c.store) && HasLive(c.store, spec.worker)
  {
    hide Rely, KeepsPvc, c.World, c.Linked, c.Quiet, c.PvcKept, HasLive, OwnStep, OwnSteps, SeedsCarried, SawLive,
      OthersSame, FreshNames, c.Found, AddsPod, Clears, Renewed, Enumerates, AllTried;
    var w := spec.worker;
    ghost var log0, store0 := c.log, c.store;
    ok := CreatePod(c, cfg, spec);
    if !ok {
      return;
    }
    ghost var log1, store1 := c.log, c.store;
    var done := DeleteListed(c, cfg, w, pods, false);
    assert AllTried(pods, |pods|, c.log, |log1|);
    Joined(cfg, w, log1, c.log, |log0|);
    if c.Quiet() {
      OthersChain(w, store0, store1, c.store);
      ClearsKeepsPvcs(pods, store1, c.store);
      if Enumerates(pods, store0, w) {
        RenewedBy(c, cfg, spec, pods, store0, store1, c.store);
      }
    }
  }

  lemma FreshKept(c: Cluster, w: string, s: Store, t: Store)
    requires s.pods == t.pods
    ensures FreshNames(c, w, s) ==> FreshNames(c, w, t)
  {
  }

  /** The second half of Wake: keep a live pod or make a new one. */
  method Revive(c: Cluster, cfg: Config, spec: Spec, pods: seq<Pod>) returns (ok: bool)
    requires c.Valid(spec.worker) && AllNamed(spec.worker, pods) && (SomeLive(pods) || !HasLive(c.store, spec.worker))
    modifies c
    ensures c.Valid(spec.worker)
    ensures old(c.log) <= c.log && OwnSteps(spec.worker, c.log, |old(c.log)|)
    ensures cfg.persistent && c.PvcKept(spec.worker) ==> SeedsCarried(cfg, spec.worker, c.log, |old(c.log)|)
    ensures SomeLive(pods) ==> ok
    ensures ok ==> SomeLive(pods) || SawLive(spec.worker, c.log, |old(c.log)|)
    ensures c.Quiet() ==> OthersSame(spec.worker, old(c.store), c.store) && c.store.pvcs == old(c.store).pvcs
    ensures (c.Quiet() && FreshNames(c, spec.worker, old(c.store))
      && (cfg.persistent ==> PvcName(spec.worker) in old(c.store).pvcs)) ==> ok
    ensures c.Quiet() && ok && Enumerates(pods, old(c.store), spec.worker) ==> HasLive(c.store, spec.worker)
    ensures c.Quiet() && ok && Enumerates(pods, old(c.store), spec.worker) ==>
      Revived(c, cfg, spec, old(c.store), c.store)
  {
    hide Rely, KeepsPvc, c.World, c.Linked, c.Quiet, c.PvcKept, HasLive, OwnStep, OwnSteps, SeedsCarried, SawLive,
      OthersSame, FreshNames, c.Found, Enumerates, Reused, Renewed;
    if Enumerates(pods, c.store, spec.worker) { ListingTellsLive(spec.worker, pods, c.store); }
    ok := ReuseLive(c, cfg, spec, pods);
    if !ok {
      ok := Replace(c, cfg, spec, pods);
    }
  }

  lemma EnumeratesKept(pods: seq<Pod>, s: Store, t: Store, w: string)
    requires Enumerates(pods, s, w) && s.pods == t.pods
    ensures Enumerates(pods, t, w)
  {
  }

  lemma NamesListed(w: string, pods: seq<Pod>, s: Store)
    requires Enumerates(pods, s, w) && PodsNamed(s, w)
    ensures AllNamed(w, pods)
  {
    forall i | 0 <= i < |pods| ensures PodNameOf(w, pods[i].name) { assert pods[i] in pods; }
  }

  /** What the first half of Wake leaves: with claims, the worker's claim stamped. */
  ghost predicate Checked(c: Cluster, cfg: Config, spec: Spec, s: Store, t: Store) {
    s.pods == t.pods && if cfg.persistent then Restamps(c, spec, s, t) else t == s
  }

  /** What the second half leaves: a live pod kept, or exactly one made. */
  ghost predicate Revived(c: Cluster, cfg: Config, spec: Spec, s: Store, t: Store) {
    if HasLive(s, spec.worker) then Reused(c, spec, s, t) else Renewed(c, cfg, spec, s, t)
  }

  lemma RestampsCarry(c: Cluster, spec: Spec, s: Store, t: Store, u: Store)
    requires t.pvcs == u.pvcs
    ensures Restamps(c, spec, s, t) ==> Restamps(c, spec, s, u)
  {
  }

  /** The first half of Wake: the listing, and the checks on the workspace. */
  method Inspect(c: Cluster, cfg: Config, spec: Spec) returns (err: Error, pods: seq<Pod>)
    requires c.Valid(spec.worker)
    modifies c
    ensures c.Valid(spec.worker)
    ensures old(c.log) <= c.log && OwnSteps(spec.worker, c.log, |old(c.log)|)
    ensures SeedsCarried(cfg, spec.worker, c.log, |old(c.log)|)
    ensures err == Nil ==>
      && AllNamed(spec.worker, pods)
      && if SomeLive(pods) then SawLive(spec.worker, c.log, |old(c.log)|) else !HasLive(c.store, spec.worker)
    ensures err == WorkspaceMissing ==> cfg.persistent && PvcGone(c.store, spec.worker)
    ensures cfg.persistent && c.PvcKept(spec.worker) && PvcGone(old(c.store), spec.worker) ==>
      err == WorkspaceMissing || err == OtherError
    ensures err == UnknownWorker ==> !cfg.persistent && SawNone(spec.worker, c.log, |old(c.log)|)
    ensures c.fault(old(c.calls)) != Fine ==> err == OtherError
    ensures c.Quiet() ==> OthersSame(spec.worker, old(c.store), c.store) && c.store.pods == old(c.store).pods
    ensures c.Quiet() && err == Nil ==> Enumerates(pods, c.store, spec.worker)
    ensures c.Quiet() && !cfg.persistent ==>
      c.store == old(c.store) && err == if NoPods(c.store, spec.worker) then UnknownWorker else Nil
    ensures c.Quiet() && cfg.persistent && PvcGone(old(c.store), spec.worker) ==>
      err == WorkspaceMissing && c.store == old(c.store)
    ensures c.Quiet() && cfg.persistent ==> (err == Nil <==> PvcRetained(old(c.store), spec.worker))
    ensures c.Quiet() && cfg.persistent && err == Nil ==> Restamps(c, spec, old(c.store), c.store)
  {
    hide Rely, KeepsPvc, c.World, c.Linked, c.Quiet, c.PvcKept, HasLive, OwnStep, OwnSteps, SeedsCarried, SawLive,
      OthersSame, FreshNames, c.Found, Enumerates, Restamps, NoPods;
    var w := spec.worker;
    ghost var log0, store0 := c.log, c.store;
    NothingLogged(cfg, w, log0);
    SameOthers(w, store0);
    pods := [];
    var listed := c.ListPods(w);
    ghost var store1, log1 := c.store, c.log;
    ReadLogged(cfg, w, log0, |log0|, store1);
    QuietIsSame(c, w, store0, store1);
    GoneStaysGone(c, w, store0, store1);
    if listed.None? {
      return OtherError, pods;
    }
    pods := listed.value;
    NamesListed(w, pods, store1);
    ListingTellsLive(w, pods, store1);
    ListingTellsAny(w, pods, store1);
    LiveLogged(w, log0, [Outside(store1)], |log0|);
    assert [Outside(store1)][0].state == store1;
    err := Nil;
    if cfg.persistent {
      err := CheckWorkspace(c, cfg, spec);
      Joined(cfg, w, log1, c.log, |log0|);
      if c.Quiet() { EnumeratesKept(pods, store1, c.store, w); }
    } else if |pods| == 0 {
      NoneLogged(w, log0, store1);
      err := UnknownWorker;
    }
  }

  /** Some state the call passed through had no pod of `w`. */
  ghost predicate SawNone(w: string, log: seq<Moment>, from: nat) {
    exists i | from <= i < |log| :: NoPods(log[i].state, w)
  }

  lemma NoneLogged(w: string, log: seq<Moment>, s: Store)
    requires NoPods(s, w)
    ensures SawNone(w, log + [Outside(s)], |log|)
  {
    assert (log + [Outside(s)])[|log|].state == s;
  }

  lemma SomePodIsLive(w: string, s: Store)
    ensures HasLive(s, w) ==> !NoPods(s, w)
  {
  }

  /** Wake: a live pod is left alone; otherwise one new pod on the retained claim. */
  method Wake(c: Cluster, cfg: Config, given: Spec) returns (err: Error)
    requires c.Valid(given.worker)
    modifies c
    ensures c.Valid(given.worker)
    // Every write is a legal step for this worker, and the seed is carried over.
    ensures old(c.log) <= c.log && OwnSteps(given.worker, c.log, |old(c.log)|)
    ensures cfg.persistent && c.PvcKept(given.worker) ==> SeedsCarried(cfg, given.worker, c.log, |old(c.log)|)
    // After a nil return a pod of the worker was live at some point of the call.
    ensures err == Nil ==> SawLive(given.worker, c.log, |old(c.log)|)
    ensures err == WorkspaceMissing ==> cfg.persistent && PvcGone(c.store, given.worker)
    ensures cfg.persistent && c.PvcKept(given.worker) && PvcGone(old(c.store), given.worker) ==>
      err == WorkspaceMissing || err == OtherError
    ensures err == UnknownWorker ==> !cfg.persistent && SawNone(given.worker, c.log, |old(c.log)|)
    ensures c.fault(old(c.calls)) != Fine ==> err == OtherError
    // When nobody interferes and no call fails:
    ensures c.Quiet() && !cfg.persistent ==> (err == UnknownWorker <==> NoPods(old(c.store), given.worker))
    ensures c.Quiet() && err == UnknownWorker ==> c.store == old(c.store)
    ensures (c.Quiet() && !cfg.persistent && !NoPods(old(c.store), given.worker)
      && FreshNames(c, given.worker, old(c.store))) ==> err == Nil
    ensures c.Quiet() ==> OthersSame(given.worker, old(c.store), c.store)
    ensures c.Quiet() && err == Nil ==> HasLive(c.store, given.worker)
    ensures c.Quiet() && err == Nil ==>
      exists mid :: Checked(c, cfg, given.(kind := "wake"), old(c.store), mid)
        && Revived(c, cfg, given.(kind := "wake"), mid, c.store)
    ensures c.Quiet() && cfg.persistent && PvcGone(old(c.store), given.worker) ==>
      err == WorkspaceMissing && c.store == old(c.store)
    // A live worker is not enough for a nil return: with claims, the claim must be there too.
    ensures c.Quiet() && old(HasLive(c.store, given.worker)) ==>
      (err == Nil <==> (cfg.persistent ==> PvcRetained(old(c.store), given.worker)))
    ensures (c.Quiet() && cfg.persistent && PvcRetained(old(c.store), given.worker)
      && FreshNames(c, given.worker, old(c.store))) ==>
      err == Nil && Restamps(c, given.(kind := "wake"), old(c.store), c.store)
  {
    hide Rely, KeepsPvc, c.World, c.Linked, c.Quiet, c.PvcKept, HasLive, OwnStep, OwnSteps, SeedsCarried, SawLive,
      OthersSame, FreshNames, c.Found, Enumerates, Revived, Restamps;
    var spec := given.(kind := "wake");
    var w := spec.worker;
    ghost var log0, store0 := c.log, c.store;
    SomePodIsLive(w, store0);
    var pods;
    err, pods := Inspect(c, cfg, spec);
    if err != Nil {
      return;
    }
    ghost var store1, log1 := c.store, c.log;
    if c.Quiet() {
      FreshKept(c, w, store0, store1);
      SamePodsSameLive(w, store0, store1);
      ListingTellsLive(w, pods, store1);
    }
    var revived := Revive(c, cfg, spec, pods);
    Joined(cfg, w, log1, c.log, |log0|);
    if c.Quiet() {
      OthersChain(w, store0, store1, c.store);
      RestampsCarry(c, spec, store0, store1, c.store);
      assert Checked(c, cfg, spec, store0, store1);
    }
    err := if revived then Nil else OtherError;
  }

  // ---- a live worker is not enough -------------------------------------------------------------

  /** A worker with a live pod whose claim somebody removed: Wake reports its workspace missing. */
  method LiveButMissing() returns (c: Cluster, err: Error)
    ensures fresh(c) && err == WorkspaceMissing && HasLive(c.store, "w")
  {
    var none := Annotations("", 0, "", false, "", "");
    var pod := Pod("w-aaaaa", 0, Labels(true, Some("w"), ""), none, 1_000, None, PodRunning, true, [], []);
    var s := Store(map["w-aaaaa" := pod], map[], 1);
    c := new Cluster(s, (n, t) => t, n => Fine, n => false, n => 2_000, n => "bbbbb", n => None);
    assert LivePod(s, "w", "w-aaaaa") && PodNameOf("w", "w-aaaaa");
    forall t | StoreOk(t) ensures Rely("w", t, t) { RelyItself("w", t); }
    assert c.World("w") && c.Quiet() && c.Valid("w");
    hide c.World, c.Valid, Rely, HasLive;
    err := Wake(c, Config(true, false, none, none, []), Spec("w", "", "wake", "r1"));
  }
}
