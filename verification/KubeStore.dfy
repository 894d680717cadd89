/** The objects the Kubernetes backend works on, and the API server that stores
    them: pods and persistent volume claims with uids, labels, annotations, phase
    and deletion mark. Only what internal/backend/kube/kube.go reads is kept. */
module KubeStore {
  import opened Common
  import opened Snapshots

  /** Milliseconds; 0 is the zero time. Clock readings may be of any resolution, the whole
      seconds of stamps and creation times among them. */
  type Time = nat

  datatype Phase = PodPending | PodRunning | PodSucceeded | PodFailed

  /** The labels that are read: managed-by, worker-id (it may be absent), pool. */
  datatype Labels = Labels(managed: bool, worker: Option<string>, pool: string)
  {
    /** Reading a missing label gives "". */
    function Owner(): string { match worker case Some(w) => w case None => "" }

    /** `managedSelector`: managed by this controller, with some worker label. */
    predicate Managed() { managed && worker.Some? }
  }

  /** The annotations that are read; "" (or 0, or false) stands for an absent one. */
  datatype Annotations = Annotations(
    requestId: string, lastClaimedAt: Time, spawnKind: string, started: bool, seed: string, disposeReason: string)

  datatype Container = Container(name: string, hasStartupProbe: bool)

  datatype ContainerStatus = ContainerStatus(name: string, ready: bool, started: bool, finishedAt: Time)

  datatype Pod = Pod(
    name: string, uid: nat, labels: Labels, ann: Annotations, created: Time, deletedAt: Option<Time>,
    phase: Phase, readyCondition: bool, containers: seq<Container>, statuses: seq<ContainerStatus>)

  datatype Pvc = Pvc(
    name: string, uid: nat, labels: Labels, ann: Annotations, created: Time, deletedAt: Option<Time>)

  datatype Store = Store(pods: map<string, Pod>, pvcs: map<string, Pvc>, nextUid: nat)

  /** `isLive`: running or still coming up. */
  predicate IsLive(p: Pod) { p.deletedAt.None? && !p.phase.PodSucceeded? && !p.phase.PodFailed? }

  predicate IsPodOf(w: string, p: Pod) { p.labels.managed && p.labels.worker == Some(w) }

  function PvcName(w: string): string { w + "-ws" }

  /** Names `podName` mints for a worker: the id, a dash, five characters. */
  predicate PodNameOf(w: string, n: string) { |n| == |w| + 6 && n[..|w|] == w && n[|w|] == '-' }

  lemma PodNamesDiffer(v: string, w: string, n: string)
    requires PodNameOf(v, n) && PodNameOf(w, n)
    ensures v == w
  {
  }

  lemma PvcNamesDiffer(v: string, w: string)
    requires PvcName(v) == PvcName(w)
    ensures v == w
  {
    assert PvcName(v)[..|v|] == v && PvcName(w)[..|w|] == w;
  }

  /** Objects sit under their names, and uids in use were all handed out. */
  ghost predicate StoreOk(s: Store) {
    && (forall n :: n in s.pods ==> s.pods[n].name == n && s.pods[n].uid < s.nextUid)
    && (forall n :: n in s.pvcs ==> s.pvcs[n].name == n && s.pvcs[n].uid < s.nextUid)
  }

  ghost predicate LivePod(s: Store, w: string, n: string) { n in s.pods && IsPodOf(w, s.pods[n]) && IsLive(s.pods[n]) }

  ghost predicate HasLive(s: Store, w: string) { exists n :: LivePod(s, w, n) }

  ghost predicate AtMostOneLive(s: Store, w: string) {
    forall m, n | LivePod(s, w, m) && LivePod(s, w, n) :: m == n
  }

  // ---- what may happen around an operation on worker w ----------------------------------

  /** A pod as the outside world may change it: status at will, except that a
      terminal or deleted pod never comes back; labels, uid and annotations stay,
      but the startup marker may be added. */
  predicate Ages(p: Pod, q: Pod) {
    && q.name == p.name && q.uid == p.uid && q.labels == p.labels && q.created == p.created
      && q.containers == p.containers
    && (IsLive(q) ==> IsLive(p))
    && q.ann == p.ann.(started := q.ann.started) && (p.ann.started ==> q.ann.started)
  }

  /** A claim as the outside world may leave it: the same object, or gone, or
      another object created later under the name. */
  predicate PvcAges(s: Store, p: Pvc, q: Pvc) {
    || (q.uid == p.uid && q.labels == p.labels && q.ann.seed == p.ann.seed && (p.deletedAt.Some? ==> q.deletedAt.Some?))
    || q.uid >= s.nextUid
  }

  /** The world outside an operation on `w` (other controllers' objects, users,
      kubelets, and operations on other workers) adds no pod for `w`, takes no
      pod name of `w`, and keeps labels fixed per uid. */
  ghost predicate Rely(w: string, s: Store, t: Store) {
    && t.nextUid >= s.nextUid
    && (forall n :: n in t.pods && (IsPodOf(w, t.pods[n]) || PodNameOf(w, n)) ==>
      n in s.pods && Ages(s.pods[n], t.pods[n]))
    && (PvcName(w) in t.pvcs ==>
          if PvcName(w) in s.pvcs then PvcAges(s, s.pvcs[PvcName(w)], t.pvcs[PvcName(w)])
          else t.pvcs[PvcName(w)].uid >= s.nextUid)
  }

  /** Moreover nobody else creates the worker's claim. */
  ghost predicate KeepsPvc(w: string, s: Store, t: Store) {
    PvcName(w) in t.pvcs ==> PvcName(w) in s.pvcs && t.pvcs[PvcName(w)].uid == s.pvcs[PvcName(w)].uid
  }

  lemma RelyItself(w: string, s: Store)
    requires StoreOk(s)
    ensures Rely(w, s, s)
  {
  }

  lemma RelyTransitive(w: string, s: Store, t: Store, u: Store)
    requires Rely(w, s, t) && Rely(w, t, u)
    ensures Rely(w, s, u)
  {
  }

  // ---- what an operation on worker w does --------------------------------------------------

  /** A created pod: named for and labelled with the worker, without a startup
      marker and with a fresh uid. */
  ghost predicate AddsPodOf(w: string, s: Store, t: Store) {
    exists n ::
      && PodNameOf(w, n) && n !in s.pods && n in t.pods
      && t == s.(pods := s.pods[n := t.pods[n]], nextUid := s.nextUid + 1)
      && t.pods[n].name == n && t.pods[n].uid == s.nextUid && IsPodOf(w, t.pods[n]) && !t.pods[n].ann.started
  }

  /** Only while no pod of the worker is live. */
  ghost predicate CreatesPod(w: string, s: Store, t: Store) { AddsPodOf(w, s, t) && !HasLive(s, w) }

  /** A deleted pod is gone or marked; an annotated one keeps its identity. */
  ghost predicate TouchesPod(w: string, s: Store, t: Store) {
    exists n ::
      && PodNameOf(w, n) && n in s.pods
      && (t == s.(pods := s.pods - {n})
          || (n in t.pods && t == s.(pods := s.pods[n := t.pods[n]]) && SamePod(s.pods[n], t.pods[n])))
  }

  predicate SamePod(p: Pod, q: Pod) {
    && q.name == p.name && q.uid == p.uid && q.labels == p.labels && q.created == p.created
      && q.containers == p.containers
    && (IsLive(q) ==> IsLive(p)) && q.ann.started == p.ann.started && q.ann.seed == p.ann.seed
  }

  ghost predicate CreatesPvc(w: string, s: Store, t: Store) {
    && PvcName(w) !in s.pvcs && PvcName(w) in t.pvcs
    && t == s.(pvcs := s.pvcs[PvcName(w) := t.pvcs[PvcName(w)]], nextUid := s.nextUid + 1)
    && t.pvcs[PvcName(w)].name == PvcName(w) && t.pvcs[PvcName(w)].uid == s.nextUid
    && t.pvcs[PvcName(w)].labels.Owner() == w
  }

  /** Annotating never touches labels, uid, deletion mark or the recorded seed. */
  ghost predicate AnnotatesPvc(w: string, s: Store, t: Store) {
    && PvcName(w) in s.pvcs
    && exists a: Annotations :: a.seed == s.pvcs[PvcName(w)].ann.seed
         && t == s.(pvcs := s.pvcs[PvcName(w) := s.pvcs[PvcName(w)].(ann := a)])
  }

  /** Only a claim labelled for the worker is ever deleted. */
  ghost predicate DeletesPvc(w: string, s: Store, t: Store) {
    && PvcName(w) in s.pvcs && s.pvcs[PvcName(w)].labels.Owner() == w
    && (t == s.(pvcs := s.pvcs - {PvcName(w)})
        || exists at :: t == s.(pvcs := s.pvcs[PvcName(w) := s.pvcs[PvcName(w)].(deletedAt := Some(at))]))
  }

  /** One write by an operation on `w`. */
  ghost predicate OwnStep(w: string, s: Store, t: Store) {
    || t == s
    || CreatesPod(w, s, t) || TouchesPod(w, s, t)
    || CreatesPvc(w, s, t) || AnnotatesPvc(w, s, t) || DeletesPvc(w, s, t)
  }

  /** The same, but for a Spawn under an id that is in use already. */
  ghost predicate OwnWrite(w: string, s: Store, t: Store) { OwnStep(w, s, t) || AddsPodOf(w, s, t) }

  /** The startup marker on the very pod that was seen. */
  predicate Marks(p: Pod, s: Store, t: Store) {
    && p.name in s.pods && s.pods[p.name].uid == p.uid
    && t == s.(pods := s.pods[p.name := s.pods[p.name].(ann := s.pods[p.name].ann.(started := true))])
  }

  /** ListWorkers' only write: the startup marker on one pod. */
  ghost predicate MarksPod(s: Store, t: Store) {
    exists n :: n in s.pods && t == s.(pods := s.pods[n := s.pods[n].(ann := s.pods[n].ann.(started := true))])
  }

  lemma OwnStepKeepsStore(w: string, s: Store, t: Store)
    requires StoreOk(s) && OwnStep(w, s, t)
    ensures StoreOk(t) && t.nextUid >= s.nextUid
  {
  }

  /** Writes for one worker are just outside noise to every other worker. */
  lemma OwnWriteIsOutside(v: string, w: string, s: Store, t: Store)
    requires StoreOk(s) && OwnWrite(w, s, t) && v != w
    requires forall n :: n in s.pods && IsPodOf(v, s.pods[n]) ==> PodNameOf(v, n)
    ensures Rely(v, s, t) && KeepsPvc(v, s, t)
  {
    if PvcName(v) == PvcName(w) { PvcNamesDiffer(v, w); }
    forall n | n in t.pods && (IsPodOf(v, t.pods[n]) || PodNameOf(v, n))
      ensures n in s.pods && Ages(s.pods[n], t.pods[n]) {
      if PodNameOf(v, n) && PodNameOf(w, n) { PodNamesDiffer(v, w, n); }
    }
  }
}
