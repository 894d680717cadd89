/** What a report says of a worker, in terms of the listed objects themselves: phase, age,
    readiness and startup evidence of its pods, and the times and names on its pods and
    claims (internal/backend/kube/kube.go ListWorkers, podState, hasStarted, workerContainer). */
module KubeStartup {
  import opened Common
  import opened Backend
  import opened KubeStore
  import opened KubeListing
  import opened KubeFacts

  // ---- one pod -------------------------------------------------------------------------

  /** Container `k` is the first of that name. */
  ghost predicate IsFirst(name: string, containers: seq<Container>, k: nat) {
    k < |containers| && containers[k].name == name && forall j :: 0 <= j < k ==> containers[j].name != name
  }

  /** Container `k` is the worker's: the first of the configured name, or the first of all
      when no name is configured or no container has it. */
  ghost predicate IsWorkerContainer(o: Options, p: Pod, k: nat) {
    && k < |p.containers|
    && (Configured(o, p) ==> IsFirst(o.workerContainer, p.containers, k))
    && (!Configured(o, p) ==> k == 0)
  }

  /** A name is configured, and some container has it. */
  ghost predicate Configured(o: Options, p: Pod) {
    o.workerContainer != "" && exists j :: 0 <= j < |p.containers| && p.containers[j].name == o.workerContainer
  }

  /** The worker's container is ready, or past its startup probe; without such a probe
      "started" is no evidence. */
  ghost predicate ContainerStarted(o: Options, p: Pod, k: nat, i: nat) {
    && IsWorkerContainer(o, p, k) && i < |p.statuses| && p.statuses[i].name == p.containers[k].name
    && (p.statuses[i].ready || (p.containers[k].hasStartupProbe && p.statuses[i].started))
  }

  /** The startup marker, the Ready condition, or the worker's container. */
  ghost predicate Evidence(o: Options, p: Pod) {
    p.ann.started || p.readyCondition || exists k: nat, i: nat :: ContainerStarted(o, p, k, i)
  }

  ghost predicate Up(p: Pod) { p.deletedAt.None? && (p.phase == PodPending || p.phase == PodRunning) }

  /** Past a positive startup timeout, counted from a known creation time. */
  ghost predicate Overdue(o: Options, p: Pod, now: Time) {
    p.created != 0 && o.startupTimeout > 0 && now - p.created >= o.startupTimeout
  }

  lemma {:induction false} FirstCalledIs(name: string, containers: seq<Container>, otherwise: Container)
    ensures var c := FirstCalled(name, containers, otherwise);
      || (c == otherwise && forall j :: 0 <= j < |containers| ==> containers[j].name != name)
      || exists k: nat :: IsFirst(name, containers, k) && containers[k] == c
  {
    if containers != [] && containers[0].name != name {
      FirstCalledIs(name, containers[1..], otherwise);
      var c := FirstCalled(name, containers[1..], otherwise);
      if k: nat :| IsFirst(name, containers[1..], k) && containers[1..][k] == c {
        assert containers[k + 1] == c;
        forall j | 0 <= j < k + 1 ensures containers[j].name != name {
          if j > 0 { assert containers[j] == containers[1..][j - 1]; }
        }
        assert IsFirst(name, containers, k + 1);
      } else {
        forall j | 0 <= j < |containers| ensures containers[j].name != name {
          if j > 0 { assert containers[j] == containers[1..][j - 1]; }
        }
      }
    } else if containers != [] {
      assert IsFirst(name, containers, 0);
    }
  }

  /** The container the code picks is the worker's. */
  lemma WorkerContainerIs(o: Options, p: Pod)
    requires p.containers != []
    ensures exists k: nat :: IsWorkerContainer(o, p, k) && p.containers[k] == WorkerContainer(o, p.containers)
  {
    if o.workerContainer == "" {
      assert IsWorkerContainer(o, p, 0);
    } else {
      FirstCalledIs(o.workerContainer, p.containers, p.containers[0]);
      var c := WorkerContainer(o, p.containers);
      if k: nat :| IsFirst(o.workerContainer, p.containers, k) && p.containers[k] == c {
        assert IsWorkerContainer(o, p, k);
      } else {
        assert IsWorkerContainer(o, p, 0);
      }
    }
  }

  lemma WorkerContainerUnique(o: Options, p: Pod, j: nat, k: nat)
    requires IsWorkerContainer(o, p, j) && IsWorkerContainer(o, p, k)
    ensures j == k
  {
  }

  /** What counts as started. */
  lemma StartedExactly(o: Options, p: Pod)
    ensures HasStarted(o, p) <==> Evidence(o, p)
  {
    if p.containers != [] {
      WorkerContainerIs(o, p);
      var k: nat :| IsWorkerContainer(o, p, k) && p.containers[k] == WorkerContainer(o, p.containers);
      hide IsWorkerContainer, WorkerContainer;
      forall i | 0 <= i < |p.statuses|
        ensures ContainerStarted(o, p, k, i) <==> (p.statuses[i].name == p.containers[k].name
          && (p.statuses[i].ready || (p.containers[k].hasStartupProbe && p.statuses[i].started)))
      {
      }
      forall j: nat, i: nat | ContainerStarted(o, p, j, i) ensures j == k { WorkerContainerUnique(o, p, j, k); }
    }
  }

  lemma StateExactly(o: Options, p: Pod, now: Time)
    ensures PodState(o, p, now).live <==> Up(p) && (Evidence(o, p) || !Overdue(o, p, now))
    ensures PodState(o, p, now).timedOut <==> Up(p) && !Evidence(o, p) && Overdue(o, p, now)
  {
    StartedExactly(o, p);
    hide HasStarted, Evidence;
  }

  // ---- a whole report ---------------------------------------------------------------------

  /** `out` is what ListWorkers makes of these claims and pods, each pod judged at its time. */
  ghost predicate ReportOn(out: seq<WorkerInfo>, o: Options, pvcs: seq<Pvc>, pods: seq<Pod>, times: seq<Time>)
    requires |times| == |pods|
  {
    IsReport(out, PvcFacts(pvcs) + PodFacts(o, pods, times))
  }

  ghost predicate ShowsLive(o: Options, id: string, pods: seq<Pod>, times: seq<Time>, i: nat)
    requires |times| == |pods|
  {
    && i < |pods| && pods[i].labels.Owner() == id
    && Up(pods[i]) && (Evidence(o, pods[i]) || !Overdue(o, pods[i], times[i]))
  }

  ghost predicate ShowsTimedOut(o: Options, id: string, pods: seq<Pod>, times: seq<Time>, i: nat)
    requires |times| == |pods|
  {
    i < |pods| && pods[i].labels.Owner() == id && Up(pods[i]) && !Evidence(o, pods[i]) && Overdue(o, pods[i], times[i])
  }

  lemma FactFromPod(o: Options, pvcs: seq<Pvc>, pods: seq<Pod>, times: seq<Time>, id: string, f: Fact)
    requires |times| == |pods| && f in PvcFacts(pvcs) + PodFacts(o, pods, times) && About(id, f)
    ensures SaysLive(f) ==> exists i :: ShowsLive(o, id, pods, times, i)
    ensures SaysTimedOut(f) ==> exists i :: ShowsTimedOut(o, id, pods, times, i)
  {
    hide Up, Evidence, Overdue, PodState;
    if f in PvcFacts(pvcs) {
      PvcFactOrigin(pvcs, f);
    } else {
      PodFactOrigin(o, pods, times, f);
      var i :| 0 <= i < |pods| && f == PodFact(o, pods[i], times[i]);
      StateExactly(o, pods[i], times[i]);
      if SaysLive(f) { assert ShowsLive(o, id, pods, times, i); }
      if SaysTimedOut(f) { assert ShowsTimedOut(o, id, pods, times, i); }
    }
  }

  lemma FactOfListed(o: Options, pvcs: seq<Pvc>, pods: seq<Pod>, times: seq<Time>, id: string, i: nat)
    requires |times| == |pods| && i < |pods| && pods[i].labels.Owner() == id
    ensures var f := PodFact(o, pods[i], times[i]);
      && f in PvcFacts(pvcs) + PodFacts(o, pods, times) && About(id, f)
      && (SaysLive(f) <==> ShowsLive(o, id, pods, times, i))
      && (SaysTimedOut(f) <==> ShowsTimedOut(o, id, pods, times, i))
  {
    hide Up, Evidence, Overdue, PodState;
    HasFact(o, pods, times, i);
    StateExactly(o, pods[i], times[i]);
  }

  /** A worker is reported live exactly if one of its pods is up and has started or is not
      overdue; timed out exactly if it is not live and one is up, not started and overdue. */
  lemma LiveExactly(out: seq<WorkerInfo>, o: Options, pvcs: seq<Pvc>, pods: seq<Pod>, times: seq<Time>, r: WorkerInfo)
    requires |times| == |pods| && ReportOn(out, o, pvcs, pods, times) && r in out
    ensures r.live.Some?
    ensures r.live == Some(true) <==> exists i :: ShowsLive(o, r.id, pods, times, i)
    ensures r.startupTimedOut <==> r.live == Some(false) && exists i :: ShowsTimedOut(o, r.id, pods, times, i)
  {
    hide TimesRight, NamesRight, ShowsLive, ShowsTimedOut, PodFact, SaysLive, SaysTimedOut;
    var facts := PvcFacts(pvcs) + PodFacts(o, pods, times);
    assert LiveRight(r, facts);
    KnownEitherWay(r);
    if f :| f in facts && About(r.id, f) && SaysLive(f) { FactFromPod(o, pvcs, pods, times, r.id, f); }
    if f :| f in facts && About(r.id, f) && SaysTimedOut(f) { FactFromPod(o, pvcs, pods, times, r.id, f); }
    if i :| ShowsLive(o, r.id, pods, times, i) {
      ShownIsListed(o, r.id, pods, times, i);
      FactOfListed(o, pvcs, pods, times, r.id, i);
    }
    if i :| ShowsTimedOut(o, r.id, pods, times, i) {
      ShownIsListed(o, r.id, pods, times, i);
      FactOfListed(o, pvcs, pods, times, r.id, i);
    }
  }

  lemma AllLiveExactly(out: seq<WorkerInfo>, o: Options, pvcs: seq<Pvc>, pods: seq<Pod>, times: seq<Time>)
    requires |times| == |pods| && IsReport(out, PvcFacts(pvcs) + PodFacts(o, pods, times))
    ensures forall r :: r in out ==> (r.live == Some(true) <==> exists i :: ShowsLive(o, r.id, pods, times, i))
    ensures forall r :: r in out ==>
      (r.startupTimedOut <==> r.live == Some(false) && exists i :: ShowsTimedOut(o, r.id, pods, times, i))
  {
    hide ShowsLive, ShowsTimedOut, IsReport;
    forall r | r in out
      ensures r.live == Some(true) <==> exists i :: ShowsLive(o, r.id, pods, times, i)
      ensures r.startupTimedOut <==> r.live == Some(false) && exists i :: ShowsTimedOut(o, r.id, pods, times, i)
    {
      LiveExactly(out, o, pvcs, pods, times, r);
    }
  }

  lemma ShownIsListed(o: Options, id: string, pods: seq<Pod>, times: seq<Time>, i: nat)
    requires |times| == |pods| && (ShowsLive(o, id, pods, times, i) || ShowsTimedOut(o, id, pods, times, i))
    ensures i < |pods| && pods[i].labels.Owner() == id
  {
  }

  lemma IsReported(out: seq<WorkerInfo>, o: Options, pvcs: seq<Pvc>, pods: seq<Pod>, times: seq<Time>, i: nat)
    requires |times| == |pods| && ReportOn(out, o, pvcs, pods, times) && i < |pods| && pods[i].labels.Owner() != ""
    ensures exists r :: r in out && r.id == pods[i].labels.Owner()
  {
    hide PodFact, Summary;
    FactOfListed(o, pvcs, pods, times, pods[i].labels.Owner(), i);
    assert Mentioned(pods[i].labels.Owner(), PvcFacts(pvcs) + PodFacts(o, pods, times));
  }

  /** A pod that is up and younger than the timeout, or has no creation time, or meets no
      timeout, makes every report call its worker live and not timed out. */
  lemma YoungIsLive(out: seq<WorkerInfo>, o: Options, pvcs: seq<Pvc>, pods: seq<Pod>, times: seq<Time>, i: nat)
    requires |times| == |pods| && ReportOn(out, o, pvcs, pods, times) && i < |pods| && pods[i].labels.Owner() != ""
    requires pods[i].deletedAt.None? && (pods[i].phase == PodPending || pods[i].phase == PodRunning)
    requires o.startupTimeout <= 0 || pods[i].created == 0 || times[i] - pods[i].created < o.startupTimeout
    ensures exists r :: r in out && r.id == pods[i].labels.Owner()
    ensures forall r :: r in out && r.id == pods[i].labels.Owner() ==> r.live == Some(true) && !r.startupTimedOut
  {
    hide ReportOn, Evidence;
    IsReported(out, o, pvcs, pods, times, i);
    assert ShowsLive(o, pods[i].labels.Owner(), pods, times, i);
    forall r | r in out && r.id == pods[i].labels.Owner() ensures r.live == Some(true) && !r.startupTimedOut {
      LiveExactly(out, o, pvcs, pods, times, r);
    }
  }

  /** A worker with a pod that is up, and none that is up and has started or is not overdue,
      is reported not live and timed out. */
  lemma OverdueIsTimedOut(
      out: seq<WorkerInfo>, o: Options, pvcs: seq<Pvc>, pods: seq<Pod>, times: seq<Time>, id: string)
    requires |times| == |pods| && ReportOn(out, o, pvcs, pods, times) && id != "" && o.startupTimeout > 0
    requires exists i :: 0 <= i < |pods| && pods[i].labels.Owner() == id && Up(pods[i])
    requires forall i :: 0 <= i < |pods| && pods[i].labels.Owner() == id && Up(pods[i]) ==>
      !Evidence(o, pods[i]) && pods[i].created != 0 && times[i] - pods[i].created >= o.startupTimeout
    ensures exists r :: r in out && r.id == id
    ensures forall r :: r in out && r.id == id ==> r.live == Some(false) && r.startupTimedOut
  {
    hide ReportOn, Evidence, Up;
    var i :| 0 <= i < |pods| && pods[i].labels.Owner() == id && Up(pods[i]);
    IsReported(out, o, pvcs, pods, times, i);
    assert ShowsTimedOut(o, id, pods, times, i);
    forall r | r in out && r.id == id ensures r.live == Some(false) && r.startupTimedOut {
      LiveExactly(out, o, pvcs, pods, times, r);
      KnownEitherWay(r);
    }
  }

  lemma KnownEitherWay(r: WorkerInfo)
    requires r.live.Some?
    ensures r.live == Some(false) <==> r.live != Some(true)
  {
    match r.live case Some(live) =>
  }

  // ---- times and names -------------------------------------------------------------------

  ghost predicate Counts(id: string, p: Pvc) { p.deletedAt.None? && p.labels.Owner() == id }

  ghost predicate PvcTime(p: Pvc, t: Time) { t == p.created || t == p.ann.lastClaimedAt }

  /** A time at which the pod showed activity: created, claimed, a container finished, deleted. */
  ghost predicate PodTime(p: Pod, t: Time) {
    || t == p.created || t == p.ann.lastClaimedAt || p.deletedAt == Some(t)
    || exists i :: 0 <= i < |p.statuses| && p.statuses[i].finishedAt == t
  }

  ghost predicate ActiveAt(id: string, pvcs: seq<Pvc>, pods: seq<Pod>, t: Time) {
    || (exists p :: p in pvcs && Counts(id, p) && PvcTime(p, t))
    || (exists p :: p in pods && p.labels.Owner() == id && PodTime(p, t))
  }

  ghost predicate CreatedAt(id: string, pvcs: seq<Pvc>, pods: seq<Pod>, t: Time) {
    || (exists p :: p in pvcs && Counts(id, p) && p.created == t)
    || (exists p :: p in pods && p.labels.Owner() == id && p.created == t)
  }

  ghost predicate Names(id: string, pvcs: seq<Pvc>, pods: seq<Pod>, request: string) {
    || (exists p :: p in pvcs && Counts(id, p) && p.ann.requestId == request)
    || (exists p :: p in pods && p.labels.Owner() == id && p.ann.requestId == request)
  }

  ghost predicate InPool(id: string, pvcs: seq<Pvc>, pods: seq<Pod>, pool: string) {
    || (exists p :: p in pvcs && Counts(id, p) && p.labels.pool == pool)
    || (exists p :: p in pods && p.labels.Owner() == id && p.labels.pool == pool)
  }

  lemma FinishedExactly(p: Pod)
    ensures forall i :: 0 <= i < |p.statuses| ==> p.statuses[i].finishedAt <= FinishedAt(p)
    ensures p.deletedAt.Some? ==> p.deletedAt.value <= FinishedAt(p)
    ensures FinishedAt(p) != 0 ==> PodTime(p, FinishedAt(p))
  {
    var ended := seq(|p.statuses|, i requires 0 <= i < |p.statuses| => p.statuses[i].finishedAt);
    forall i | 0 <= i < |p.statuses| ensures p.statuses[i].finishedAt <= Latest(ended) {
      assert ended[i] in ended;
    }
    if p.deletedAt.Some? {
      var both := [Latest(ended), p.deletedAt.value];
      assert both[0] in both && both[1] in both;
    }
  }

  /** A fact's activity is the latest time of the object it is about. */
  lemma PodActive(o: Options, p: Pod, now: Time)
    ensures forall t: Time :: PodTime(p, t) ==> t <= PodFact(o, p, now).active
    ensures var a := PodFact(o, p, now).active; a != 0 ==> PodTime(p, a)
  {
    var three := [p.created, p.ann.lastClaimedAt, FinishedAt(p)];
    FinishedExactly(p);
    assert three[0] in three && three[1] in three && three[2] in three;
    hide FinishedAt, Latest;
  }

  lemma PvcActive(p: Pvc)
    ensures forall t: Time :: PvcTime(p, t) ==> t <= PvcFact(p).active
    ensures PvcFact(p).active != 0 ==> PvcTime(p, PvcFact(p).active)
  {
    var two := [p.created, p.ann.lastClaimedAt];
    assert two[0] in two && two[1] in two;
  }

  lemma {:induction false} HasPvcFact(pvcs: seq<Pvc>, p: Pvc)
    requires p in pvcs && p.deletedAt.None?
    ensures PvcFact(p) in PvcFacts(pvcs)
  {
    var n := |pvcs| - 1;
    if pvcs[n] != p {
      assert p in pvcs[..n];
      HasPvcFact(pvcs[..n], p);
    }
  }

  /** Each fact is about a listed object, and says what is on it. */
  lemma FactOrigin(o: Options, pvcs: seq<Pvc>, pods: seq<Pod>, times: seq<Time>, id: string, f: Fact)
    requires |times| == |pods| && f in PvcFacts(pvcs) + PodFacts(o, pods, times) && About(id, f)
    ensures CreatedAt(id, pvcs, pods, f.created) && Names(id, pvcs, pods, f.requestId) && InPool(id, pvcs, pods, f.pool)
    ensures f.active != 0 ==> ActiveAt(id, pvcs, pods, f.active)
  {
    hide PvcTime, PodTime, Latest, FinishedAt, PodState;
    if f in PvcFacts(pvcs) {
      PvcFactOrigin(pvcs, f);
      var p :| p in pvcs && p.deletedAt.None? && f == PvcFact(p);
      PvcActive(p);
      assert Counts(id, p);
    } else {
      PodFactOrigin(o, pods, times, f);
      var i :| 0 <= i < |pods| && f == PodFact(o, pods[i], times[i]);
      PodActive(o, pods[i], times[i]);
      assert pods[i] in pods;
    }
  }

  lemma ClaimsFact(o: Options, pvcs: seq<Pvc>, pods: seq<Pod>, times: seq<Time>, id: string, p: Pvc) returns (f: Fact)
    requires |times| == |pods| && p in pvcs && Counts(id, p)
    ensures f in PvcFacts(pvcs) + PodFacts(o, pods, times) && About(id, f)
    ensures f.created == p.created && f.requestId == p.ann.requestId
    ensures forall t: Time :: PvcTime(p, t) ==> t <= f.active
  {
    hide PvcTime, Latest;
    HasPvcFact(pvcs, p);
    PvcActive(p);
    f := PvcFact(p);
  }

  lemma PodsFact(o: Options, pvcs: seq<Pvc>, pods: seq<Pod>, times: seq<Time>, id: string, p: Pod) returns (f: Fact)
    requires |times| == |pods| && p in pods && p.labels.Owner() == id
    ensures f in PvcFacts(pvcs) + PodFacts(o, pods, times) && About(id, f)
    ensures f.created == p.created && f.requestId == p.ann.requestId
    ensures forall t: Time :: PodTime(p, t) ==> t <= f.active
  {
    hide PodTime, Latest, FinishedAt, PodState;
    var i :| 0 <= i < |pods| && pods[i] == p;
    HasFact(o, pods, times, i);
    PodActive(o, p, times[i]);
    f := PodFact(o, p, times[i]);
  }

  /** Every worker with a pod, or with a claim that is not terminating, is reported, and no other. */
  lemma ReportedExactly(out: seq<WorkerInfo>, o: Options, pvcs: seq<Pvc>, pods: seq<Pod>, times: seq<Time>, id: string)
    requires |times| == |pods| && ReportOn(out, o, pvcs, pods, times) && id != ""
    ensures (exists r :: r in out && r.id == id) <==> exists t: Time :: CreatedAt(id, pvcs, pods, t)
  {
    hide Summary;
    var facts := PvcFacts(pvcs) + PodFacts(o, pods, times);
    if r :| r in out && r.id == id {
      assert Mentioned(id, facts);
      var f :| f in facts && About(id, f);
      FactOrigin(o, pvcs, pods, times, id, f);
    }
    if t: Time :| CreatedAt(id, pvcs, pods, t) {
      if p :| p in pvcs && Counts(id, p) && p.created == t {
        var f := ClaimsFact(o, pvcs, pods, times, id, p);
        assert Mentioned(id, facts);
      } else {
        var q :| q in pods && q.labels.Owner() == id && q.created == t;
        var f := PodsFact(o, pvcs, pods, times, id, q);
        assert Mentioned(id, facts);
      }
    }
  }

  lemma CreatedBound(out: seq<WorkerInfo>, o: Options, pvcs: seq<Pvc>, pods: seq<Pod>, times: seq<Time>, r: WorkerInfo,
      t: Time)
    requires |times| == |pods| && ReportOn(out, o, pvcs, pods, times) && r in out
    requires CreatedAt(r.id, pvcs, pods, t) && t != 0
    ensures 0 < r.createdAt <= t
  {
    hide LiveRight, NamesRight, PvcFacts, PodFacts;
    assert TimesRight(r, PvcFacts(pvcs) + PodFacts(o, pods, times));
    if p :| p in pvcs && Counts(r.id, p) && p.created == t {
      var f := ClaimsFact(o, pvcs, pods, times, r.id, p);
    } else {
      var q :| q in pods && q.labels.Owner() == r.id && q.created == t;
      var f := PodsFact(o, pvcs, pods, times, r.id, q);
    }
  }

  lemma ActiveBound(out: seq<WorkerInfo>, o: Options, pvcs: seq<Pvc>, pods: seq<Pod>, times: seq<Time>, r: WorkerInfo,
      t: Time)
    requires |times| == |pods| && ReportOn(out, o, pvcs, pods, times) && r in out && ActiveAt(r.id, pvcs, pods, t)
    ensures t <= r.lastActivity
  {
    hide LiveRight, NamesRight, PvcFacts, PodFacts, PvcTime, PodTime;
    assert TimesRight(r, PvcFacts(pvcs) + PodFacts(o, pods, times));
    if p :| p in pvcs && Counts(r.id, p) && PvcTime(p, t) {
      var f := ClaimsFact(o, pvcs, pods, times, r.id, p);
    } else {
      var q :| q in pods && q.labels.Owner() == r.id && PodTime(q, t);
      var f := PodsFact(o, pvcs, pods, times, r.id, q);
    }
  }

  lemma NamesOne(out: seq<WorkerInfo>, o: Options, pvcs: seq<Pvc>, pods: seq<Pod>, times: seq<Time>, r: WorkerInfo,
      request: string)
    requires |times| == |pods| && ReportOn(out, o, pvcs, pods, times) && r in out
    requires Names(r.id, pvcs, pods, request) && request != ""
    ensures r.requestId != ""
  {
    hide LiveRight, TimesRight, PvcFacts, PodFacts;
    assert NamesRight(r, PvcFacts(pvcs) + PodFacts(o, pods, times));
    if p :| p in pvcs && Counts(r.id, p) && p.ann.requestId == request {
      var f := ClaimsFact(o, pvcs, pods, times, r.id, p);
    } else {
      var q :| q in pods && q.labels.Owner() == r.id && q.ann.requestId == request;
      var f := PodsFact(o, pvcs, pods, times, r.id, q);
    }
  }

  /** A worker is reported as created at the earliest known creation time, and last active
      at the latest time, of any of its pods and claims that are not terminating; it serves a
      request that one of them names, if any does, in a pool of one of them. */
  lemma SummaryExactly(out: seq<WorkerInfo>, o: Options, pvcs: seq<Pvc>, pods: seq<Pod>, times: seq<Time>,
      r: WorkerInfo)
    requires |times| == |pods| && ReportOn(out, o, pvcs, pods, times) && r in out
    ensures forall t: Time :: CreatedAt(r.id, pvcs, pods, t) && t != 0 ==> 0 < r.createdAt <= t
    ensures forall t: Time :: ActiveAt(r.id, pvcs, pods, t) ==> t <= r.lastActivity
    ensures (exists q :: Names(r.id, pvcs, pods, q) && q != "") ==> r.requestId != ""
    ensures r.createdAt != 0 ==> CreatedAt(r.id, pvcs, pods, r.createdAt)
    ensures r.lastActivity != 0 ==> ActiveAt(r.id, pvcs, pods, r.lastActivity)
    ensures r.requestId != "" ==> Names(r.id, pvcs, pods, r.requestId)
    ensures r.pool != "" ==> InPool(r.id, pvcs, pods, r.pool)
  {
    hide ReportOn, CreatedAt, ActiveAt, Names, InPool;
    forall t: Time | CreatedAt(r.id, pvcs, pods, t) && t != 0 ensures 0 < r.createdAt <= t {
      CreatedBound(out, o, pvcs, pods, times, r, t);
    }
    forall t: Time | ActiveAt(r.id, pvcs, pods, t) ensures t <= r.lastActivity {
      ActiveBound(out, o, pvcs, pods, times, r, t);
    }
    if q :| Names(r.id, pvcs, pods, q) && q != "" { NamesOne(out, o, pvcs, pods, times, r, q); }
    Attained(out, o, pvcs, pods, times, r);
  }

  lemma Attained(out: seq<WorkerInfo>, o: Options, pvcs: seq<Pvc>, pods: seq<Pod>, times: seq<Time>, r: WorkerInfo)
    requires |times| == |pods| && ReportOn(out, o, pvcs, pods, times) && r in out
    ensures r.createdAt != 0 ==> CreatedAt(r.id, pvcs, pods, r.createdAt)
    ensures r.lastActivity != 0 ==> ActiveAt(r.id, pvcs, pods, r.lastActivity)
    ensures r.requestId != "" ==> Names(r.id, pvcs, pods, r.requestId)
    ensures r.pool != "" ==> InPool(r.id, pvcs, pods, r.pool)
  {
    hide LiveRight, PvcFacts, PodFacts, CreatedAt, ActiveAt, Names, InPool;
    var facts := PvcFacts(pvcs) + PodFacts(o, pods, times);
    assert TimesRight(r, facts) && NamesRight(r, facts);
    if r.createdAt != 0 {
      var f :| f in facts && About(r.id, f) && f.created == r.createdAt;
      FactOrigin(o, pvcs, pods, times, r.id, f);
    }
    if r.lastActivity != 0 {
      var f :| f in facts && About(r.id, f) && f.active == r.lastActivity;
      FactOrigin(o, pvcs, pods, times, r.id, f);
    }
    if r.requestId != "" {
      var f :| f in facts && About(r.id, f) && f.requestId == r.requestId;
      FactOrigin(o, pvcs, pods, times, r.id, f);
    }
    if r.pool != "" {
      var f :| f in facts && About(r.id, f) && f.pool == r.pool;
      FactOrigin(o, pvcs, pods, times, r.id, f);
    }
  }

  // ---- which pool is named -----------------------------------------------------------------

  /** Claim `i` is the worker's last that is not terminating. */
  ghost predicate LastCounts(id: string, pvcs: seq<Pvc>, i: int) {
    0 <= i < |pvcs| && Counts(id, pvcs[i]) && forall j :: i < j < |pvcs| ==> !Counts(id, pvcs[j])
  }

  /** The last counting claim of a listing names the pool. */
  lemma {:induction false} ClaimsPool(id: string, pvcs: seq<Pvc>, i: nat)
    requires LastCounts(id, pvcs, i)
    ensures FoldPvcs(id, pvcs).pool == pvcs[i].labels.pool
  {
    var n := |pvcs| - 1;
    if i < n {
      assert !Counts(id, pvcs[n]);
      ClaimsPool(id, pvcs[..n], i);
    }
  }

  lemma {:induction false} NoClaimNoPool(id: string, pvcs: seq<Pvc>)
    requires forall j :: 0 <= j < |pvcs| ==> !Counts(id, pvcs[j])
    ensures FoldPvcs(id, pvcs).pool == ""
  {
    if pvcs != [] {
      assert !Counts(id, pvcs[|pvcs| - 1]);
      NoClaimNoPool(id, pvcs[..|pvcs| - 1]);
    }
  }

  /** A pool that is named stays; otherwise the first pod that names one does. */
  lemma {:induction false} PodsPool(o: Options, w: WorkerInfo, pods: seq<Pod>, times: seq<Time>)
    requires |times| == |pods|
    ensures w.pool != "" ==> FoldPods(o, w, pods, times).pool == w.pool
    ensures (w.pool == "" && forall j :: 0 <= j < |pods| && pods[j].labels.Owner() == w.id ==>
      pods[j].labels.pool == "") ==> FoldPods(o, w, pods, times).pool == ""
    ensures forall i :: FirstNames(w.id, pods, i) && w.pool == "" ==>
      FoldPods(o, w, pods, times).pool == pods[i].labels.pool
  {
    if pods != [] {
      var n := |pods| - 1;
      PodsPool(o, w, pods[..n], times[..n]);
      hide PodState, Latest, FinishedAt, Earliest;
      forall i | FirstNames(w.id, pods, i) && w.pool == ""
        ensures FoldPods(o, w, pods, times).pool == pods[i].labels.pool
      {
        if i < n { assert FirstNames(w.id, pods[..n], i); }
      }
    }
  }

  /** Pod `i` is the first of the worker that names a pool. */
  ghost predicate FirstNames(id: string, pods: seq<Pod>, i: int) {
    && 0 <= i < |pods| && pods[i].labels.Owner() == id && pods[i].labels.pool != ""
    && forall j :: 0 <= j < i && pods[j].labels.Owner() == id ==> pods[j].labels.pool == ""
  }

  /** The pool a record names, for the order listed: that of the worker's last claim that is not
      terminating, or else, if that names none, of its first pod that names one. */
  lemma PoolNamed(o: Options, id: string, pvcs: seq<Pvc>, pods: seq<Pod>, times: seq<Time>)
    requires |times| == |pods|
    ensures var pool := Known(FoldPods(o, FoldPvcs(id, pvcs), pods, times)).pool;
      && (forall i | LastCounts(id, pvcs, i) :: pvcs[i].labels.pool != "" ==> pool == pvcs[i].labels.pool)
      && (forall i | FirstNames(id, pods, i) :: FoldPvcs(id, pvcs).pool == "" ==> pool == pods[i].labels.pool)
  {
    PodsPool(o, FoldPvcs(id, pvcs), pods, times);
    forall i | LastCounts(id, pvcs, i) ensures FoldPvcs(id, pvcs).pool == pvcs[i].labels.pool {
      ClaimsPool(id, pvcs, i);
    }
    hide FoldPods, FoldPvcs, Counts;
  }
}
