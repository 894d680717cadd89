/** ListWorkers (internal/backend/kube/kube.go): an imperative merge of claims and
    pods, shown to compute an aggregate that does not depend on their order. */
module KubeListing {
  import opened Common
  import opened Backend
  import opened KubeStore
  import opened ClusterApi
  import Sorting

  datatype Options = Options(persistent: bool, startupTimeout: int, workerContainer: string)

  // ---- one pod ------------------------------------------------------------------------

  function Latest(ts: seq<Time>): (r: Time)
    ensures forall t :: t in ts ==> t <= r
    ensures r == 0 || r in ts
  {
    if ts == [] then 0
    else
      var r := Latest(ts[..|ts| - 1]);
      var t := ts[|ts| - 1];
      assert ts == ts[..|ts| - 1] + [t];
      if t > r then t else r
  }

  lemma LatestOf(x: Time, ts: seq<Time>)
    ensures Latest([x] + ts) == if x > Latest(ts) then x else Latest(ts)
  {
    var all := [x] + ts;
    assert forall t :: t in all <==> t == x || t in ts;
    assert x in all && (Latest(ts) != 0 ==> Latest(ts) in all);
    assert Latest(all) != 0 ==> Latest(all) in all;
  }

  /** The earlier of two times, where zero stands for none. */
  function Earliest(cur: Time, t: Time): Time {
    if t == 0 then cur else if cur == 0 || t < cur then t else cur
  }

  function FinishedAt(p: Pod): Time {
    var ended := Latest(seq(|p.statuses|, i requires 0 <= i < |p.statuses| => p.statuses[i].finishedAt));
    match p.deletedAt
    case Some(at) => Latest([ended, at])
    case None => ended
  }

  predicate Called(name: string, c: Container) { c.name == name }

  /** The named container if there is one, else the first. */
  function WorkerContainer(o: Options, containers: seq<Container>): (c: Container)
    requires containers != []
    ensures c in containers
  {
    if o.workerContainer != "" then FirstCalled(o.workerContainer, containers, containers[0]) else containers[0]
  }

  function FirstCalled(name: string, containers: seq<Container>, otherwise: Container): (c: Container)
    ensures c == otherwise || c in containers
    ensures (exists i :: 0 <= i < |containers| && Called(name, containers[i])) ==> Called(name, c)
  {
    if containers == [] then otherwise
    else if Called(name, containers[0]) then containers[0]
    else FirstCalled(name, containers[1..], otherwise)
  }

  /** The durable marker, or readiness, or the worker container's own evidence. */
  predicate HasStarted(o: Options, p: Pod) {
    || p.ann.started
    || p.readyCondition
    || (p.containers != []
        && var worker := WorkerContainer(o, p.containers);
           exists i :: 0 <= i < |p.statuses| && p.statuses[i].name == worker.name
             && (p.statuses[i].ready || (worker.hasStartupProbe && p.statuses[i].started)))
  }

  datatype Running = Running(live: bool, timedOut: bool)

  function PodState(o: Options, p: Pod, now: Time): Running {
    if !IsLive(p) then Running(false, false)
    else if HasStarted(o, p) then Running(true, false)
    else if p.created == 0 || o.startupTimeout <= 0 || now - p.created < o.startupTimeout then Running(true, false)
    else Running(false, true)
  }

  // ---- the merge, step by step ---------------------------------------------------------------

  function Fresh(id: string): WorkerInfo { WorkerInfo(id, "", "", None, false, 0, 0) }

  function Get(byId: map<string, WorkerInfo>, id: string): WorkerInfo {
    if id in byId then byId[id] else Fresh(id)
  }

  function MergePvc(w: WorkerInfo, p: Pvc): WorkerInfo {
    w.(pool := p.labels.pool,
       requestId := if p.ann.requestId != "" then p.ann.requestId else w.requestId,
       createdAt := Earliest(w.createdAt, p.created),
       lastActivity := Latest([w.lastActivity, p.created, p.ann.lastClaimedAt]))
  }

  function MergePod(o: Options, w: WorkerInfo, p: Pod, now: Time): WorkerInfo {
    var takes := p.ann.requestId != "" && (w.requestId == "" || p.ann.lastClaimedAt > w.lastActivity);
    var state := PodState(o, p, now);
    var live := if w.live.None? || state.live then Some(state.live) else w.live;
    w.(pool := if w.pool == "" then p.labels.pool else w.pool,
       requestId := if takes then p.ann.requestId else w.requestId,
       createdAt := Earliest(w.createdAt, p.created),
       lastActivity := Latest([w.lastActivity, p.created, p.ann.lastClaimedAt, FinishedAt(p)]),
       live := live,
       startupTimedOut :=
         if state.live then false
         else if state.timedOut && live != Some(true) then true
         else w.startupTimedOut)
  }

  /** The record of one worker after the claims, taken in the order listed. */
  function FoldPvcs(id: string, pvcs: seq<Pvc>): (w: WorkerInfo)
    ensures w.id == id
  {
    if pvcs == [] then Fresh(id)
    else
      var last := pvcs[|pvcs| - 1];
      var w := FoldPvcs(id, pvcs[..|pvcs| - 1]);
      if last.deletedAt.None? && last.labels.Owner() == id then MergePvc(w, last) else w
  }

  /** And after the pods, each judged at its time. */
  function FoldPods(o: Options, w: WorkerInfo, pods: seq<Pod>, times: seq<Time>): (r: WorkerInfo)
    requires |pods| == |times|
    ensures r.id == w.id
  {
    if pods == [] then w
    else
      var n := |pods| - 1;
      var r := FoldPods(o, w, pods[..n], times[..n]);
      if pods[n].labels.Owner() == w.id then MergePod(o, r, pods[n], times[n]) else r
  }

  ghost predicate FoldsPvcs(byId: map<string, WorkerInfo>, pvcs: seq<Pvc>) {
    forall id :: Get(byId, id) == FoldPvcs(id, pvcs)
  }

  ghost predicate FoldsPods(o: Options, start: map<string, WorkerInfo>, byId: map<string, WorkerInfo>, pods: seq<Pod>,
      times: seq<Time>) {
    |pods| == |times| && forall id ::
      Get(byId, id).id == id && Get(byId, id) == FoldPods(o, Get(start, id), pods, times)
  }

  lemma FoldsPvcMore(byId: map<string, WorkerInfo>, pvcs: seq<Pvc>, i: nat)
    requires i < |pvcs| && FoldsPvcs(byId, pvcs[..i])
    ensures var p := pvcs[i];
      var id := p.labels.Owner();
      FoldsPvcs(if p.deletedAt.None? then byId[id := MergePvc(Get(byId, id), p)] else byId, pvcs[..i + 1])
  {
    hide MergePvc;
    assert pvcs[..i + 1][..i] == pvcs[..i];
    var p, own := pvcs[i], pvcs[i].labels.Owner();
    var next := if p.deletedAt.None? then byId[own := MergePvc(Get(byId, own), p)] else byId;
    assert pvcs[..i + 1][i] == p;
    forall id ensures Get(next, id) == FoldPvcs(id, pvcs[..i + 1]) {
      assert Get(byId, id) == FoldPvcs(id, pvcs[..i]);
    }
  }

  lemma FoldsPodMore(o: Options, start: map<string, WorkerInfo>, byId: map<string, WorkerInfo>, pods: seq<Pod>, i: nat,
      times: seq<Time>, now: Time)
    requires i < |pods| && FoldsPods(o, start, byId, pods[..i], times) && forall id :: Get(start, id).id == id
    ensures var p := pods[i];
      var id := p.labels.Owner();
      FoldsPods(o, start, byId[id := MergePod(o, Get(byId, id), p, now)], pods[..i + 1], times + [now])
  {
    hide MergePod;
    MergeKeepsId(o, Get(byId, pods[i].labels.Owner()), pods[i], now);
    assert pods[..i + 1][..i] == pods[..i] && (times + [now])[..i] == times;
  }

  lemma MergeKeepsId(o: Options, w: WorkerInfo, p: Pod, now: Time)
    ensures MergePod(o, w, p, now).id == w.id
  {
  }

  // ---- the aggregate -----------------------------------------------------------------------------

  /** What one object says about a worker, whatever the order it is met in. */
  datatype Fact = Fact(id: string, pool: string, requestId: string, created: Time, active: Time,
    running: Option<Running>)

  function PvcFact(p: Pvc): Fact {
    Fact(p.labels.Owner(), p.labels.pool, p.ann.requestId, p.created, Latest([p.created, p.ann.lastClaimedAt]), None)
  }

  function PodFact(o: Options, p: Pod, now: Time): Fact {
    Fact(p.labels.Owner(), p.labels.pool, p.ann.requestId, p.created,
         Latest([p.created, p.ann.lastClaimedAt, FinishedAt(p)]), Some(PodState(o, p, now)))
  }

  predicate About(id: string, f: Fact) { f.id == id }

  predicate SaysLive(f: Fact) { f.running.Some? && f.running.value.live }

  predicate SaysTimedOut(f: Fact) { f.running.Some? && f.running.value.timedOut }

  /** Live iff some pod is; timed out iff none is live and some pod timed out. */
  predicate LiveRight(w: WorkerInfo, facts: seq<Fact>) {
    && (w.live == Some(true) <==> exists f :: f in facts && About(w.id, f) && SaysLive(f))
    && (w.startupTimedOut <==> w.live != Some(true) && exists f :: f in facts && About(w.id, f) && SaysTimedOut(f))
  }

  /** Created at the minimum non-zero time; last active at the maximum. */
  predicate TimesRight(w: WorkerInfo, facts: seq<Fact>) {
    && (forall f :: f in facts && About(w.id, f) && f.created != 0 ==> 0 < w.createdAt <= f.created)
    && (w.createdAt != 0 ==> exists f :: f in facts && About(w.id, f) && f.created == w.createdAt)
    && (forall f :: f in facts && About(w.id, f) ==> f.active <= w.lastActivity)
    && (w.lastActivity != 0 ==> exists f :: f in facts && About(w.id, f) && f.active == w.lastActivity)
  }

  /** A request is named iff some object names one, and it is one of those; likewise
      the pool, except that a later claim without a pool clears an earlier one's. */
  predicate NamesRight(w: WorkerInfo, facts: seq<Fact>) {
    && (w.requestId != "" <==> exists f :: f in facts && About(w.id, f) && f.requestId != "")
    && (w.requestId != "" ==> exists f :: f in facts && About(w.id, f) && f.requestId == w.requestId)
    && (w.pool != "" ==> exists f :: f in facts && About(w.id, f) && f.pool == w.pool)
    && ((exists f :: f in facts && About(w.id, f) && f.running.Some? && f.pool != "") ==> w.pool != "")
  }

  predicate Summary(w: WorkerInfo, facts: seq<Fact>) {
    LiveRight(w, facts) && TimesRight(w, facts) && NamesRight(w, facts)
  }

  predicate Mentioned(id: string, facts: seq<Fact>) { exists f :: f in facts && About(id, f) }

  /** Facts about other workers do not matter. */
  lemma OthersDoNotMatter(w: WorkerInfo, facts: seq<Fact>, f: Fact)
    requires Summary(w, facts) && !About(w.id, f)
    ensures Summary(w, facts + [f])
  {
  }

  lemma PvcStepTimes(w: WorkerInfo, facts: seq<Fact>, p: Pvc)
    requires TimesRight(w, facts) && w.id == p.labels.Owner()
    ensures TimesRight(MergePvc(w, p), facts + [PvcFact(p)])
  {
    var f := PvcFact(p);
    LatestOf(w.lastActivity, [p.created, p.ann.lastClaimedAt]);
    assert [w.lastActivity] + [p.created, p.ann.lastClaimedAt] == [w.lastActivity, p.created, p.ann.lastClaimedAt];
    hide Latest;
    TimesStep(w, facts, f, MergePvc(w, p));
  }

  /** Taking the earliest and the latest keeps the minimum and the maximum. */
  lemma TimesStep(w: WorkerInfo, facts: seq<Fact>, f: Fact, v: WorkerInfo)
    requires TimesRight(w, facts) && About(w.id, f) && v.id == w.id
    requires v.createdAt == Earliest(w.createdAt, f.created)
    requires v.lastActivity == if w.lastActivity > f.active then w.lastActivity else f.active
    ensures TimesRight(v, facts + [f])
  {
  }

  lemma PvcStep(w: WorkerInfo, facts: seq<Fact>, p: Pvc)
    requires Summary(w, facts) && w.id == p.labels.Owner() && forall f :: f in facts ==> f.running.None?
    ensures Summary(MergePvc(w, p), facts + [PvcFact(p)])
  {
    PvcStepTimes(w, facts, p);
    hide Latest, TimesRight;
    var f := PvcFact(p);
    var all := facts + [f];
    assert About(w.id, f) && f in all && forall g :: g in facts ==> g in all;
    assert forall g :: g in all ==> g in facts || g == f;
  }

  lemma PodStepLive(o: Options, w: WorkerInfo, facts: seq<Fact>, p: Pod, now: Time)
    requires LiveRight(w, facts) && w.id == p.labels.Owner()
    ensures LiveRight(MergePod(o, w, p, now), facts + [PodFact(o, p, now)])
  {
    hide PodState;
    var f := PodFact(o, p, now);
    var all := facts + [f];
    PodStateExclusive(o, p, now);
    assert About(w.id, f) && f in all && forall g :: g in facts ==> g in all;
    assert forall g :: g in all ==> g in facts || g == f;
  }

  lemma PodStateExclusive(o: Options, p: Pod, now: Time)
    ensures !(PodState(o, p, now).live && PodState(o, p, now).timedOut)
  {
  }

  lemma PodStepTimes(o: Options, w: WorkerInfo, facts: seq<Fact>, p: Pod, now: Time)
    requires TimesRight(w, facts) && w.id == p.labels.Owner()
    ensures TimesRight(MergePod(o, w, p, now), facts + [PodFact(o, p, now)])
  {
    hide PodState, FinishedAt;
    var times := [p.created, p.ann.lastClaimedAt, FinishedAt(p)];
    LatestOf(w.lastActivity, times);
    assert [w.lastActivity] + times == [w.lastActivity, p.created, p.ann.lastClaimedAt, FinishedAt(p)];
    hide Latest;
    TimesStep(w, facts, PodFact(o, p, now), MergePod(o, w, p, now));
  }

  lemma PodStepNames(o: Options, w: WorkerInfo, facts: seq<Fact>, p: Pod, now: Time)
    requires NamesRight(w, facts) && w.id == p.labels.Owner()
    ensures NamesRight(MergePod(o, w, p, now), facts + [PodFact(o, p, now)])
  {
  }

  lemma PodStep(o: Options, w: WorkerInfo, facts: seq<Fact>, p: Pod, now: Time)
    requires Summary(w, facts) && w.id == p.labels.Owner()
    ensures Summary(MergePod(o, w, p, now), facts + [PodFact(o, p, now)])
  {
    PodStepLive(o, w, facts, p, now);
    PodStepTimes(o, w, facts, p, now);
    PodStepNames(o, w, facts, p, now);
  }

  // ---- the merge over whole lists --------------------------------------------------------------

  /** One record per worker mentioned so far, each a summary of what was said. */
  ghost predicate Merged(byId: map<string, WorkerInfo>, facts: seq<Fact>) {
    forall id :: (id in byId <==> Mentioned(id, facts))
      && (id in byId ==> byId[id].id == id && Summary(byId[id], facts))
  }

  lemma MergedStep(byId: map<string, WorkerInfo>, facts: seq<Fact>, f: Fact, v: WorkerInfo)
    requires Merged(byId, facts) && v.id == f.id && Summary(v, facts + [f])
    ensures Merged(byId[f.id := v], facts + [f])
  {
    hide Summary;
    var all := facts + [f];
    var then_ := byId[f.id := v];
    assert f in all && About(f.id, f);
    forall id ensures (id in then_ <==> Mentioned(id, all))
      && (id in then_ ==> then_[id].id == id && Summary(then_[id], all)) {
      MentionedMore(id, facts, f);
      if id != f.id && id in byId { OthersDoNotMatter(byId[id], facts, f); }
    }
  }

  lemma MentionedMore(id: string, facts: seq<Fact>, f: Fact)
    ensures Mentioned(id, facts + [f]) <==> Mentioned(id, facts) || About(id, f)
  {
  }

  lemma GetSummary(byId: map<string, WorkerInfo>, facts: seq<Fact>, id: string)
    requires Merged(byId, facts)
    ensures Get(byId, id).id == id && Summary(Get(byId, id), facts)
  {
  }

  predicate ById(a: WorkerInfo, b: WorkerInfo) { Less(a.id, b.id) }

  /** A worker's final record: a summary in which the liveness is known. */
  predicate Reports(w: WorkerInfo, facts: seq<Fact>) { Summary(w, facts) && w.live.Some? && w.id != "" }

  /** The result: strictly sorted by id, one record for each non-empty id mentioned. */
  ghost predicate IsReport(out: seq<WorkerInfo>, facts: seq<Fact>) {
    && (forall i, j :: 0 <= i < j < |out| ==> Less(out[i].id, out[j].id))
    && (forall w :: w in out ==> Reports(w, facts))
    && (forall id :: id != "" && Mentioned(id, facts) ==> exists w :: w in out && w.id == id)
    && (forall w :: w in out ==> Mentioned(w.id, facts))
  }

  function Known(w: WorkerInfo): WorkerInfo { if w.live.None? then w.(live := Some(false)) else w }

  lemma KnownSummary(w: WorkerInfo, facts: seq<Fact>)
    requires Summary(w, facts)
    ensures Summary(Known(w), facts)
  {
  }

  /** Takes the records out of the map, in whatever order it yields them, and sorts. */
  method Collect(byId: map<string, WorkerInfo>, ghost facts: seq<Fact>) returns (out: seq<WorkerInfo>)
    requires Merged(byId, facts)
    ensures IsReport(out, facts)
    ensures forall r :: r in out ==> r == Known(Get(byId, r.id))
  {
    hide Summary;
    var todo := byId.Keys;
    var list: seq<WorkerInfo> := [];
    while todo != {}
      invariant todo <= byId.Keys
      invariant forall w :: w in list ==> w.id in byId && w.id !in todo && Reports(w, facts) && w == Known(byId[w.id])
      invariant forall id :: id in byId && id !in todo && id != "" ==> exists w :: w in list && w.id == id
      invariant forall i, j :: 0 <= i < j < |list| ==> list[i].id != list[j].id
    {
      var id :| id in todo;
      todo := todo - {id};
      if id != "" {
        KnownSummary(byId[id], facts);
        ghost var before := list;
        list := list + [Known(byId[id])];
        assert list[|before|].id == id;
        assert forall w :: w in before ==> w in list;
      }
    }
    Sorting.KeyOrders(ById, (r: WorkerInfo) => r.id);
    out := Sorting.Sort(list, ById);
    Sorting.SameElements(out, list);
    Sorting.SortedStrictly(out, list, ById, (r: WorkerInfo) => r.id);
  }
}
