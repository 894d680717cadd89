/** ListWorkers against the cluster, and what its result does and does not depend on. */
module KubeReport {
  import opened Common
  import opened Backend
  import opened KubeStore
  import opened ClusterApi
  import opened KubeListing
  import opened KubeFacts
  import opened KubeStartup
  import KubeRuns

  /** The lists are what the cluster held when the call first looked. */
  ghost predicate Listings(o: Options, log: seq<Moment>, from: nat, pvcs: seq<Pvc>, pods: seq<Pod>) {
    if o.persistent then
      && from + 1 < |log| && log[from].Outside? && log[from + 1].Outside?
      && ManagedPvcs(pvcs, log[from].state) && ManagedPods(pods, log[from + 1].state)
    else
      from < |log| && pvcs == [] && ManagedPods(pods, log[from].state)
  }

  /** The only writes are startup markers, on listed live pods that have started and carried none. */
  ghost predicate OnlyMarks(o: Options, pods: seq<Pod>, log: seq<Moment>, from: nat) {
    forall i | from <= i < |log| && log[i].Own? ::
      log[i].state == log[i].before || exists p ::
        p in pods && Worked(o, p) && !p.ann.started && Marks(p, log[i].before, log[i].state)
  }

  /** The listed pods are still there. */
  ghost predicate Present(pods: seq<Pod>, s: Store) {
    forall p :: p in pods ==> p.name in s.pods && s.pods[p.name].uid == p.uid
  }

  /** At some moment of the call this very pod carried the marker. */
  ghost predicate EvidenceKept(log: seq<Moment>, from: nat, p: Pod) {
    exists k | from <= k < |log| ::
      p.name in log[k].state.pods && log[k].state.pods[p.name].uid == p.uid && log[k].state.pods[p.name].ann.started
  }

  predicate Worked(o: Options, p: Pod) { IsLive(p) && HasStarted(o, p) }

  method MergePvcs(pvcs: seq<Pvc>) returns (byId: map<string, WorkerInfo>)
    ensures Merged(byId, PvcFacts(pvcs)) && forall f :: f in PvcFacts(pvcs) ==> f.running.None?
    ensures FoldsPvcs(byId, pvcs)
  {
    hide Summary, Merged, FoldsPvcs;
    byId := map[];
    NothingMerged();
    for i := 0 to |pvcs|
      invariant FoldsPvcs(byId, pvcs[..i])
      invariant Merged(byId, PvcFacts(pvcs[..i])) && forall f :: f in PvcFacts(pvcs[..i]) ==> f.running.None?
    {
      var p := pvcs[i];
      ghost var facts := PvcFacts(pvcs[..i]);
      PvcFactsMore(pvcs, i);
      FoldsPvcMore(byId, pvcs, i);
      if p.deletedAt.None? {
        var id := p.labels.Owner();
        var v := MergePvc(Get(byId, id), p);
        GetSummary(byId, facts, id);
        PvcStep(Get(byId, id), facts, p);
        MergedStep(byId, facts, PvcFact(p), v);
        byId := byId[id := v];
      }
    }
    assert pvcs[..|pvcs|] == pvcs;
  }

  lemma NothingMerged()
    ensures Merged(map[], []) && FoldsPvcs(map[], [])
  {
  }

  lemma PvcFactsMore(pvcs: seq<Pvc>, i: nat)
    requires i < |pvcs|
    ensures PvcFacts(pvcs[..i + 1]) == if pvcs[i].deletedAt.Some? then PvcFacts(pvcs[..i])
      else PvcFacts(pvcs[..i]) + [PvcFact(pvcs[i])]
  {
    assert pvcs[..i + 1][..i] == pvcs[..i] && pvcs[..i + 1][i] == pvcs[i];
  }

  lemma MarkedLater(log: seq<Moment>, longer: seq<Moment>, from: nat, p: Pod)
    requires log <= longer && EvidenceKept(log, from, p)
    ensures EvidenceKept(longer, from, p)
  {
  }

  lemma MarkedNow(log: seq<Moment>, from: nat, k: nat, p: Pod)
    requires from <= k < |log|
    requires p.name in log[k].state.pods && log[k].state.pods[p.name].uid == p.uid
    requires log[k].state.pods[p.name].ann.started
    ensures EvidenceKept(log, from, p)
  {
  }

  lemma MarkLogged(o: Options, pods: seq<Pod>, p: Pod, log: seq<Moment>, from: nat, mid: Store, s: Store)
    requires from <= |log| && OnlyMarks(o, pods, log, from)
    requires s == mid || (p in pods && Worked(o, p) && !p.ann.started && Marks(p, mid, s))
    ensures OnlyMarks(o, pods, log + [Outside(mid), Own(mid, s)], from)
  {
    hide Worked;
  }

  lemma StaysPresent(pods: seq<Pod>, p: Pod, s: Store, t: Store)
    requires Present(pods, s) && (t == s || Marks(p, s, t))
    ensures Present(pods, t)
  {
  }

  lemma ListedIsPresent(pods: seq<Pod>, s: Store)
    requires ManagedPods(pods, s) && StoreOk(s)
    ensures Present(pods, s)
  {
  }

  lemma FindPresent(pods: seq<Pod>, i: nat, s: Store)
    requires i < |pods| && Present(pods, s)
    ensures pods[i].name in s.pods && s.pods[pods[i].name].uid == pods[i].uid
  {
    assert pods[i] in pods;
  }

  /** Records the startup of a live pod that has started, unless it is recorded. */
  method MarkIfStarted(c: Cluster, o: Options, pods: seq<Pod>, i: nat, ghost first: seq<Moment>) returns (ok: bool)
    requires c.ValidForAll() && i < |pods|
    requires first != [] && first <= c.log && ManagedPods(pods, first[|first| - 1].state)
    requires StoreOk(first[|first| - 1].state)
    modifies c
    ensures c.ValidForAll() && old(c.log) <= c.log && OnlyMarks(o, pods, c.log, |old(c.log)|)
    ensures ok && Worked(o, pods[i]) ==> EvidenceKept(c.log, |first| - 1, pods[i])
    ensures c.Quiet() && Present(pods, old(c.store)) ==> ok && Present(pods, c.store)
  {
    hide c.ValidForAll, c.Quiet, ManagedPods, OnlyMarks, EvidenceKept, StoreOk, Marks, Present;
    var p := pods[i];
    ghost var log, s := c.log, c.store;
    NoMarks(o, pods, log);
    ok := true;
    if IsLive(p) && HasStarted(o, p) && !p.ann.started {
      ghost var mid;
      ok, mid := c.MarkPod(p);
      MarkLogged(o, pods, p, log, |log|, mid, c.store);
      if ok { MarkedNow(c.log, |first| - 1, |c.log| - 1, p); }
      if c.Quiet() && Present(pods, s) {
        FindPresent(pods, i, s);
        StaysPresent(pods, p, mid, c.store);
      }
    } else if p.ann.started {
      AlreadyMarked(pods, i, first, c.log);
    }
  }

  /** The pods loop: record startups that are not yet recorded, and merge. */
  method MergePods(c: Cluster, o: Options, start: map<string, WorkerInfo>, ghost known: seq<Fact>, pods: seq<Pod>)
    returns (byId: map<string, WorkerInfo>, ok: bool, ghost times: seq<Time>)
    requires c.ValidForAll() && Merged(start, known) && forall id :: Get(start, id).id == id
    requires c.log != [] && ManagedPods(pods, c.log[|c.log| - 1].state) && StoreOk(c.log[|c.log| - 1].state)
    modifies c
    ensures c.ValidForAll() && old(c.log) <= c.log && OnlyMarks(o, pods, c.log, |old(c.log)|)
    ensures ok ==> |times| == |pods| && Merged(byId, known + PodFacts(o, pods, times))
    ensures ok ==> FoldsPods(o, start, byId, pods, times)
    ensures c.Quiet() && Present(pods, old(c.store)) ==> ok
    ensures ok ==> forall p :: p in pods && Worked(o, p) ==> EvidenceKept(c.log, |old(c.log)| - 1, p)
  {
    assert known + PodFacts(o, pods[..0], []) == known && AllKept(o, pods, 0, c.log, |c.log| - 1);
    hide c.ValidForAll, Summary, ManagedPods, Merged, OnlyMarks, EvidenceKept, StoreOk, Worked, Present, c.Quiet,
      PodFacts, AllKept, FoldsPods, MergePod;
    ghost var log0 := c.log;
    byId, times := start, [];
    NoMarks(o, pods, log0);
    NothingFolded(o, start, pods);
    for i := 0 to |pods|
      invariant c.ValidForAll() && log0 <= c.log && OnlyMarks(o, pods, c.log, |log0|)
      invariant |times| == i && Merged(byId, known + PodFacts(o, pods[..i], times))
      invariant c.Quiet() && Present(pods, old(c.store)) ==> Present(pods, c.store)
      invariant AllKept(o, pods, i, c.log, |log0| - 1)
      invariant FoldsPods(o, start, byId, pods[..i], times)
    {
      var p := pods[i];
      ghost var log1 := c.log;
      var marked := MarkIfStarted(c, o, pods, i, log0);
      MarksJoined(o, pods, log1, c.log, |log0|);
      if !marked {
        return byId, false, times;
      }
      KeptMore(o, pods, i, log1, c.log, |log0| - 1);
      var now := c.Now();
      byId := Merge1(o, start, byId, known, pods, i, times, now);
      times := times + [now];
    }
    assert pods[..|pods|] == pods;
    KeptForAll(o, pods, c.log, |log0| - 1);
    ok := true;
  }

  lemma NothingFolded(o: Options, start: map<string, WorkerInfo>, pods: seq<Pod>)
    requires forall id :: Get(start, id).id == id
    ensures FoldsPods(o, start, start, pods[..0], [])
  {
  }

  /** The first `upTo` pods that are live and have started carried the marker. */
  ghost predicate AllKept(o: Options, pods: seq<Pod>, upTo: nat, log: seq<Moment>, from: nat) {
    forall j :: 0 <= j < upTo && j < |pods| && Worked(o, pods[j]) ==> EvidenceKept(log, from, pods[j])
  }

  lemma KeptMore(o: Options, pods: seq<Pod>, i: nat, log: seq<Moment>, longer: seq<Moment>, from: nat)
    requires i < |pods| && log <= longer && AllKept(o, pods, i, log, from)
    requires Worked(o, pods[i]) ==> EvidenceKept(longer, from, pods[i])
    ensures AllKept(o, pods, i + 1, longer, from)
  {
    forall j | 0 <= j < i && Worked(o, pods[j]) ensures EvidenceKept(longer, from, pods[j]) {
      MarkedLater(log, longer, from, pods[j]);
    }
  }

  lemma KeptForAll(o: Options, pods: seq<Pod>, log: seq<Moment>, from: nat)
    requires AllKept(o, pods, |pods|, log, from)
    ensures forall p :: p in pods && Worked(o, p) ==> EvidenceKept(log, from, p)
  {
  }

  lemma NoMarks(o: Options, pods: seq<Pod>, log: seq<Moment>)
    ensures OnlyMarks(o, pods, log, |log|)
  {
  }

  lemma AlreadyMarked(pods: seq<Pod>, i: nat, first: seq<Moment>, log: seq<Moment>)
    requires first != [] && first <= log && i < |pods| && pods[i].ann.started
    requires ManagedPods(pods, first[|first| - 1].state) && StoreOk(first[|first| - 1].state)
    ensures EvidenceKept(log, |first| - 1, pods[i])
  {
  }

  method Merge1(o: Options, ghost start: map<string, WorkerInfo>, byId: map<string, WorkerInfo>, ghost known: seq<Fact>,
                pods: seq<Pod>, i: nat, ghost times: seq<Time>, now: Time) returns (r: map<string, WorkerInfo>)
    requires i < |pods| && |times| == i && forall id :: Get(start, id).id == id
    requires Merged(byId, known + PodFacts(o, pods[..i], times)) && FoldsPods(o, start, byId, pods[..i], times)
    ensures Merged(r, known + PodFacts(o, pods[..i + 1], times + [now]))
    ensures FoldsPods(o, start, r, pods[..i + 1], times + [now])
  {
    hide Summary, Merged, FoldsPods, PodFacts;
    ghost var facts := known + PodFacts(o, pods[..i], times);
    var p := pods[i];
    var id := p.labels.Owner();
    var v := MergePod(o, Get(byId, id), p, now);
    MergeKeepsId(o, Get(byId, id), p, now);
    hide MergePod;
    GetSummary(byId, facts, id);
    PodStep(o, Get(byId, id), facts, p, now);
    MergedStep(byId, facts, PodFact(o, p, now), v);
    PodFactsMore(o, known, pods, i, times, now);
    FoldsPodMore(o, start, byId, pods, i, times, now);
    r := byId[id := v];
  }

  lemma PodFactsMore(o: Options, known: seq<Fact>, pods: seq<Pod>, i: nat, times: seq<Time>, now: Time)
    requires i < |pods| && |times| == i
    ensures known + PodFacts(o, pods[..i + 1], times + [now])
      == known + PodFacts(o, pods[..i], times) + [PodFact(o, pods[i], now)]
  {
    assert pods[..i + 1][..i] == pods[..i] && (times + [now])[..i] == times;
  }

  /** The claims, listed and merged; nothing to list when workspaces are not kept. */
  method MergeClaims(c: Cluster, o: Options) returns (byId: Option<map<string, WorkerInfo>>, ghost pvcs: seq<Pvc>)
    requires c.ValidForAll()
    modifies c
    ensures c.ValidForAll()
    ensures c.Quiet() ==> byId.Some? && c.store == old(c.store)
    ensures c.log == if o.persistent then old(c.log) + [Outside(c.store)] else old(c.log)
    ensures byId.Some? ==> Merged(byId.value, PvcFacts(pvcs)) && FoldsPvcs(byId.value, pvcs)
    ensures byId.Some? ==> if o.persistent then ManagedPvcs(pvcs, c.store) else pvcs == []
  {
    hide Summary, Merged, c.Quiet, ManagedPvcs, FoldsPvcs;
    pvcs := [];
    var claims: seq<Pvc> := [];
    if o.persistent {
      var listed := c.ListManagedPvcs();
      if listed.None? {
        return None, pvcs;
      }
      claims := listed.value;
      pvcs := claims;
    }
    var merged := MergePvcs(claims);
    byId := Some(merged);
  }

  method ListWorkers(c: Cluster, o: Options)
    returns (out: Option<seq<WorkerInfo>>, ghost pvcs: seq<Pvc>, ghost pods: seq<Pod>, ghost times: seq<Time>)
    requires c.ValidForAll()
    modifies c
    ensures c.ValidForAll() && old(c.log) <= c.log && OnlyMarks(o, pods, c.log, |old(c.log)|)
    ensures c.Quiet() ==> out.Some?
    // A result is the report on what the cluster held when the call looked.
    ensures out.Some? ==> Listings(o, c.log, |old(c.log)|, pvcs, pods)
    ensures out.Some? ==> |times| == |pods| && IsReport(out.value, PvcFacts(pvcs) + PodFacts(o, pods, times))
    // A worker is live exactly if one of its pods is up and has started or is not overdue; it
    // timed out exactly if it is not live and one is up, has not started and is overdue.
    ensures out.Some? ==> forall r :: r in out.value ==>
      (r.live == Some(true) <==> exists i :: ShowsLive(o, r.id, pods, times, i))
    ensures out.Some? ==> forall r :: r in out.value ==>
      (r.startupTimedOut <==> r.live == Some(false) && exists i :: ShowsTimedOut(o, r.id, pods, times, i))
    // Each record is the fold of the worker's objects in the order listed.
    ensures out.Some? ==> forall r :: r in out.value ==> r == Known(FoldPods(o, FoldPvcs(r.id, pvcs), pods, times))
    // Every live pod seen to have started now carries, or has carried, the marker.
    ensures out.Some? ==> forall p :: p in pods && Worked(o, p) ==> EvidenceKept(c.log, |old(c.log)|, p)
  {
    hide c.ValidForAll, Summary, Merged, OnlyMarks, Present, c.Quiet, EvidenceKept, IsReport, ManagedPods, ManagedPvcs,
      Worked, StoreOk, FoldsPvcs, FoldsPods, FoldPods, FoldPvcs, ShowsLive, ShowsTimedOut;
    ghost var log0 := c.log;
    pods, times := [], [];
    var claims;
    claims, pvcs := MergeClaims(c, o);
    ReadOnly(o, [], log0, c.log);
    if claims.None? {
      return None, pvcs, pods, times;
    }
    var listed := c.ListManagedPods();
    ghost var log2 := c.log;
    ReadOnly(o, [], log0, c.log);
    if listed.None? {
      return None, pvcs, pods, times;
    }
    pods := listed.value;
    ReadOnly(o, pods, log0, c.log);
    StoreIsOk(c);
    ListedIsPresent(pods, c.store);
    FoldsHaveIds(claims.value, pvcs);
    var byId, ok;
    byId, ok, times := MergePods(c, o, claims.value, PvcFacts(pvcs), listed.value);
    MarksJoined(o, pods, log2, c.log, |log0|);
    if !ok {
      return None, pvcs, pods, times;
    }
    forall p | p in pods && Worked(o, p) ensures EvidenceKept(c.log, |log0|, p) {
      EvidenceEarlier(c.log, |log2| - 1, |log0|, p);
    }
    var records := Collect(byId, PvcFacts(pvcs) + PodFacts(o, pods, times));
    FoldsChain(o, claims.value, byId, pvcs, pods, times, records);
    AllLiveExactly(records, o, pvcs, pods, times);
    out := Some(records);
  }

  lemma FoldsHaveIds(byId: map<string, WorkerInfo>, pvcs: seq<Pvc>)
    requires FoldsPvcs(byId, pvcs)
    ensures forall id :: Get(byId, id).id == id
  {
  }

  lemma FoldsChain(o: Options, start: map<string, WorkerInfo>, byId: map<string, WorkerInfo>, pvcs: seq<Pvc>,
      pods: seq<Pod>, times: seq<Time>,
                   out: seq<WorkerInfo>)
    requires FoldsPvcs(start, pvcs) && FoldsPods(o, start, byId, pods, times)
    requires forall r :: r in out ==> r == Known(Get(byId, r.id))
    ensures forall r :: r in out ==> r == Known(FoldPods(o, FoldPvcs(r.id, pvcs), pods, times))
  {
    forall r | r in out ensures r == Known(FoldPods(o, FoldPvcs(r.id, pvcs), pods, times)) {
      assert Get(start, r.id) == FoldPvcs(r.id, pvcs);
    }
  }

  lemma StoreIsOk(c: Cluster)
    requires c.ValidForAll()
    ensures StoreOk(c.store)
  {
    assert c.Valid("");
  }

  lemma ReadOnly(o: Options, pods: seq<Pod>, log: seq<Moment>, longer: seq<Moment>)
    requires log <= longer && forall i :: |log| <= i < |longer| ==> longer[i].Outside?
    ensures OnlyMarks(o, pods, longer, |log|)
  {
  }

  lemma MarksJoined(o: Options, pods: seq<Pod>, part: seq<Moment>, whole: seq<Moment>, from: nat)
    requires from <= |part| && part <= whole && OnlyMarks(o, pods, part, from) && OnlyMarks(o, pods, whole, |part|)
    ensures OnlyMarks(o, pods, whole, from)
  {
  }

  lemma EvidenceEarlier(log: seq<Moment>, from: nat, earlier: nat, p: Pod)
    requires earlier <= from && EvidenceKept(log, from, p)
    ensures EvidenceKept(log, earlier, p)
  {
  }

  // ---- the result does not depend on the order ------------------------------------------------

  predicate Agree(a: WorkerInfo, b: WorkerInfo) {
    && a.id == b.id && a.live == b.live && a.startupTimedOut == b.startupTimedOut
    && a.createdAt == b.createdAt && a.lastActivity == b.lastActivity
    && (a.requestId == "" <==> b.requestId == "")
  }

  lemma RecordsAgree(a: WorkerInfo, b: WorkerInfo, one: seq<Fact>, other: seq<Fact>)
    requires Reports(a, one) && Reports(b, other) && a.id == b.id && forall f :: f in one <==> f in other
    ensures Agree(a, b)
  {
    assert a.live == Some(true) <==> b.live == Some(true);
    assert a.live.value <==> b.live.value;
  }

  predicate Ascending(ids: seq<string>) { forall i, j :: 0 <= i < j < |ids| ==> Less(ids[i], ids[j]) }

  lemma EmptyTogether(a: seq<string>, b: seq<string>)
    requires forall x :: x in a <==> x in b
    ensures a == [] <==> b == []
  {
    if a != [] { assert a[0] in a; }
    if b != [] { assert b[0] in b; }
  }

  lemma {:induction false} AscendingUnique(a: seq<string>, b: seq<string>)
    requires Ascending(a) && Ascending(b) && forall x :: x in a <==> x in b
    ensures a == b
  {
    EmptyTogether(a, b);
    if a != [] {
      assert a[0] in b;
      assert b[0] in a;
      LessTotal(a[0], b[0]);
      var i :| 0 <= i < |b| && b[i] == a[0];
      var j :| 0 <= j < |a| && a[j] == b[0];
      assert a[0] == b[0];
      forall x ensures x in a[1..] <==> x in b[1..] {
        LessTotal(a[0], x);
        assert x in a[1..] ==> x in a && Less(a[0], x);
        assert x in b[1..] ==> x in b && Less(b[0], x);
        assert x in a && x != a[0] ==> x in a[1..];
        assert x in b && x != b[0] ==> x in b[1..];
      }
      AscendingUnique(a[1..], b[1..]);
      assert a == [a[0]] + a[1..] && b == [b[0]] + b[1..];
    }
  }

  function Ids(out: seq<WorkerInfo>): (ids: seq<string>) {
    seq(|out|, i requires 0 <= i < |out| => out[i].id)
  }

  /** Two reports on the same objects, listed in any two orders, have the same workers
      in the same places, agreeing on all but which request and pool they name. */
  lemma OrderDoesNotMatter(a: seq<WorkerInfo>, b: seq<WorkerInfo>, one: seq<Fact>, other: seq<Fact>)
    requires IsReport(a, one) && IsReport(b, other) && forall f :: f in one <==> f in other
    ensures |a| == |b| && forall i :: 0 <= i < |a| ==> Agree(a[i], b[i])
  {
    hide Summary;
    forall x | x in Ids(a) ensures x in Ids(b) { IdMoves(a, b, one, other, x); }
    forall x | x in Ids(b) ensures x in Ids(a) { IdMoves(b, a, other, one, x); }
    AscendingUnique(Ids(a), Ids(b));
    forall i | 0 <= i < |a| ensures Agree(a[i], b[i]) {
      assert Ids(a)[i] == a[i].id && Ids(b)[i] == b[i].id;
      assert a[i] in a && b[i] in b;
      RecordsAgree(a[i], b[i], one, other);
    }
  }

  lemma IdMoves(a: seq<WorkerInfo>, b: seq<WorkerInfo>, one: seq<Fact>, other: seq<Fact>, x: string)
    requires IsReport(a, one) && IsReport(b, other) && forall f :: f in one <==> f in other
    requires x in Ids(a)
    ensures x in Ids(b)
  {
    hide Summary;
    var i :| 0 <= i < |a| && a[i].id == x;
    assert a[i] in a && Mentioned(x, one);
    var f :| f in one && About(x, f);
    assert f in other && Mentioned(x, other);
    var w :| w in b && w.id == x;
    var j :| 0 <= j < |b| && b[j] == w;
    assert Ids(b)[j] == x;
  }

  /** The request may depend on the order: a pod claimed at 5 that ended at 9, and its
      successor, woken at 9 for another request. */
  lemma RequestDependsOnOrder(o: Options, p: Pod, q: Pod, now: Time)
    requires p == Pod("w-aaaaa", 1, Labels(true, Some("w"), ""), Annotations("r1", 5, "claim", true, "", ""), 1, None,
                      PodSucceeded, false, [], [ContainerStatus("worker", false, false, 9)])
    requires q == Pod("w-bbbbb", 2, Labels(true, Some("w"), ""), Annotations("r2", 9, "wake", false, "", ""), 9, None,
                      PodPending, false, [], [])
    ensures MergePod(o, MergePod(o, Fresh("w"), p, now), q, now).requestId == "r1"
    ensures MergePod(o, MergePod(o, Fresh("w"), q, now), p, now).requestId == "r2"
  {
    var ended := seq(|p.statuses|, i requires 0 <= i < |p.statuses| => p.statuses[i].finishedAt);
    assert ended[0] == 9 && 9 in ended && FinishedAt(p) == 9;
    assert 9 in [0, 1, 5, FinishedAt(p)] && 9 in [0, 9, 9, FinishedAt(q)];
  }

  // ---- what is left of a disposed worker ---------------------------------------------------

  /** Terminating claims are ignored: a worker whose claims are all terminating is in a
      report only through a pod of its, and is live only if such a pod is. */
  lemma OnlyThroughPods(
      o: Options, pvcs: seq<Pvc>, pods: seq<Pod>, times: seq<Time>, out: seq<WorkerInfo>, r: WorkerInfo)
    requires |times| == |pods| && IsReport(out, PvcFacts(pvcs) + PodFacts(o, pods, times)) && r in out
    requires forall p :: p in pvcs && p.labels.Owner() == r.id ==> p.deletedAt.Some?
    ensures exists p :: p in pods && p.labels.Owner() == r.id
    ensures r.live == Some(true) ==> exists p :: p in pods && p.labels.Owner() == r.id && IsLive(p)
  {
    hide TimesRight, NamesRight;
    var facts := PvcFacts(pvcs) + PodFacts(o, pods, times);
    assert Mentioned(r.id, facts) && LiveRight(r, facts);
    var f :| f in facts && About(r.id, f);
    FactOfPod(o, pvcs, pods, times, r.id, f);
    if r.live == Some(true) {
      var g :| g in facts && About(r.id, g) && SaysLive(g);
      FactOfPod(o, pvcs, pods, times, r.id, g);
    }
  }

  lemma FactOfPod(o: Options, pvcs: seq<Pvc>, pods: seq<Pod>, times: seq<Time>, id: string, f: Fact)
    requires |times| == |pods| && f in PvcFacts(pvcs) + PodFacts(o, pods, times) && About(id, f)
    requires forall p :: p in pvcs && p.labels.Owner() == id ==> p.deletedAt.Some?
    ensures exists p :: p in pods && p.labels.Owner() == id && (SaysLive(f) ==> IsLive(p))
  {
    if f in PvcFacts(pvcs) { PvcFactOrigin(pvcs, f); }
    PodFactOrigin(o, pods, times, f);
    var i :| 0 <= i < |pods| && f == PodFact(o, pods[i], times[i]);
    assert pods[i] in pods;
  }

  /** So one that has no pod either is in no report. */
  lemma DisposedIsNotReported(
      o: Options, pvcs: seq<Pvc>, pods: seq<Pod>, times: seq<Time>, out: seq<WorkerInfo>, id: string)
    requires |times| == |pods| && IsReport(out, PvcFacts(pvcs) + PodFacts(o, pods, times))
    requires forall p :: p in pvcs && p.labels.Owner() == id ==> p.deletedAt.Some?
    requires forall p :: p in pods ==> p.labels.Owner() != id
    ensures forall r :: r in out ==> r.id != id
  {
    hide IsReport;
    forall r | r in out ensures r.id != id {
      if r.id == id { OnlyThroughPods(o, pvcs, pods, times, out, r); }
    }
  }

  // ---- startup evidence is a latch -----------------------------------------------------------------

  /** Once a pod carries the marker, no later pass of any controller, whatever its
      options and the pod's readiness, counts it as timed out. */
  lemma MarkedNeverTimesOut(run: seq<Store>, w: string, n: string, k: nat, j: nat, o: Options, now: Time)
    requires KubeRuns.IsRun(run) && k <= j < |run| && PodNameOf(w, n) && n in run[k].pods && n in run[j].pods
    requires run[j].pods[n].uid == run[k].pods[n].uid && run[k].pods[n].ann.started
    ensures !PodState(o, run[j].pods[n], now).timedOut
    ensures IsLive(run[j].pods[n]) ==> PodState(o, run[j].pods[n], now).live
  {
    KubeRuns.SamePodLater(run, w, n, k, j);
  }

  /** And a later report in which that pod is live says so of its worker. */
  lemma ReportedLive(run: seq<Store>, w: string, n: string, k: nat, j: nat, o: Options,
                     out: seq<WorkerInfo>, pvcs: seq<Pvc>, pods: seq<Pod>, times: seq<Time>, r: WorkerInfo)
    requires KubeRuns.IsRun(run) && k <= j < |run| && PodNameOf(w, n) && n in run[k].pods && n in run[j].pods
    requires run[j].pods[n].uid == run[k].pods[n].uid && run[k].pods[n].ann.started
    requires IsPodOf(w, run[j].pods[n]) && IsLive(run[j].pods[n])
    requires ManagedPods(pods, run[j]) && |times| == |pods| && IsReport(out, PvcFacts(pvcs) + PodFacts(o, pods, times))
    requires r in out && r.id == w
    ensures r.live == Some(true) && !r.startupTimedOut
  {
    hide KubeRuns.IsRun, TimesRight, NamesRight, PodState;
    var p := run[j].pods[n];
    assert p in run[j].pods.Values && p in pods;
    var i :| 0 <= i < |pods| && pods[i] == p;
    MarkedNeverTimesOut(run, w, n, k, j, o, times[i]);
    HasFact(o, pods, times, i);
    var f := PodFact(o, p, times[i]);
    assert f in PvcFacts(pvcs) + PodFacts(o, pods, times) && About(w, f) && SaysLive(f);
    assert LiveRight(r, PvcFacts(pvcs) + PodFacts(o, pods, times));
  }

  /** So: a live pod that an error-free ListWorkers saw started is never again judged
      timed out, at any later moment, by a controller with any options. */
  lemma StartupIsALatch(c: Cluster, w: string, p: Pod, seen: seq<Moment>, from: nat, j: nat, o: Options, now: Time)
    requires KubeRuns.WorldForAll(c) && c.Linked() && KubeRuns.Settled(c.origin)
    requires forall i | 0 <= i < |c.log| :: c.log[i].Own? ==> KubeRuns.BackendWrites(c.log[i].before, c.log[i].state)
    requires seen <= c.log && EvidenceKept(seen, from, p) && |seen| <= j < |c.log| && PodNameOf(w, p.name)
    requires p.name in c.log[j].state.pods && c.log[j].state.pods[p.name].uid == p.uid
    ensures !PodState(o, c.log[j].state.pods[p.name], now).timedOut
  {
    hide KubeRuns.WorldForAll, c.Linked, KubeRuns.Settled, KubeRuns.BackendWrites, KubeRuns.IsRun, PodState;
    var k :| from <= k < |seen| && p.name in seen[k].state.pods && seen[k].state.pods[p.name].uid == p.uid
      && seen[k].state.pods[p.name].ann.started;
    var run := KubeRuns.States(c.origin, c.log);
    KubeRuns.LogIsRun(c);
    assert run[k + 1] == c.log[k].state == seen[k].state && run[j + 1] == c.log[j].state;
    MarkedNeverTimesOut(run, w, p.name, k + 1, j + 1, o, now);
  }
}
