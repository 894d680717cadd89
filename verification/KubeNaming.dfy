/** The request ListWorkers names, over all orders in which claims and pods may be
    listed (internal/backend/kube/kube.go:269-300). */
module KubeNaming {
  import opened Common
  import opened Backend
  import opened KubeStore
  import opened KubeListing
  import opened KubeRequest
  import Sorting

  function ActiveOf(p: Pod): Time { Latest([p.created, p.ann.lastClaimedAt, FinishedAt(p)]) }

  function ClaimantOf(p: Pod): (c: Claimant)
    ensures c.claimed <= c.active
  {
    assert p.ann.lastClaimedAt in [p.created, p.ann.lastClaimedAt, FinishedAt(p)];
    Claimant(p.ann.requestId, p.ann.lastClaimedAt, ActiveOf(p))
  }

  function Claimants(id: string, pods: seq<Pod>): (os: seq<Claimant>)
    ensures Sane(os)
  {
    if pods == [] then []
    else
      var last := pods[|pods| - 1];
      Claimants(id, pods[..|pods| - 1]) + if last.labels.Owner() == id then [ClaimantOf(last)] else []
  }

  function HeldOf(w: WorkerInfo): Held { Held(w.requestId, w.lastActivity) }

  /** The request named when the objects are listed in this order. */
  function RequestNamed(id: string, pvcs: seq<Pvc>, pods: seq<Pod>): string {
    MeetAll(HeldOf(FoldPvcs(id, pvcs)), Claimants(id, pods)).request
  }

  lemma PodMeets(o: Options, w: WorkerInfo, p: Pod, now: Time)
    ensures HeldOf(MergePod(o, w, p, now)) == Meet(HeldOf(w), ClaimantOf(p))
  {
    var times := [p.created, p.ann.lastClaimedAt, FinishedAt(p)];
    LatestOf(w.lastActivity, times);
    assert [w.lastActivity] + times == [w.lastActivity, p.created, p.ann.lastClaimedAt, FinishedAt(p)];
    hide Latest, FinishedAt, PodState;
  }

  lemma {:induction false} FoldMeets(o: Options, w: WorkerInfo, pods: seq<Pod>, times: seq<Time>)
    requires |pods| == |times|
    ensures HeldOf(FoldPods(o, w, pods, times)) == MeetAll(HeldOf(w), Claimants(w.id, pods))
  {
    if pods != [] {
      var n := |pods| - 1;
      FoldMeets(o, w, pods[..n], times[..n]);
      if pods[n].labels.Owner() == w.id {
        var r := FoldPods(o, w, pods[..n], times[..n]);
        PodMeets(o, r, pods[n], times[n]);
        MeetConcat(HeldOf(w), Claimants(w.id, pods[..n]), [ClaimantOf(pods[n])]);
        assert [ClaimantOf(pods[n])][1..] == [];
      } else {
        assert Claimants(w.id, pods) == Claimants(w.id, pods[..n]);
      }
    }
  }

  /** A record of ListWorkers names the request of this listing. */
  lemma RecordNames(o: Options, r: WorkerInfo, pvcs: seq<Pvc>, pods: seq<Pod>, times: seq<Time>)
    requires |pods| == |times| && r == Known(FoldPods(o, FoldPvcs(r.id, pvcs), pods, times))
    ensures r.requestId == RequestNamed(r.id, pvcs, pods)
  {
    FoldMeets(o, FoldPvcs(r.id, pvcs), pods, times);
  }

  // ---- orders of the pods ------------------------------------------------------------------

  lemma {:induction false} ClaimantsConcat(id: string, a: seq<Pod>, b: seq<Pod>)
    ensures Claimants(id, a + b) == Claimants(id, a) + Claimants(id, b)
    decreases |b|
  {
    if b == [] {
      assert a + b == a;
    } else {
      var front := b[..|b| - 1];
      assert (a + b)[..|a + b| - 1] == a + front;
      ClaimantsConcat(id, a, front);
    }
  }

  function One(id: string, p: Pod): seq<Claimant> { if p.labels.Owner() == id then [ClaimantOf(p)] else [] }

  lemma ClaimantsOfOne(id: string, p: Pod)
    ensures Claimants(id, [p]) == One(id, p)
  {
    assert [p][..0] == [];
  }

  lemma TakeOut(id: string, pods: seq<Pod>, p: Pod) returns (rest: seq<Pod>)
    requires p in pods
    ensures multiset(pods) == multiset{p} + multiset(rest) && |rest| == |pods| - 1
    ensures multiset(Claimants(id, pods)) == multiset(One(id, p)) + multiset(Claimants(id, rest))
  {
    var i :| 0 <= i < |pods| && pods[i] == p;
    rest := pods[..i] + pods[i + 1..];
    assert pods == pods[..i] + [p] + pods[i + 1..];
    ClaimantsOfOne(id, p);
    ClaimantsConcat(id, pods[..i] + [p], pods[i + 1..]);
    ClaimantsConcat(id, pods[..i], [p]);
    ClaimantsConcat(id, pods[..i], pods[i + 1..]);
  }

  lemma {:induction false} ReorderedClaimants(id: string, pods: seq<Pod>, ps: seq<Pod>)
    requires multiset(ps) == multiset(pods)
    ensures multiset(Claimants(id, ps)) == multiset(Claimants(id, pods))
    decreases |ps|
  {
    Sorting.SameElements(ps, pods);
    if ps != [] {
      var p := ps[0];
      assert p in ps;
      var a := TakeOut(id, ps, p);
      var b := TakeOut(id, pods, p);
      assert multiset(a) == multiset(ps) - multiset{p} == multiset(b);
      ReorderedClaimants(id, b, a);
    }
  }

  lemma {:induction false} ClaimantHasPod(id: string, pods: seq<Pod>, o: Claimant) returns (p: Pod)
    requires o in Claimants(id, pods)
    ensures p in pods && p.labels.Owner() == id && ClaimantOf(p) == o
  {
    var last := pods[|pods| - 1];
    if last.labels.Owner() == id && ClaimantOf(last) == o {
      p := last;
    } else {
      p := ClaimantHasPod(id, pods[..|pods| - 1], o);
    }
  }

  lemma Behead<T>(s: seq<T>, rest: seq<T>)
    requires s != [] && multiset(s) == multiset([s[0]]) + multiset(rest)
    ensures multiset(s[1..]) == multiset(rest) && s == [s[0]] + s[1..]
  {
    assert s == [s[0]] + s[1..];
    assert multiset(s[1..]) == multiset(s) - multiset([s[0]]) == multiset(rest);
  }

  /** Every order of the claimants is that of some order of the pods. */
  lemma {:induction false} OrderedPods(id: string, pods: seq<Pod>, os: seq<Claimant>) returns (ps: seq<Pod>)
    requires multiset(os) == multiset(Claimants(id, pods))
    ensures multiset(ps) == multiset(pods) && Claimants(id, ps) == os
    decreases |os|
  {
    Sorting.SameElements(os, Claimants(id, pods));
    if os == [] {
      ps := pods;
    } else {
      assert os[0] in os;
      var p := ClaimantHasPod(id, pods, os[0]);
      var rest := TakeOut(id, pods, p);
      assert One(id, p) == [os[0]];
      hide ClaimantOf, Claimants, One;
      Behead(os, Claimants(id, rest));
      var qs := OrderedPods(id, rest, os[1..]);
      ps := [p] + qs;
      ClaimantsOfOne(id, p);
      ClaimantsConcat(id, [p], qs);
    }
  }

  // ---- orders of the claims -------------------------------------------------------------------

  predicate Counts(id: string, c: Pvc) { c.deletedAt.None? && c.labels.Owner() == id }

  predicate NamesSome(id: string, c: Pvc) { Counts(id, c) && c.ann.requestId != "" }

  /** Some order of the claims leaves this request: any that a claim names, or none. */
  predicate MayStart(id: string, pvcs: seq<Pvc>, q: string) {
    if exists c :: c in pvcs && NamesSome(id, c) then exists c :: c in pvcs && NamesSome(id, c) && c.ann.requestId == q
    else q == ""
  }

  function PvcActive(c: Pvc): Time { Latest([c.created, c.ann.lastClaimedAt]) }

  lemma PvcRaises(w: WorkerInfo, c: Pvc)
    ensures MergePvc(w, c).lastActivity == if w.lastActivity > PvcActive(c) then w.lastActivity else PvcActive(c)
    ensures MergePvc(w, c).requestId == if c.ann.requestId != "" then c.ann.requestId else w.requestId
  {
    LatestOf(w.lastActivity, [c.created, c.ann.lastClaimedAt]);
    assert [w.lastActivity] + [c.created, c.ann.lastClaimedAt] == [w.lastActivity, c.created, c.ann.lastClaimedAt];
  }

  lemma {:induction false} FoldStarts(id: string, pvcs: seq<Pvc>)
    ensures MayStart(id, pvcs, FoldPvcs(id, pvcs).requestId)
    ensures forall c :: c in pvcs && Counts(id, c) ==> PvcActive(c) <= FoldPvcs(id, pvcs).lastActivity
    ensures FoldPvcs(id, pvcs).lastActivity == 0 || exists c ::
      c in pvcs && Counts(id, c) && PvcActive(c) == FoldPvcs(id, pvcs).lastActivity
  {
    if pvcs != [] {
      var front, last := pvcs[..|pvcs| - 1], pvcs[|pvcs| - 1];
      FoldStarts(id, front);
      PvcRaises(FoldPvcs(id, front), last);
      hide MergePvc, PvcActive;
      assert forall c :: c in pvcs <==> c in front || c == last;
    }
  }

  /** Of the activity, the order of the claims tells nothing. */
  lemma SameActivity(id: string, pvcs: seq<Pvc>, vs: seq<Pvc>)
    requires multiset(vs) == multiset(pvcs)
    ensures FoldPvcs(id, vs).lastActivity == FoldPvcs(id, pvcs).lastActivity
    ensures forall q :: MayStart(id, vs, q) <==> MayStart(id, pvcs, q)
  {
    Sorting.SameElements(vs, pvcs);
    FoldStarts(id, vs);
    FoldStarts(id, pvcs);
    hide PvcActive, FoldPvcs;
  }

  lemma StartWith(id: string, pvcs: seq<Pvc>, q: string) returns (vs: seq<Pvc>)
    requires MayStart(id, pvcs, q)
    ensures multiset(vs) == multiset(pvcs) && FoldPvcs(id, vs).requestId == q
  {
    if c :| c in pvcs && NamesSome(id, c) && c.ann.requestId == q {
      var rest := Without(pvcs, c);
      vs := rest + [c];
      assert vs[..|rest|] == rest;
    } else {
      vs := pvcs;
      FoldStarts(id, pvcs);
    }
  }

  // ---- all orders ---------------------------------------------------------------------------------

  /** In whatever order the objects are listed, the worker's record names `r`. */
  ghost predicate EveryListing(id: string, pvcs: seq<Pvc>, pods: seq<Pod>, r: string) {
    forall vs, ps :: multiset(vs) == multiset(pvcs) && multiset(ps) == multiset(pods) ==> RequestNamed(id, vs, ps) == r
  }

  /** Whichever request the claims leave, the pods' is decided. */
  ghost predicate AlwaysDecided(id: string, pvcs: seq<Pvc>, pods: seq<Pod>, r: string) {
    forall q :: MayStart(id, pvcs, q) ==> Decided(Held(q, FoldPvcs(id, pvcs).lastActivity), Claimants(id, pods), r)
  }

  /** The request named does not depend on the listing order exactly when, after any
      request the claims may leave, it is unanimous among the pods that could take over,
      or decided since some moment. */
  lemma NamedExactlyWhen(id: string, pvcs: seq<Pvc>, pods: seq<Pod>, r: string)
    requires r != ""
    ensures EveryListing(id, pvcs, pods, r) <==> AlwaysDecided(id, pvcs, pods, r)
  {
    if AlwaysDecided(id, pvcs, pods, r) {
      forall vs, ps | multiset(vs) == multiset(pvcs) && multiset(ps) == multiset(pods)
        ensures RequestNamed(id, vs, ps) == r {
        DecidedNames(id, pvcs, pods, vs, ps, r);
      }
    } else {
      var q :| MayStart(id, pvcs, q) && !Decided(Held(q, FoldPvcs(id, pvcs).lastActivity), Claimants(id, pods), r);
      var vs, ps := UndecidedListing(id, pvcs, pods, q, r);
    }
  }

  lemma DecidedNames(id: string, pvcs: seq<Pvc>, pods: seq<Pod>, vs: seq<Pvc>, ps: seq<Pod>, r: string)
    requires r != "" && AlwaysDecided(id, pvcs, pods, r) && multiset(vs) == multiset(pvcs)
    requires multiset(ps) == multiset(pods)
    ensures RequestNamed(id, vs, ps) == r
  {
    FoldStarts(id, vs);
    SameActivity(id, pvcs, vs);
    ReorderedClaimants(id, pods, ps);
    var h := HeldOf(FoldPvcs(id, vs));
    hide FoldPvcs, Decided, Claimants;
    assert MayStart(id, pvcs, h.request);
    DecidedAnyOrder(h, Claimants(id, pods), Claimants(id, ps), r);
    DecidedHolds(h, Claimants(id, ps), r);
  }

  lemma UndecidedListing(id: string, pvcs: seq<Pvc>, pods: seq<Pod>, q: string,
      r: string) returns (vs: seq<Pvc>, ps: seq<Pod>)
    requires r != "" && MayStart(id, pvcs, q)
    requires !Decided(Held(q, FoldPvcs(id, pvcs).lastActivity), Claimants(id, pods), r)
    ensures multiset(vs) == multiset(pvcs) && multiset(ps) == multiset(pods) && RequestNamed(id, vs, ps) != r
  {
    vs := StartWith(id, pvcs, q);
    SameActivity(id, pvcs, vs);
    hide FoldPvcs, Decided, Claimants;
    var os := UndecidedOrder(HeldOf(FoldPvcs(id, vs)), Claimants(id, pods), r);
    ps := OrderedPods(id, pods, os);
  }

  /** A pod whose claim stamp is later than all other activity names the request in every order. */
  lemma LatestClaimNames(id: string, pvcs: seq<Pvc>, pods: seq<Pod>, p: Pod)
    requires p in pods && p.labels.Owner() == id && p.ann.requestId != ""
    requires forall x :: x in pods && x != p && x.labels.Owner() == id ==> ActiveOf(x) < p.ann.lastClaimedAt
    requires forall c :: c in pvcs && Counts(id, c) ==> PvcActive(c) < p.ann.lastClaimedAt
    requires p.ann.lastClaimedAt > 0
    ensures EveryListing(id, pvcs, pods, p.ann.requestId)
  {
    var r, t := p.ann.requestId, p.ann.lastClaimedAt;
    FoldStarts(id, pvcs);
    var os := Claimants(id, pods);
    forall o | o in os ensures o.active < t || Since1(o, r, t) {
      var x := ClaimantHasPod(id, pods, o);
    }
    PodIsClaimant(id, pods, p);
    assert Since1(ClaimantOf(p), r, t);
    forall q | MayStart(id, pvcs, q) ensures Decided(Held(q, FoldPvcs(id, pvcs).lastActivity), os, r) {
      assert Since(Held(q, FoldPvcs(id, pvcs).lastActivity), os, r, t);
    }
    NamedExactlyWhen(id, pvcs, pods, r);
  }

  lemma {:induction false} PodIsClaimant(id: string, pods: seq<Pod>, p: Pod)
    requires p in pods && p.labels.Owner() == id
    ensures ClaimantOf(p) in Claimants(id, pods)
  {
    if pods[|pods| - 1] != p { PodIsClaimant(id, pods[..|pods| - 1], p); }
  }

  /** Two pods that name different requests: the two orders agree exactly when one was
      claimed after all activity of the other. */
  lemma TwoPodsExactlyWhen(o: Options, p: Pod, q: Pod, now: Time)
    requires p.ann.requestId != "" && q.ann.requestId != "" && p.ann.requestId != q.ann.requestId
    ensures MergePod(o, MergePod(o, Fresh(""), p, now), q, now).requestId
      == MergePod(o, MergePod(o, Fresh(""), q, now), p, now).requestId
      <==> q.ann.lastClaimedAt > ActiveOf(p) || p.ann.lastClaimedAt > ActiveOf(q)
  {
    PodMeets(o, Fresh(""), p, now);
    PodMeets(o, Fresh(""), q, now);
    PodMeets(o, MergePod(o, Fresh(""), p, now), q, now);
    PodMeets(o, MergePod(o, Fresh(""), q, now), p, now);
    hide MergePod;
  }
}
