/** Stamping a request on a worker and disposing of it (internal/backend/kube/kube.go
    RecordClaim, Dispose), and what a disposal leaves for the next Wake. */
module KubeDispose {
  import opened Common
  import opened KubeStore
  import opened ClusterApi
  import opened KubeBackend

  // ---- RecordClaim ------------------------------------------------------------------------

  /** Every live listed pod up to `i` now carries the request. */
  ghost predicate Told(w: string, pods: seq<Pod>, i: nat, requestId: string, s: Store) {
    forall j | 0 <= j < i && j < |pods| :: LivePod(s, w, pods[j].name) ==>
      s.pods[pods[j].name].ann.requestId == requestId
  }

  lemma StampTells(w: string, pods: seq<Pod>, i: nat, requestId: string, at: Time, s: Store, t: Store)
    requires i < |pods| && Told(w, pods, i, requestId, s) && Stamps(pods[i].name, requestId, at, s, t)
    ensures Told(w, pods, i + 1, requestId, t)
  {
  }

  /** At some moment from `from` on the pod carried the request. */
  ghost predicate CarriedAt(n: string, requestId: string, log: seq<Moment>, from: nat) {
    exists i | from <= i < |log| :: n in log[i].state.pods && log[i].state.pods[n].ann.requestId == requestId
  }

  lemma CarriedNow(n: string, requestId: string, log: seq<Moment>, from: nat, i: nat)
    requires from <= i < |log| && n in log[i].state.pods && log[i].state.pods[n].ann.requestId == requestId
    ensures CarriedAt(n, requestId, log, from)
  {
  }

  lemma CarriedLater(n: string, requestId: string, log: seq<Moment>, longer: seq<Moment>, from: nat)
    requires log <= longer && CarriedAt(n, requestId, log, from)
    ensures CarriedAt(n, requestId, longer, from)
  {
    var i :| from <= i < |log| && n in log[i].state.pods && log[i].state.pods[n].ann.requestId == requestId;
    assert longer[i] == log[i];
  }

  /** The first `upTo` listed pods, those that are live, carried the request. */
  ghost predicate AllCarried(pods: seq<Pod>, upTo: nat, requestId: string, log: seq<Moment>, from: nat) {
    forall i :: 0 <= i < upTo && i < |pods| && IsLive(pods[i]) ==>
      pods[i].ann.requestId == requestId || CarriedAt(pods[i].name, requestId, log, from)
  }

  lemma CarriedMore(pods: seq<Pod>, i: nat, requestId: string, log: seq<Moment>, longer: seq<Moment>, from: nat)
    requires i < |pods| && log <= longer && AllCarried(pods, i, requestId, log, from)
    requires IsLive(pods[i]) ==> pods[i].ann.requestId == requestId || CarriedAt(pods[i].name, requestId, longer, from)
    ensures AllCarried(pods, i + 1, requestId, longer, from)
  {
    forall j | 0 <= j < i && IsLive(pods[j]) && pods[j].ann.requestId != requestId
      ensures CarriedAt(pods[j].name, requestId, longer, from)
    {
      CarriedLater(pods[j].name, requestId, log, longer, from);
    }
  }

  lemma NoneCarried(pods: seq<Pod>, requestId: string, log: seq<Moment>)
    ensures AllCarried(pods, 0, requestId, log, |log|)
  {
  }

  /** Every pod that was live at moment `k` carried the request then or later. */
  ghost predicate EachTold(w: string, requestId: string, log: seq<Moment>, k: nat)
    requires k < |log|
  {
    forall n | LivePod(log[k].state, w, n) :: CarriedAt(n, requestId, log, k)
  }

  lemma ListedWereTold(w: string, pods: seq<Pod>, requestId: string, s: Store, part: seq<Moment>, log: seq<Moment>)
    requires part != [] && part <= log && part[|part| - 1].state == s && Enumerates(pods, s, w) && StoreOk(s)
    requires AllCarried(pods, |pods|, requestId, log, |part|)
    ensures EachTold(w, requestId, log, |part| - 1)
  {
    var k := |part| - 1;
    assert log[k] == part[k];
    forall n | LivePod(s, w, n) ensures CarriedAt(n, requestId, log, k) {
      assert s.pods[n] in pods;
      var i :| 0 <= i < |pods| && pods[i] == s.pods[n];
      if pods[i].ann.requestId == requestId { CarriedNow(n, requestId, log, k, k); }
    }
  }

  /** At some moment the claim carried the request, or was not there. */
  ghost predicate ClaimTold(w: string, requestId: string, log: seq<Moment>, from: nat) {
    exists i | from <= i < |log| ::
      PvcName(w) in log[i].state.pvcs ==> log[i].state.pvcs[PvcName(w)].ann.requestId == requestId
  }

  lemma ClaimToldAt(w: string, requestId: string, log: seq<Moment>, from: nat, i: nat)
    requires from <= i < |log|
    requires PvcName(w) in log[i].state.pvcs ==> log[i].state.pvcs[PvcName(w)].ann.requestId == requestId
    ensures ClaimTold(w, requestId, log, from)
  {
  }

  lemma ClaimToldLater(w: string, requestId: string, log: seq<Moment>, longer: seq<Moment>, from: nat)
    requires log <= longer && ClaimTold(w, requestId, log, from)
    ensures ClaimTold(w, requestId, longer, from)
  {
    var i :| from <= i < |log|
      && (PvcName(w) in log[i].state.pvcs ==> log[i].state.pvcs[PvcName(w)].ann.requestId == requestId);
    assert longer[i] == log[i];
  }

  method RecordClaim(c: Cluster, cfg: Config, w: string, requestId: string) returns (ok: bool)
    requires c.Valid(w)
    modifies c
    ensures c.Valid(w)
    ensures old(c.log) <= c.log && OwnSteps(w, c.log, |old(c.log)|) && SeedsCarried(cfg, w, c.log, |old(c.log)|)
    // After success every pod that was live when listed carried the request, and so did the
    // claim, if there was one.
    ensures ok ==> exists k | |old(c.log)| <= k < |c.log| :: EachTold(w, requestId, c.log, k)
    ensures ok && cfg.persistent && requestId != "" ==> ClaimTold(w, requestId, c.log, |old(c.log)|)
    // When nobody interferes and no call fails:
    ensures c.Quiet() ==> ok && OthersSame(w, old(c.store), c.store)
    ensures c.Quiet() ==> c.store.pods.Keys == old(c.store).pods.Keys && c.store.pvcs.Keys == old(c.store).pvcs.Keys
    ensures c.Quiet() ==> TouchedOnly(c, requestId, old(c.store), c.store)
    ensures c.Quiet() ==> forall n :: LivePod(c.store, w, n) <==> LivePod(old(c.store), w, n)
    ensures c.Quiet() ==> forall n :: LivePod(c.store, w, n) ==> c.store.pods[n].ann.requestId == requestId
    ensures c.Quiet() && cfg.persistent && PvcName(w) in old(c.store).pvcs ==>
      Restamps(c, Spec(w, "", "warm", requestId), old(c.store), c.store)
  {
    hide Rely, KeepsPvc, c.World, c.Linked, c.Quiet, c.PvcKept, OwnStep, OwnSteps, SeedsCarried, OthersSame, c.Found,
      Told, LivePod, Restamps, AllCarried, EachTold, ClaimTold, Enumerates, TouchedOnly, StoreOk;
    ghost var log0, store0 := c.log, c.store;
    if cfg.persistent {
      var reply := StampPvc(c, cfg, w, requestId);
      if !reply {
        return false;
      }
    } else {
      NothingLogged(cfg, w, log0);
      SameOthers(w, store0);
    }
    ghost var log1, store1 := c.log, c.store;
    var listed := c.ListPods(w);
    ghost var log2, store2 := c.log, c.store;
    ReadLogged(cfg, w, log1, |log0|, store2);
    QuietIsSame(c, w, store1, store2);
    if listed.None? {
      return false;
    }
    var pods := listed.value;
    AllListedNamed(w, pods, store2);
    ok := TellPods(c, cfg, w, requestId, pods);
    Joined(cfg, w, log2, c.log, |log0|);
    if ok { ListedWereTold(w, pods, requestId, store2, log2, c.log); }
    if cfg.persistent && requestId != "" { ClaimToldLater(w, requestId, log1, c.log, |log0|); }
    if c.Quiet() {
      OthersChain(w, store0, store2, c.store);
      assert Enumerates(pods, store2, w);
      EveryoneTold(w, pods, requestId, store2, c.store);
      SamePodsLive(w, store0, store2);
      TouchedFromSame(c, requestId, store2, store0, c.store);
      RestampsCarry(c, Spec(w, "", "warm", requestId), store0, store1, c.store);
    }
  }

  lemma SamePodsLive(w: string, s: Store, t: Store)
    requires s.pods == t.pods
    ensures forall n :: LivePod(s, w, n) <==> LivePod(t, w, n)
  {
  }

  lemma AllListedNamed(w: string, pods: seq<Pod>, s: Store)
    requires Enumerates(pods, s, w) && PodsNamed(s, w)
    ensures AllNamed(w, pods)
    ensures forall i :: 0 <= i < |pods| ==> pods[i].name in s.pods && s.pods[pods[i].name] == pods[i]
  {
  }

  lemma EveryoneTold(w: string, pods: seq<Pod>, requestId: string, s: Store, t: Store)
    requires StoreOk(s) && Enumerates(pods, s, w) && Told(w, pods, |pods|, requestId, t)
    requires forall n :: LivePod(t, w, n) ==> LivePod(s, w, n)
    ensures forall n :: LivePod(t, w, n) ==> t.pods[n].ann.requestId == requestId
  {
  }

  /** `annotatePVC` with kind warm; a claim that is not there is no error. */
  method StampPvc(c: Cluster, cfg: Config, w: string, requestId: string) returns (ok: bool)
    requires c.Valid(w)
    modifies c
    ensures c.Valid(w)
    ensures old(c.log) <= c.log && OwnSteps(w, c.log, |old(c.log)|) && SeedsCarried(cfg, w, c.log, |old(c.log)|)
    ensures ok && requestId != "" ==> ClaimTold(w, requestId, c.log, |old(c.log)|)
    ensures c.Quiet() ==> ok && OthersSame(w, old(c.store), c.store) && c.store.pods == old(c.store).pods
    ensures c.Quiet() ==> c.store.pvcs.Keys == old(c.store).pvcs.Keys
    ensures c.Quiet() && PvcName(w) in old(c.store).pvcs ==>
      Restamps(c, Spec(w, "", "warm", requestId), old(c.store), c.store)
  {
    hide Rely, KeepsPvc, c.World, c.Linked, c.Quiet, c.PvcKept, OwnStep, OwnSteps, SeedsCarried, OthersSame, c.Found;
    ghost var log0, store0 := c.log, c.store;
    NothingLogged(cfg, w, log0);
    var change := Restamped(Spec(w, "", "warm", requestId), c.Now());
    var reply, mid := c.PatchPvc(w, change);
    Accounted(c, cfg, w, log0, |log0|, store0, mid, c.store);
    ok := reply.Written? || reply.Missing?;
    if ok && requestId != "" { ClaimToldAt(w, requestId, c.log, |log0|, |c.log| - 1); }
  }

  method TellPods(c: Cluster, cfg: Config, w: string, requestId: string, pods: seq<Pod>) returns (ok: bool)
    requires c.Valid(w) && AllNamed(w, pods)
    modifies c
    ensures c.Valid(w)
    ensures old(c.log) <= c.log && OwnSteps(w, c.log, |old(c.log)|) && SeedsCarried(cfg, w, c.log, |old(c.log)|)
    ensures ok ==> AllCarried(pods, |pods|, requestId, c.log, |old(c.log)|)
    ensures c.Quiet() ==> OthersSame(w, old(c.store), c.store) && c.store.pvcs == old(c.store).pvcs
    ensures c.Quiet() ==>
      c.store.pods.Keys == old(c.store).pods.Keys
    ensures c.Quiet() && Listed(pods, old(c.store)) ==> TouchedOnly(c, requestId, old(c.store), c.store)
    ensures c.Quiet() ==> forall n :: LivePod(c.store, w, n) <==> LivePod(old(c.store), w, n)
    ensures c.Quiet() && (forall i :: 0 <= i < |pods| ==>
      pods[i].name in old(c.store).pods && old(c.store).pods[pods[i].name] == pods[i]) ==>
      ok && Told(w, pods, |pods|, requestId, c.store)
  {
    hide Rely, KeepsPvc, c.World, c.Linked, c.Quiet, c.PvcKept, OwnStep, OwnSteps, SeedsCarried, OthersSame, c.Found,
      Told, LivePod, Stamps, AllCarried, CarriedAt, TouchedOnly;
    ghost var log0, store0 := c.log, c.store;
    NothingLogged(cfg, w, log0);
    SameOthers(w, store0);
    ToldNone(w, pods, requestId, store0);
    NoneCarried(pods, requestId, log0);
    NoneTouched(c, requestId, store0);
    for i := 0 to |pods|
      invariant c.Valid(w) && log0 <= c.log && OwnSteps(w, c.log, |log0|) && SeedsCarried(cfg, w, c.log, |log0|)
      invariant c.Quiet() ==>
        OthersSame(w, store0, c.store) && c.store.pvcs == store0.pvcs && c.store.pods.Keys == store0.pods.Keys
      invariant c.Quiet() ==> forall n :: LivePod(c.store, w, n) <==> LivePod(store0, w, n)
      invariant c.Quiet() && Listed(pods, store0) ==> Told(w, pods, i, requestId, c.store)
      invariant c.Quiet() && Listed(pods, store0) ==> TouchedOnly(c, requestId, store0, c.store)
      invariant AllCarried(pods, i, requestId, c.log, |log0|)
    {
      ghost var log1, store1 := c.log, c.store;
      if IsLive(pods[i]) && pods[i].ann.requestId != requestId {
        ghost var now := c.calls;
        var at := c.Now();
        var reply, mid := c.PatchPod(w, pods[i].name, requestId, at);
        Accounted(c, cfg, w, log1, |log0|, store1, mid, c.store);
        if c.Quiet() {
          OthersChain(w, store0, store1, c.store);
          if Listed(pods, store0) {
            StampTouches(c, requestId, pods[i].name, now, store0, mid, c.store);
            StampTells(w, pods, i, requestId, at, mid, c.store);
          }
        }
        if !reply.Written? {
          return false;
        }
        StampCarries(pods[i].name, requestId, at, mid, c.store, c.log, |log0|);
      } else if c.Quiet() && Listed(pods, store0) {
        AlreadyTold(c, w, pods, i, requestId, store0, c.store);
      }
      CarriedMore(pods, i, requestId, log1, c.log, |log0|);
    }
    ok := true;
  }

  ghost predicate Listed(pods: seq<Pod>, s: Store) {
    forall i :: 0 <= i < |pods| ==> pods[i].name in s.pods && s.pods[pods[i].name] == pods[i]
  }

  /** A pod is as it was, or was live without the request and differs just by carrying it
      and the time it was told. */
  ghost predicate TouchedOnly(c: Cluster, requestId: string, s: Store, t: Store) {
    forall n :: n in s.pods && n in t.pods && t.pods[n] != s.pods[n] ==>
      && IsLive(s.pods[n]) && s.pods[n].ann.requestId != requestId
      && exists k :: t.pods[n] == s.pods[n].(ann := s.pods[n].ann.(requestId := requestId, lastClaimedAt := c.clock(k)))
  }

  lemma TouchedFromSame(c: Cluster, requestId: string, s: Store, s': Store, t: Store)
    requires TouchedOnly(c, requestId, s, t) && s'.pods == s.pods
    ensures TouchedOnly(c, requestId, s', t)
  {
  }

  lemma NoneTouched(c: Cluster, requestId: string, s: Store)
    ensures TouchedOnly(c, requestId, s, s)
  {
  }

  lemma StampCarries(n: string, requestId: string, at: Time, s: Store, t: Store, log: seq<Moment>, from: nat)
    requires Stamps(n, requestId, at, s, t) && from < |log| && log[|log| - 1].state == t
    ensures CarriedAt(n, requestId, log, from)
  {
    CarriedNow(n, requestId, log, from, |log| - 1);
  }

  lemma ToldNone(w: string, pods: seq<Pod>, requestId: string, s: Store)
    ensures Told(w, pods, 0, requestId, s)
  {
  }

  lemma StampTouches(c: Cluster, requestId: string, n: string, k: nat, first: Store, s: Store, t: Store)
    requires TouchedOnly(c, requestId, first, s) && (t == s || Stamps(n, requestId, c.clock(k), s, t))
    requires n in first.pods && IsLive(first.pods[n]) && first.pods[n].ann.requestId != requestId
    ensures TouchedOnly(c, requestId, first, t)
  {
    if t != s {
      assert s.pods[n] == first.pods[n] || exists j :: s.pods[n] == first.pods[n].(ann :=
        first.pods[n].ann.(requestId := requestId, lastClaimedAt := c.clock(j)));
      assert t.pods[n] == first.pods[n].(ann :=
        first.pods[n].ann.(requestId := requestId, lastClaimedAt := c.clock(k)));
    }
  }

  lemma AlreadyTold(c: Cluster, w: string, pods: seq<Pod>, i: nat, requestId: string, first: Store, s: Store)
    requires i < |pods| && Listed(pods, first) && Told(w, pods, i, requestId, s) && TouchedOnly(c, requestId, first, s)
    requires !IsLive(pods[i]) || pods[i].ann.requestId == requestId
    requires LivePod(s, w, pods[i].name) ==> LivePod(first, w, pods[i].name)
    ensures Told(w, pods, i + 1, requestId, s)
  {
  }

  // ---- Dispose ------------------------------------------------------------------------------

  /** This write removed the worker's claim, or marked it for deletion. */
  ghost predicate EndsPvc(w: string, m: Moment) {
    m.Own? && !PvcGone(m.before, w) && PvcGone(m.state, w)
  }

  /** A claim is only ended while no pod of the worker is live. */
  ghost predicate EndedIdle(w: string, log: seq<Moment>, from: nat) {
    forall i | from <= i < |log| :: EndsPvc(w, log[i]) ==> !HasLive(log[i].before, w)
  }

  /** A write that touches a claim at all comes only after every pod of the worker that the
      call listed, in moment `from`, was deleted: terminal ones too. */
  ghost predicate PodsFirst(w: string, log: seq<Moment>, from: nat) {
    forall i, n | from < i < |log| && WritesClaim(log[i]) && HasPod(w, n, log[from].state) :: Deleted(n, log[..i], from)
  }

  predicate WritesClaim(m: Moment) { m.Own? && m.before.pvcs != m.state.pvcs }

  predicate HasPod(w: string, n: string, s: Store) { n in s.pods && IsPodOf(w, s.pods[n]) }

  lemma PodsFirstUntouched(w: string, log: seq<Moment>, from: nat)
    requires PvcsUntouched(log, from)
    ensures PodsFirst(w, log, from)
  {
  }

  /** Once all listed pods are deleted, whatever follows is fine. */
  lemma PodsWereFirst(w: string, pods: seq<Pod>, s: Store, part: seq<Moment>, whole: seq<Moment>, from: nat)
    requires StoreOk(s) && Enumerates(pods, s, w) && from < |part| && part <= whole && part[from] == Outside(s)
    requires PvcsUntouched(part, from) && AllDeleted(pods, |pods|, part, from + 1)
    ensures PodsFirst(w, whole, from)
  {
    assert forall i | 0 <= i < |part| :: whole[i] == part[i];
    forall i, n | from < i < |whole| && WritesClaim(whole[i]) && HasPod(w, n, whole[from].state)
      ensures Deleted(n, whole[..i], from)
    {
      assert whole[from] == part[from] && s.pods[n] in pods;
      var k :| 0 <= k < |pods| && pods[k] == s.pods[n];
      assert pods[k].name == n && Deleted(n, part, from + 1);
      DeletedEarlier(n, part, from);
      assert part <= whole[..i];
      DeletedStays(n, part, whole[..i], from);
    }
  }

  lemma DeletedEarlier(n: string, log: seq<Moment>, from: nat)
    requires Deleted(n, log, from + 1)
    ensures Deleted(n, log, from)
  {
  }

  lemma ReadUntouched(log: seq<Moment>, s: Store, whole: seq<Moment>)
    requires log + [Outside(s)] <= whole && PvcsUntouched(whole, |log| + 1)
    ensures PvcsUntouched(whole, |log|) && whole[|log|] == Outside(s)
  {
    assert whole[|log|] == (log + [Outside(s)])[|log|];
  }

  /** No write of an operation on `w` ends a claim that is not labelled for `w`. */
  lemma NeverEndsForeign(v: string, w: string, s: Store, t: Store)
    requires OwnStep(w, s, t) && !PvcGone(s, v) && PvcGone(t, v)
    ensures v == w && s.pvcs[PvcName(w)].labels.Owner() == w
  {
    if PvcName(v) == PvcName(w) { PvcNamesDiffer(v, w); }
  }

  /** A uid names one object: found again, it still carries the same labels. */
  lemma UidPins(c: Cluster, w: string, uid: nat, s: Store, t: Store)
    requires c.Found(w, s, t) && StoreOk(s) && uid < s.nextUid && PvcName(w) in t.pvcs && t.pvcs[PvcName(w)].uid == uid
    ensures PvcName(w) in s.pvcs && s.pvcs[PvcName(w)].uid == uid
    ensures s.pvcs[PvcName(w)].labels == t.pvcs[PvcName(w)].labels
  {
  }

  ghost predicate Deletes(w: string, uid: nat, s: Store, t: Store) {
    && PvcName(w) in s.pvcs && s.pvcs[PvcName(w)].uid == uid
    && (t == s.(pvcs := s.pvcs - {PvcName(w)})
        || exists at :: t == s.(pvcs := s.pvcs[PvcName(w) := s.pvcs[PvcName(w)].(deletedAt := Some(at))]))
  }

  lemma DeletedStep(w: string, uid: nat, s: Store, t: Store)
    requires t == s || Deletes(w, uid, s, t)
    requires PvcName(w) in s.pvcs && s.pvcs[PvcName(w)].uid == uid ==> s.pvcs[PvcName(w)].labels.Owner() == w
    ensures OwnStep(w, s, t) && t.pods == s.pods
  {
  }

  /** The reason stamp: best effort, and it ends no claim. */
  method StampReason(c: Cluster, cfg: Config, w: string, reason: string)
    requires c.Valid(w)
    modifies c
    ensures c.Valid(w)
    ensures old(c.log) <= c.log && OwnSteps(w, c.log, |old(c.log)|) && SeedsCarried(cfg, w, c.log, |old(c.log)|)
    ensures EndedIdle(w, c.log, |old(c.log)|) && c.store.nextUid >= old(c.store).nextUid
    ensures !old(HasLive(c.store, w)) ==> !HasLive(c.store, w)
    ensures PvcName(w) in c.store.pvcs && c.store.pvcs[PvcName(w)].uid < old(c.store).nextUid ==>
      && PvcName(w) in old(c.store).pvcs && old(c.store).pvcs[PvcName(w)].uid == c.store.pvcs[PvcName(w)].uid
      && old(c.store).pvcs[PvcName(w)].labels == c.store.pvcs[PvcName(w)].labels
    ensures c.Quiet() ==> OthersSame(w, old(c.store), c.store) && c.store.pods == old(c.store).pods
    ensures c.Quiet() && PvcName(w) in old(c.store).pvcs ==>
      PvcName(w) in c.store.pvcs && var p := old(c.store).pvcs[PvcName(w)];
        c.store.pvcs[PvcName(w)] == p.(ann := p.ann.(disposeReason := reason))
  {
    hide KeepsPvc, c.World, c.Linked, c.Quiet, c.PvcKept, OwnStep, OwnSteps, SeedsCarried, OthersSame, HasLive, Rely,
      c.Found;
    ghost var log0, store0 := c.log, c.store;
    NothingLogged(cfg, w, log0);
    var change := (a: Annotations) => a.(disposeReason := reason);
    var reply, mid := c.PatchPvc(w, change);
    Accounted(c, cfg, w, log0, |log0|, store0, mid, c.store);
    FoundStaysDead(c, w, store0, mid);
    Annotated(w, change, mid, c.store);
    UidsGrow(c, w, store0, mid);
    if PvcName(w) in mid.pvcs && mid.pvcs[PvcName(w)].uid < store0.nextUid {
      UidPins(c, w, mid.pvcs[PvcName(w)].uid, store0, mid);
    }
  }

  lemma UidsGrow(c: Cluster, w: string, s: Store, t: Store)
    requires c.Found(w, s, t)
    ensures t.nextUid >= s.nextUid
  {
  }

  /** The claim is on its way out, and says why. */
  ghost predicate Terminating(p: Pvc, reason: string, q: Pvc) {
    && q.deletedAt.Some?
    && (reason != "" ==> q == p.(ann := p.ann.(disposeReason := reason), deletedAt := q.deletedAt))
    && (reason == "" ==> q == p.(deletedAt := q.deletedAt))
  }

  /** Dispose's second half: the claim, once the worker has no live pod. */
  method DisposePvc(c: Cluster, cfg: Config, w: string, reason: string) returns (ok: bool)
    requires c.Valid(w) && !HasLive(c.store, w)
    modifies c
    ensures c.Valid(w) && !HasLive(c.store, w)
    ensures old(c.log) <= c.log && OwnSteps(w, c.log, |old(c.log)|) && SeedsCarried(cfg, w, c.log, |old(c.log)|)
    ensures EndedIdle(w, c.log, |old(c.log)|)
    ensures ok ==> PvcGone(c.store, w)
    ensures c.Quiet() ==> OthersSame(w, old(c.store), c.store) && c.store.pods == old(c.store).pods
    ensures c.Quiet() ==>
      (ok <==> (PvcName(w) in old(c.store).pvcs ==> old(c.store).pvcs[PvcName(w)].labels.Owner() == w))
    ensures c.Quiet() && ok && PvcName(w) in c.store.pvcs ==>
      PvcName(w) in old(c.store).pvcs && Terminating(old(c.store).pvcs[PvcName(w)], reason, c.store.pvcs[PvcName(w)])
    ensures c.Quiet() && !ok ==> c.store == old(c.store)
  {
    hide Rely, KeepsPvc, c.World, c.Linked, c.Quiet, c.PvcKept, OwnStep, OwnSteps, SeedsCarried, OthersSame, HasLive,
      c.Found, EndedIdle, Deletes;
    ghost var log0, store0 := c.log, c.store;
    NothingLogged(cfg, w, log0);
    NothingEnded(w, log0);
    SameOthers(w, store0);
    var reply := c.GetPvc(w);
    ghost var log1, store1 := c.log, c.store;
    FoundStaysDead(c, w, store0, store1);
    ReadLogged(cfg, w, log0, |log0|, store1);
    EndedMore(w, log0, [Outside(store1)], |log0|);
    QuietIsSame(c, w, store0, store1);
    if reply.NoSuchPvc? {
      return true;
    }
    if reply.PvcError? || reply.pvc.labels.Owner() != w {
      return false;
    }
    if reason != "" {
      StampReason(c, cfg, w, reason);
      Joined(cfg, w, log1, c.log, |log0|);
      EndedJoined(w, log1, c.log, |log0|);
    } else {
      SameOthers(w, c.store);
    }
    ghost var log2, store2 := c.log, c.store;
    var deleted, mid := c.DeletePvc(w, reply.pvc.uid);
    ghost var uid := reply.pvc.uid;
    assert uid < store1.nextUid;
    if PvcName(w) in mid.pvcs && mid.pvcs[PvcName(w)].uid == uid { UidPins(c, w, uid, store2, mid); }
    if c.store != mid { DeletesMeans(w, uid, mid, c.store); }
    DeletedStep(w, uid, mid, c.store);
    FoundStaysDead(c, w, store2, mid);
    SamePodsSameLive(w, mid, c.store);
    Accounted(c, cfg, w, log2, |log0|, store2, mid, c.store);
    EndedMore(w, log2, [Outside(mid), Own(mid, c.store)], |log0|);
    if c.Quiet() {
      OthersChain(w, store0, store2, c.store);
      DeletesOnly(w, uid, mid, c.store);
    }
    ok := deleted.Written? || deleted.Missing?;
  }

  lemma DeletesMeans(w: string, uid: nat, s: Store, t: Store)
    requires PvcName(w) in s.pvcs && s.pvcs[PvcName(w)].uid == uid
        && (t == s.(pvcs := s.pvcs - {PvcName(w)})
            || exists at :: t == s.(pvcs := s.pvcs[PvcName(w) := s.pvcs[PvcName(w)].(deletedAt := Some(at))]))
    ensures Deletes(w, uid, s, t)
  {
  }

  lemma DeletesOnly(w: string, uid: nat, s: Store, t: Store)
    requires t == s || Deletes(w, uid, s, t)
    ensures PvcName(w) in t.pvcs ==>
      PvcName(w) in s.pvcs && t.pvcs[PvcName(w)] == s.pvcs[PvcName(w)].(deletedAt := t.pvcs[PvcName(w)].deletedAt)
  {
  }

  lemma NothingEnded(w: string, log: seq<Moment>)
    ensures EndedIdle(w, log, |log|)
  {
  }

  lemma UntouchedEndsNothing(w: string, log: seq<Moment>, from: nat)
    requires PvcsUntouched(log, from)
    ensures EndedIdle(w, log, from)
  {
  }

  lemma EndedMore(w: string, log: seq<Moment>, more: seq<Moment>, from: nat)
    requires from <= |log| && EndedIdle(w, log, from)
    requires forall i :: 0 <= i < |more| && more[i].Own? ==> !HasLive(more[i].before, w)
    ensures EndedIdle(w, log + more, from)
  {
  }

  lemma EndedJoined(w: string, part: seq<Moment>, whole: seq<Moment>, from: nat)
    requires from <= |part| && part <= whole && EndedIdle(w, part, from) && EndedIdle(w, whole, |part|)
    ensures EndedIdle(w, whole, from)
  {
  }

  method Dispose(c: Cluster, cfg: Config, w: string, reason: string) returns (ok: bool)
    requires c.Valid(w)
    modifies c
    ensures c.Valid(w)
    // Its writes are legal steps for `w`; it ends a claim only when no pod is live.
    ensures old(c.log) <= c.log && OwnSteps(w, c.log, |old(c.log)|) && SeedsCarried(cfg, w, c.log, |old(c.log)|)
    ensures EndedIdle(w, c.log, |old(c.log)|)
    // It touches a claim only once all its pods, terminal ones included, were deleted.
    ensures PodsFirst(w, c.log, |old(c.log)|)
    // After a nil return nothing of the worker is left to run on.
    ensures ok ==> !HasLive(c.store, w) && (cfg.persistent ==> PvcGone(c.store, w))
    // When nobody interferes and no call fails:
    ensures c.Quiet() ==> OthersSame(w, old(c.store), c.store) && !HasLive(c.store, w)
    ensures c.Quiet() ==> (ok <==> Disposable(cfg, old(c.store), w))
    ensures c.Quiet() && ok ==> Disposable(cfg, c.store, w)
    ensures c.Quiet() && ok && cfg.persistent && PvcName(w) in c.store.pvcs ==>
      PvcName(w) in old(c.store).pvcs && Terminating(old(c.store).pvcs[PvcName(w)], reason, c.store.pvcs[PvcName(w)])
    ensures c.Quiet() ==>
      forall n :: n in c.store.pods && IsPodOf(w, c.store.pods[n]) ==> c.store.pods[n].deletedAt.Some?
    ensures c.Quiet() && !ok ==> c.store.pvcs == old(c.store).pvcs
  {
    hide Rely, KeepsPvc, c.World, c.Linked, c.Quiet, c.PvcKept, OwnStep, OwnSteps, SeedsCarried, OthersSame, HasLive,
      c.Found, EndedIdle, PvcsUntouched, PodsFirst, AllDeleted, Clears, Enumerates;
    ghost var log0, store0 := c.log, c.store;
    NothingLogged(cfg, w, log0);
    NothingEnded(w, log0);
    SameOthers(w, store0);
    var listed := c.ListPods(w);
    ghost var log1, store1 := c.log, c.store;
    ReadLogged(cfg, w, log0, |log0|, store1);
    EndedMore(w, log0, [Outside(store1)], |log0|);
    QuietIsSame(c, w, store0, store1);
    if listed.None? {
      OnlyRead(w, log0, store1);
      return false;
    }
    AllListedNamed(w, listed.value, store1);
    ok := DeleteListed(c, cfg, w, listed.value, true);
    ghost var log2, store2 := c.log, c.store;
    Joined(cfg, w, log1, log2, |log0|);
    UntouchedEndsNothing(w, log2, |log1|);
    EndedJoined(w, log1, log2, |log0|);
    ReadUntouched(log0, store1, log2);
    PodsFirstUntouched(w, log2, |log0|);
    if c.Quiet() { OthersChain(w, store0, store1, store2); }
    if !ok {
      return;
    }
    AllDead(w, listed.value, store1, store2);
    if c.Quiet() { AllCleared(w, listed.value, store1, store2); }
    if cfg.persistent {
      ok := DisposePvc(c, cfg, w, reason);
      Joined(cfg, w, log2, c.log, |log0|);
      EndedJoined(w, log2, c.log, |log0|);
      PodsWereFirst(w, listed.value, store1, log2, c.log, |log0|);
      if c.Quiet() { OthersChain(w, store0, store2, c.store); }
    }
  }

  lemma OnlyRead(w: string, log: seq<Moment>, s: Store)
    ensures PodsFirst(w, log + [Outside(s)], |log|)
  {
  }

  /** The claim is not somebody else's. */
  predicate Disposable(cfg: Config, s: Store, w: string) {
    cfg.persistent && PvcName(w) in s.pvcs ==> s.pvcs[PvcName(w)].labels.Owner() == w
  }

  lemma AllCleared(w: string, pods: seq<Pod>, s: Store, t: Store)
    requires StoreOk(s) && Enumerates(pods, s, w) && Clears(pods, |pods|, s, t)
    ensures t.pvcs == s.pvcs
    ensures forall n :: n in t.pods && IsPodOf(w, t.pods[n]) ==> t.pods[n].deletedAt.Some?
  {
    forall n | n in t.pods && IsPodOf(w, t.pods[n]) ensures t.pods[n].deletedAt.Some? {
      assert n in s.pods && s.pods[n] in pods;
      var j :| 0 <= j < |pods| && pods[j] == s.pods[n];
      assert pods[j].name == n;
    }
  }

  /** None of the pods of the listing is live any more, and no other can be. */
  lemma AllDead(w: string, pods: seq<Pod>, s: Store, t: Store)
    requires StoreOk(s) && Enumerates(pods, s, w)
    requires forall n :: LivePod(t, w, n) ==> LivePod(s, w, n)
    requires forall i :: 0 <= i < |pods| ==> !LivePod(t, w, pods[i].name)
    ensures !HasLive(t, w)
  {
  }

  // ---- what a disposal leaves ------------------------------------------------------------------

  /** After a nil Dispose, with nobody else creating the claim, Wake never succeeds:
      it reports the workspace missing unless a call of its own fails. */
  method DisposeThenWake(c: Cluster, cfg: Config, spec: Spec, reason: string) returns (ok: bool, err: Error)
    requires c.Valid(spec.worker) && cfg.persistent && c.PvcKept(spec.worker)
    modifies c
    ensures ok ==> err == WorkspaceMissing || err == OtherError
    ensures c.Quiet() && ok ==> err == WorkspaceMissing && !HasLive(c.store, spec.worker)
  {
    hide Rely, c.World, c.Linked, c.Quiet, c.PvcKept, OwnSteps, SeedsCarried, OthersSame, HasLive, EndedIdle;
    ok := Dispose(c, cfg, spec.worker, reason);
    err := Wake(c, cfg, spec);
  }

  /** Disposing again finds nothing left to fail on. */
  method DisposeTwice(c: Cluster, cfg: Config, w: string, reason: string) returns (first: bool, second: bool)
    requires c.Valid(w) && c.Quiet()
    modifies c
    ensures first <==> Disposable(cfg, old(c.store), w)
    ensures first ==> second && OthersSame(w, old(c.store), c.store) && !HasLive(c.store, w)
    ensures first && cfg.persistent ==> PvcGone(c.store, w)
  {
    hide Rely, c.World, c.Linked, c.Quiet, c.PvcKept, OwnSteps, SeedsCarried, OthersSame, HasLive, EndedIdle;
    first := Dispose(c, cfg, w, reason);
    ghost var between := c.store;
    second := Dispose(c, cfg, w, reason);
    OthersChain(w, old(c.store), between, c.store);
  }
}
