/** The Kubernetes API as the backend sees it: every call first lets the rest of
    the world act, then may be refused, may take effect, and may lose its reply. */
module ClusterApi {
  import opened Common
  import opened Snapshots
  import opened KubeStore

  datatype Fault = Fine | Refused | ReplyLost

  /** What a call left behind: the state the world had reached, or a write. */
  datatype Moment = Outside(state: Store) | Own(before: Store, state: Store)

  datatype PvcReply = FoundPvc(pvc: Pvc) | NoSuchPvc | PvcError

  datatype WriteReply = Written | Missing | Exists | WriteError

  /** Every write logged from `from` on is a legal step of an operation on `w`. */
  ghost predicate OwnSteps(w: string, log: seq<Moment>, from: nat) {
    forall i | from <= i < |log| :: log[i].Own? ==> OwnStep(w, log[i].before, log[i].state)
  }

  ghost predicate OwnWrites(w: string, log: seq<Moment>, from: nat) {
    forall i | from <= i < |log| :: log[i].Own? ==> OwnWrite(w, log[i].before, log[i].state)
  }

  /** Some state the call passed through had a live pod of `w`. */
  ghost predicate SawLive(w: string, log: seq<Moment>, from: nat) {
    exists i | from <= i < |log| :: HasLive(log[i].state, w)
  }

  /** A list of all pods of `w`, in any order. */
  ghost predicate Enumerates(pods: seq<Pod>, s: Store, w: string) {
    && (forall p :: p in pods ==> p.name in s.pods && s.pods[p.name] == p && IsPodOf(w, p))
    && (forall n :: n in s.pods && IsPodOf(w, s.pods[n]) ==> s.pods[n] in pods)
  }

  ghost predicate PodsNamed(s: Store, w: string) {
    forall n :: n in s.pods && IsPodOf(w, s.pods[n]) ==> PodNameOf(w, n)
  }

  /** Pod `n` now carries the request and the time, and nothing else changed. */
  ghost predicate Stamps(n: string, requestId: string, at: Time, s: Store, t: Store) {
    && n in s.pods
    && t == s.(pods := s.pods[n := s.pods[n].(ann := s.pods[n].ann.(requestId := requestId, lastClaimedAt := at))])
  }

  ghost predicate ManagedPvcs(list: seq<Pvc>, s: Store) {
    forall p :: p in list <==> p in s.pvcs.Values && p.labels.Managed()
  }

  ghost predicate ManagedPods(list: seq<Pod>, s: Store) {
    forall p :: p in list <==> p in s.pods.Values && p.labels.Managed()
  }

  class Cluster {
    var store: Store
    var calls: nat
    ghost var log: seq<Moment>
    ghost const origin: Store
    const env: (nat, Store) -> Store
    const fault: nat -> Fault
    const lingers: nat -> bool
    const clock: nat -> Time
    const suffix: nat -> string
    const seeds: nat -> Option<seq<Snapshot>>

    constructor (store: Store, env: (nat, Store) -> Store, fault: nat -> Fault, lingers: nat -> bool,
                 clock: nat -> Time, suffix: nat -> string, seeds: nat -> Option<seq<Snapshot>>)
      ensures this.store == store && calls == 0 && log == [] && Linked()
      ensures this.env == env && this.fault == fault && this.suffix == suffix && this.seeds == seeds && origin == store
      ensures this.lingers == lingers && this.clock == clock
    {
      this.store, calls, log, origin := store, 0, [], store;
      this.env, this.fault, this.lingers := env, fault, lingers;
      this.clock, this.suffix, this.seeds := clock, suffix, seeds;
    }

    /** The rest of the world respects worker `w`; random suffixes have five characters. */
    ghost predicate World(w: string) {
      && (forall n, s :: StoreOk(s) ==> StoreOk(env(n, s)) && Rely(w, s, env(n, s)))
      && (forall n :: |suffix(n)| == 5)
    }

    /** Moreover nobody else creates the worker's claim. */
    ghost predicate PvcKept(w: string) {
      forall n, s :: StoreOk(s) ==> KeepsPvc(w, s, env(n, s))
    }

    /** No call fails. */
    ghost predicate Works() { forall n :: fault(n) == Fine }

    /** Nobody else acts and no call fails. */
    ghost predicate Quiet() {
      (forall n, s :: env(n, s) == s) && (forall n :: fault(n) == Fine)
    }

    ghost predicate Valid(w: string)
      reads this
    {
      World(w) && StoreOk(store) && PodsNamed(store, w) && Linked()
    }

    /** The state before moment `i` of the log. */
    ghost function StateAt(log: seq<Moment>, i: nat): Store
      requires i <= |log|
    {
      if i == 0 then origin else log[i - 1].state
    }

    /** A moment is the rest of the world's move, or a write on what it found. */
    ghost predicate Follows(s: Store, m: Moment) {
      match m
      case Outside(t) => exists k :: t == env(k, s)
      case Own(before, _) => before == s
    }

    /** The log tells the whole story from the origin to the present. */
    ghost predicate Linked()
      reads this
    {
      store == StateAt(log, |log|) && forall i | 0 <= i < |log| :: Follows(StateAt(log, i), log[i])
    }

    lemma FollowsOwn(s: Store, t: Store)
      ensures Follows(s, Own(s, t))
    {
    }

    lemma LinksOn(log: seq<Moment>, m: Moment)
      requires forall i | 0 <= i < |log| :: Follows(StateAt(log, i), log[i])
      requires Follows(StateAt(log, |log|), m)
      ensures forall i | 0 <= i < |log + [m]| :: Follows(StateAt(log + [m], i), (log + [m])[i])
      ensures StateAt(log + [m], |log + [m]|) == m.state
    {
      hide Follows, World, Linked;
      var all := log + [m];
      forall i | 0 <= i < |all| ensures Follows(StateAt(all, i), all[i]) {
        if i < |log| { assert all[i] == log[i] && StateAt(all, i) == StateAt(log, i); }
      }
    }

    /** The state a call finds, given the state the previous one left. */
    ghost predicate Found(w: string, before: Store, now: Store) {
      && Rely(w, before, now) && StoreOk(now) && PodsNamed(now, w)
      && (Quiet() ==> now == before) && (PvcKept(w) ==> KeepsPvc(w, before, now))
    }

    method Tick(w: string)
      requires Valid(w)
      modifies this
      ensures Valid(w) && calls == old(calls) + 1
      ensures Found(w, old(store), store) && log == old(log) + [Outside(store)]
    {
      LinksOn(log, Outside(env(calls, store)));
      store := env(calls, store);
      calls := calls + 1;
      log := log + [Outside(store)];
    }

    function Now(): Time
      reads this
    {
      clock(calls)
    }

    // ---- reads -------------------------------------------------------------------

    method ListPods(w: string) returns (pods: Option<seq<Pod>>)
      requires Valid(w)
      modifies this
      ensures Valid(w) && Found(w, old(store), store) && log == old(log) + [Outside(store)]
      ensures pods.Some? ==> Enumerates(pods.value, store, w)
      ensures pods.Some? <==> fault(old(calls)) == Fine
      ensures Quiet() ==> pods.Some?
    {
      Tick(w);
      if fault(calls - 1) != Fine {
        return None;
      }
      var todo := set n | n in store.pods && IsPodOf(w, store.pods[n]);
      var list: seq<Pod> := [];
      while todo != {}
        invariant todo <= set n | n in store.pods && IsPodOf(w, store.pods[n])
        invariant forall p :: p in list ==> p.name in store.pods && store.pods[p.name] == p && IsPodOf(w, p)
        invariant forall n :: n in store.pods && IsPodOf(w, store.pods[n]) && n !in todo ==> store.pods[n] in list
      {
        var n :| n in todo;
        list := list + [store.pods[n]];
        todo := todo - {n};
      }
      pods := Some(list);
    }

    method GetPvc(w: string) returns (reply: PvcReply)
      requires Valid(w)
      modifies this
      ensures Valid(w) && Found(w, old(store), store) && log == old(log) + [Outside(store)] && calls == old(calls) + 1
      ensures reply.FoundPvc? ==> PvcName(w) in store.pvcs && reply.pvc == store.pvcs[PvcName(w)]
      ensures reply.NoSuchPvc? ==> PvcName(w) !in store.pvcs
      ensures Quiet() ==> !reply.PvcError?
      ensures Works() ==> !reply.PvcError?
    {
      Tick(w);
      if fault(calls - 1) != Fine {
        return PvcError;
      }
      reply := if PvcName(w) in store.pvcs then FoundPvc(store.pvcs[PvcName(w)]) else NoSuchPvc;
    }

    method ListSeeds(w: string) returns (list: Option<seq<Snapshot>>)
      requires Valid(w)
      modifies this
      ensures Valid(w) && Found(w, old(store), store) && log == old(log) + [Outside(store)]
      ensures list == seeds(old(calls)) || list == None
      ensures Quiet() ==> list == seeds(old(calls))
      ensures Works() ==> list == seeds(old(calls))
    {
      Tick(w);
      list := if fault(calls - 1) == Fine then seeds(calls - 1) else None;
    }

    // ---- writes ------------------------------------------------------------------

    /** Commits a write unless the call was refused; a lost reply reads as an error. */
    method Commit(w: string, target: Store) returns (reply: WriteReply)
      requires Valid(w) && calls > 0 && StoreOk(target) && PodsNamed(target, w)
      modifies this`store, this`log
      ensures Valid(w) && log == old(log) + [Own(old(store), store)]
      ensures store == old(store) || store == target
      ensures reply.Written? ==> store == target
      ensures reply.Written? || reply.WriteError?
      ensures Quiet() ==> reply.Written?
      ensures Works() ==> reply.Written?
    {
      hide World, Rely, StateAt, Follows;
      ghost var before := store;
      assert Follows(before, Own(before, target)) && Follows(before, Own(before, before)) by {
        FollowsOwn(before, target);
        FollowsOwn(before, before);
      }
      if fault(calls - 1) != Refused {
        store := target;
      }
      LinksOn(log, Own(before, store));
      log := log + [Own(before, store)];
      reply := if fault(calls - 1) == Fine then Written else WriteError;
    }

    method PatchPvc(w: string, change: Annotations -> Annotations) returns (reply: WriteReply, ghost mid: Store)
      requires Valid(w)
      requires forall a :: change(a).seed == a.seed
      modifies this
      ensures Valid(w) && Found(w, old(store), mid) && log == old(log) + [Outside(mid), Own(mid, store)]
      ensures OwnStep(w, mid, store) && !reply.Exists?
      ensures store == mid || (PvcName(w) in mid.pvcs
        && store == mid.(pvcs := mid.pvcs[PvcName(w) :=
          mid.pvcs[PvcName(w)].(ann := change(mid.pvcs[PvcName(w)].ann))]))
      ensures reply.Written? ==>
        PvcName(w) in mid.pvcs && store.pvcs[PvcName(w)].ann == change(mid.pvcs[PvcName(w)].ann)
      ensures reply.Missing? ==> PvcName(w) !in mid.pvcs && store == mid
      ensures Works() ==> (reply.Written? <==> PvcName(w) in mid.pvcs)
      ensures Quiet() ==> (reply.Written? <==> PvcName(w) in mid.pvcs) && (reply.Written? || reply.Missing?)
    {
      hide World, Rely, KeepsPvc, Found, Quiet, Linked;
      Tick(w);
      mid := store;
      var n := PvcName(w);
      if n in store.pvcs {
        var pvc := store.pvcs[n];
        reply := Commit(w, store.(pvcs := store.pvcs[n := pvc.(ann := change(pvc.ann))]));
      } else {
        reply := Commit(w, store);
        reply := if reply.Written? then Missing else reply;
      }
    }

    /** Stamps a request onto a pod; a failing write may or may not have happened. */
    method PatchPod(w: string, n: string, requestId: string, at: Time) returns (reply: WriteReply, ghost mid: Store)
      requires Valid(w) && PodNameOf(w, n)
      modifies this
      ensures Valid(w) && Found(w, old(store), mid) && log == old(log) + [Outside(mid), Own(mid, store)]
      ensures OwnStep(w, mid, store)
      ensures store == mid || Stamps(n, requestId, at, mid, store)
      ensures reply.Written? ==> Stamps(n, requestId, at, mid, store)
      ensures Quiet() && n in mid.pods ==> reply.Written?
      ensures forall m :: LivePod(mid, w, m) <==> LivePod(store, w, m)
      ensures store.pvcs == mid.pvcs
      ensures forall m :: m in mid.pods && m != n ==> m in store.pods && store.pods[m] == mid.pods[m]
      ensures forall m :: m in store.pods <==> m in mid.pods
    {
      hide World, Rely, KeepsPvc, Found, Quiet, Linked;
      Tick(w);
      mid := store;
      if n in store.pods {
        var p := store.pods[n];
        var q := p.(ann := p.ann.(requestId := requestId, lastClaimedAt := at));
        assert SamePod(p, q) && IsLive(q) == IsLive(p);
        reply := Commit(w, store.(pods := store.pods[n := q]));
        assert store != mid ==> n in store.pods && store == mid.(pods := mid.pods[n := store.pods[n]]);
      } else {
        reply := Commit(w, store);
        reply := if reply.Written? then Missing else reply;
      }
    }

    method CreatePod(w: string, pod: Pod) returns (reply: WriteReply, ghost mid: Store)
      requires Valid(w) && PodNameOf(w, pod.name) && IsPodOf(w, pod) && !pod.ann.started && IsLive(pod)
      modifies this
      ensures Valid(w) && Found(w, old(store), mid) && log == old(log) + [Outside(mid), Own(mid, store)]
      ensures store == mid || (pod.name !in mid.pods
        && exists at :: store == mid.(pods := mid.pods[pod.name := pod.(uid := mid.nextUid, created := at)],
          nextUid := mid.nextUid + 1))
      ensures reply.Written? ==> LivePod(store, w, pod.name) && store != mid
      ensures Quiet() && pod.name !in mid.pods ==> reply.Written?
    {
      hide World, Rely, KeepsPvc, Found, Quiet, Linked;
      Tick(w);
      mid := store;
      if pod.name in store.pods {
        reply := Commit(w, store);
        reply := if reply.Written? then Exists else reply;
      } else {
        var made := pod.(uid := store.nextUid, created := Now());
        reply := Commit(w, store.(pods := store.pods[pod.name := made], nextUid := store.nextUid + 1));
      }
    }

    method DeletePod(w: string, n: string) returns (reply: WriteReply, ghost mid: Store)
      requires Valid(w) && PodNameOf(w, n)
      modifies this
      ensures Valid(w) && Found(w, old(store), mid) && log == old(log) + [Outside(mid), Own(mid, store)]
      ensures OwnStep(w, mid, store)
      ensures store.pvcs == mid.pvcs && store.nextUid == mid.nextUid
      ensures forall m ::
          m != n ==> (m in store.pods <==> m in mid.pods) && (m in mid.pods ==> store.pods[m] == mid.pods[m])
      ensures n in store.pods ==> n in mid.pods
      ensures forall m :: LivePod(store, w, m) ==> LivePod(mid, w, m)
      ensures n in store.pods ==> store.pods[n] == mid.pods[n].(deletedAt := store.pods[n].deletedAt)
      ensures store != mid && n in store.pods ==> store.pods[n].deletedAt.Some?
      ensures reply.Written? && n in store.pods ==> store.pods[n].deletedAt.Some?
      ensures reply.Missing? ==> n !in store.pods
      ensures Quiet() ==> reply.Written? || reply.Missing?
    {
      hide World, Rely, KeepsPvc, Found, Quiet, Linked;
      Tick(w);
      mid := store;
      if n in store.pods {
        var p := store.pods[n];
        var target := if lingers(calls) then store.(pods := store.pods[n := p.(deletedAt := Some(Now()))])
                      else store.(pods := store.pods - {n});
        reply := Commit(w, target);
        assert TouchesPod(w, mid, store) || store == mid;
      } else {
        reply := Commit(w, store);
        reply := if reply.Written? then Missing else reply;
      }
    }

    method CreatePvc(w: string, pvc: Pvc) returns (reply: WriteReply, ghost mid: Store)
      requires Valid(w) && pvc.name == PvcName(w) && pvc.labels.Owner() == w && pvc.deletedAt.None?
      modifies this
      ensures Valid(w) && Found(w, old(store), mid) && log == old(log) + [Outside(mid), Own(mid, store)]
      ensures OwnStep(w, mid, store) && store.pods == mid.pods
      ensures reply.Written? ==> store != mid
      ensures store != mid ==> CreatesPvc(w, mid, store)
      ensures store != mid ==>
        store.pvcs[PvcName(w)] == pvc.(uid := mid.nextUid, created := store.pvcs[PvcName(w)].created)
      ensures reply.Exists? ==> PvcName(w) in mid.pvcs
      ensures Works() ==> reply.Written? || reply.Exists?
      ensures Quiet() ==> reply.Written? || (reply.Exists? && PvcName(w) in mid.pvcs)
    {
      hide World, Rely, KeepsPvc, Found, Quiet, Linked;
      Tick(w);
      mid := store;
      if pvc.name in store.pvcs {
        reply := Commit(w, store);
        reply := if reply.Written? then Exists else reply;
      } else {
        var made := pvc.(uid := store.nextUid, created := Now());
        reply := Commit(w, store.(pvcs := store.pvcs[pvc.name := made], nextUid := store.nextUid + 1));
      }
    }

    /** Deletes by name with a uid precondition; a mismatch is a conflict error. */
    method DeletePvc(w: string, uid: nat) returns (reply: WriteReply, ghost mid: Store)
      requires Valid(w)
      modifies this
      ensures Valid(w) && Found(w, old(store), mid) && log == old(log) + [Outside(mid), Own(mid, store)]
      ensures store == mid || (PvcName(w) in mid.pvcs && mid.pvcs[PvcName(w)].uid == uid
        && (store == mid.(pvcs := mid.pvcs - {PvcName(w)})
            || exists at :: store == mid.(pvcs :=
              mid.pvcs[PvcName(w) := mid.pvcs[PvcName(w)].(deletedAt := Some(at))])))
      ensures reply.Written? || reply.Missing? ==> PvcName(w) in store.pvcs ==> store.pvcs[PvcName(w)].deletedAt.Some?
      ensures reply.Missing? ==> PvcName(w) !in mid.pvcs
      ensures Quiet() && PvcName(w) in mid.pvcs && mid.pvcs[PvcName(w)].uid == uid ==> reply.Written?
    {
      hide World, Rely, KeepsPvc, Found, Quiet, Linked;
      Tick(w);
      mid := store;
      var n := PvcName(w);
      if n !in store.pvcs {
        reply := Commit(w, store);
        reply := if reply.Written? then Missing else reply;
      } else if store.pvcs[n].uid != uid {
        reply := Commit(w, store);
        reply := WriteError;
      } else {
        var pvc := store.pvcs[n];
        var target := if lingers(calls) then store.(pvcs := store.pvcs[n := pvc.(deletedAt := Some(Now()))])
                      else store.(pvcs := store.pvcs - {n});
        reply := Commit(w, target);
      }
    }

    // ---- calls about all workers at once ------------------------------------------------

    ghost predicate ValidForAll()
      reads this
    {
      forall w :: Valid(w)
    }

    method TickAll()
      requires ValidForAll()
      modifies this
      ensures ValidForAll() && log == old(log) + [Outside(store)] && calls == old(calls) + 1
      ensures Quiet() ==> store == old(store)
    {
      assert Valid("");
      hide Linked, Rely;
      LinksOn(log, Outside(env(calls, store)));
      ghost var was := store;
      store := env(calls, store);
      calls := calls + 1;
      log := log + [Outside(store)];
      forall w ensures World(w) && StoreOk(store) && PodsNamed(store, w) {
        assert old(Valid(w));
        StaysNamed(w, was, calls - 1);
      }
    }

    lemma StaysNamed(w: string, s: Store, k: nat)
      requires World(w) && StoreOk(s) && PodsNamed(s, w)
      ensures StoreOk(env(k, s)) && PodsNamed(env(k, s), w)
    {
    }

    method ListManagedPvcs() returns (list: Option<seq<Pvc>>)
      requires ValidForAll()
      modifies this
      ensures ValidForAll() && log == old(log) + [Outside(store)]
      ensures list.Some? ==> ManagedPvcs(list.value, store)
      ensures Quiet() ==> list.Some? && store == old(store)
    {
      TickAll();
      if fault(calls - 1) != Fine {
        return None;
      }
      var todo := set n | n in store.pvcs && store.pvcs[n].labels.Managed();
      var found: seq<Pvc> := [];
      while todo != {}
        invariant todo <= set n | n in store.pvcs && store.pvcs[n].labels.Managed()
        invariant forall p :: p in found ==> p.labels.Managed() && p in store.pvcs.Values
        invariant forall n :: n in store.pvcs && store.pvcs[n].labels.Managed() && n !in todo ==> store.pvcs[n] in found
      {
        var n :| n in todo;
        found := found + [store.pvcs[n]];
        todo := todo - {n};
      }
      list := Some(found);
    }

    method ListManagedPods() returns (list: Option<seq<Pod>>)
      requires ValidForAll()
      modifies this
      ensures ValidForAll() && log == old(log) + [Outside(store)]
      ensures list.Some? ==> ManagedPods(list.value, store)
      ensures Quiet() ==> list.Some? && store == old(store)
    {
      TickAll();
      if fault(calls - 1) != Fine {
        return None;
      }
      var todo := set n | n in store.pods && store.pods[n].labels.Managed();
      var found: seq<Pod> := [];
      while todo != {}
        invariant todo <= set n | n in store.pods && store.pods[n].labels.Managed()
        invariant forall p :: p in found ==> p.labels.Managed() && p in store.pods.Values
        invariant forall n :: n in store.pods && store.pods[n].labels.Managed() && n !in todo ==> store.pods[n] in found
      {
        var n :| n in todo;
        found := found + [store.pods[n]];
        todo := todo - {n};
      }
      list := Some(found);
    }

    /** Records the startup marker on the very pod seen: the patch names its uid. */
    method MarkPod(p: Pod) returns (ok: bool, ghost mid: Store)
      requires ValidForAll()
      modifies this
      ensures ValidForAll() && log == old(log) + [Outside(mid), Own(mid, store)]
      ensures store == mid || Marks(p, mid, store)
      ensures Quiet() ==> mid == old(store) && (p.name in mid.pods && mid.pods[p.name].uid == p.uid ==> ok)
      ensures ok ==> p.name in store.pods && store.pods[p.name].uid == p.uid && store.pods[p.name].ann.started
    {
      TickAll();
      mid := store;
      var there := p.name in store.pods && store.pods[p.name].uid == p.uid;
      ok := there && fault(calls - 1) == Fine;
      if there && fault(calls - 1) != Refused {
        CommitForAll(Marked(store, p.name));
      } else {
        CommitForAll(store);
      }
    }

    method CommitForAll(target: Store)
      requires ValidForAll() && (target == store || MarksPod(store, target))
      modifies this`store, this`log
      ensures ValidForAll() && log == old(log) + [Own(old(store), store)] && store == target
    {
      assert Valid("");
      FollowsOwn(store, target);
      LinksOn(log, Own(store, target));
      ghost var before := store;
      log := log + [Own(store, target)];
      store := target;
      hide Linked, MarksPod, StateAt, Follows;
      forall w ensures World(w) && StoreOk(store) && PodsNamed(store, w) {
        assert old(Valid(w));
        MarkedStaysNamed(w, before, store);
      }
    }
  }

  function Marked(s: Store, n: string): (t: Store)
    requires n in s.pods
    ensures MarksPod(s, t)
  {
    s.(pods := s.pods[n := s.pods[n].(ann := s.pods[n].ann.(started := true))])
  }

  lemma MarkedStaysNamed(w: string, s: Store, t: Store)
    requires StoreOk(s) && PodsNamed(s, w) && (t == s || MarksPod(s, t))
    ensures StoreOk(t) && PodsNamed(t, w)
  {
  }
}
