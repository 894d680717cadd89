/** Spawning, stamping and disposing a worker (internal/backend/kube/kube.go Spawn,
    ensurePVC, RecordClaim, Dispose), on the same footing as Wake. */
module KubeLifecycle {
  import opened Common
  import opened Snapshots
  import opened KubeStore
  import opened ClusterApi
  import opened KubeBackend

  // ---- ensurePVC ------------------------------------------------------------------------

  /** A claim created for `w` records the newest usable snapshot of some listing. */
  ghost predicate SeedChosen(c: Cluster, cfg: Config, w: string, m: Moment) {
    cfg.selectSeed && m.Own? && PvcName(w) !in m.before.pvcs && PvcName(w) in m.state.pvcs ==>
      exists k, x :: c.seeds(k).Some? && IsNewest(x, c.seeds(k).value) && x.name == m.state.pvcs[PvcName(w)].ann.seed
  }

  ghost predicate SeedsChosen(c: Cluster, cfg: Config, w: string, log: seq<Moment>, from: nat) {
    forall i | from <= i < |log| :: SeedChosen(c, cfg, w, log[i])
  }

  /** One new claim of the worker and its pool, stamped for this spawn over the template,
      and nothing else; its seed is the template's unless one is asked for. */
  ghost predicate MakesPvc(c: Cluster, cfg: Config, spec: Spec, s: Store, t: Store) {
    var n := PvcName(spec.worker);
    && n !in s.pvcs && n in t.pvcs && t == s.(pvcs := s.pvcs[n := t.pvcs[n]], nextUid := s.nextUid + 1)
    && var p := t.pvcs[n];
       && p.name == spec.worker + "-ws" && p.uid == s.nextUid && p.labels == Labels(true, Some(spec.worker), spec.pool)
       && p.deletedAt.None? && StampedFor(c, spec, cfg.pvcAnnotations, p.ann)
       && p.ann.started == cfg.pvcAnnotations.started && (!cfg.selectSeed ==> p.ann.seed == cfg.pvcAnnotations.seed)
  }

  /** A claim that was there is stamped; one that was not is made. */
  ghost predicate WorkspaceFor(c: Cluster, cfg: Config, spec: Spec, s: Store, t: Store) {
    if PvcName(spec.worker) in s.pvcs then Restamps(c, spec, s, t) else MakesPvc(c, cfg, spec, s, t)
  }

  /** At some moment of the call the claim was there, the worker's, and not terminating. */
  ghost predicate SawWorkspace(w: string, log: seq<Moment>, from: nat) {
    exists i | from <= i < |log| :: PvcRetained(log[i].state, w)
  }

  lemma WorkspaceLogged(w: string, log: seq<Moment>, from: nat, k: nat)
    requires from <= k < |log| && PvcRetained(log[k].state, w)
    ensures SawWorkspace(w, log, from)
  {
  }

  /** At some moment from `from` on the claim could not be used: absent, terminating or foreign. */
  ghost predicate Unretained(w: string, log: seq<Moment>, from: nat) {
    exists i | from <= i < |log| :: !PvcRetained(log[i].state, w)
  }

  lemma UnretainedAt(w: string, log: seq<Moment>, from: nat, i: nat)
    requires from <= i < |log| && !PvcRetained(log[i].state, w)
    ensures Unretained(w, log, from)
  {
  }

  lemma UnretainedSince(w: string, log: seq<Moment>, from: nat, later: nat)
    requires from <= later && Unretained(w, log, later)
    ensures Unretained(w, log, from)
  {
  }

  /** At some moment the claim was there, and since then at one it could not be used. */
  ghost predicate FoundUnusable(w: string, log: seq<Moment>, from: nat) {
    exists i | from <= i < |log| :: PvcName(w) in log[i].state.pvcs && Unretained(w, log, i)
  }

  lemma FoundUnusableAt(w: string, log: seq<Moment>, from: nat, i: nat)
    requires from <= i < |log| && PvcName(w) in log[i].state.pvcs && Unretained(w, log, i)
    ensures FoundUnusable(w, log, from)
  {
  }

  lemma FoundUnusableSince(w: string, log: seq<Moment>, from: nat, later: nat)
    requires from <= later && FoundUnusable(w, log, later)
    ensures FoundUnusable(w, log, from)
  {
  }

  /** No seed is asked for, or a usable one is always listed. */
  ghost predicate SeedsReady(c: Cluster, cfg: Config) { !cfg.selectSeed || forall k :: UsableSeeds(c.seeds(k)) }

  /** Takes over a claim that is already there. */
  method Reuse(c: Cluster, cfg: Config, spec: Spec, existing: Pvc) returns (ok: bool)
    requires c.Valid(spec.worker)
    requires PvcName(spec.worker) in c.store.pvcs && existing == c.store.pvcs[PvcName(spec.worker)]
    modifies c
    ensures c.Valid(spec.worker)
    ensures old(c.log) <= c.log && OwnSteps(spec.worker, c.log, |old(c.log)|)
    ensures SeedsCarried(cfg, spec.worker, c.log, |old(c.log)|)
    ensures SeedsChosen(c, cfg, spec.worker, c.log, |old(c.log)|)
    ensures !old(HasLive(c.store, spec.worker)) ==> !HasLive(c.store, spec.worker)
    ensures ok ==> PvcRetained(old(c.store), spec.worker)
    ensures c.Works() && !ok ==>
      !PvcRetained(old(c.store), spec.worker) || Unretained(spec.worker, c.log, |old(c.log)|)
    ensures c.Quiet() ==> (ok <==> PvcRetained(old(c.store), spec.worker))
    ensures c.Quiet() ==> OthersSame(spec.worker, old(c.store), c.store) && c.store.pods == old(c.store).pods
    ensures c.Quiet() && ok ==> Restamps(c, spec, old(c.store), c.store) && PvcRetained(c.store, spec.worker)
    ensures !PvcRetained(old(c.store), spec.worker) ==> c.store == old(c.store)
  {
    hide Rely, KeepsPvc, c.World, c.Linked, c.Quiet, c.PvcKept, HasLive, OwnStep, OwnSteps, SeedsCarried, SeedChosen,
      OthersSame, c.Found;
    var w := spec.worker;
    ghost var log0, store0 := c.log, c.store;
    NothingLogged(cfg, w, log0);
    SameOthers(w, store0);
    if existing.deletedAt.Some? || existing.labels.Owner() != w {
      return false;
    }
    var change := Restamped(spec, c.Now());
    var patched, mid := c.PatchPvc(w, change);
    FoundStaysDead(c, w, store0, mid);
    Annotated(w, change, mid, c.store);
    Accounted(c, cfg, w, log0, |log0|, store0, mid, c.store);
    NothingChosen(c, cfg, w, mid, c.store);
    ok := patched.Written?;
    if c.Works() && !ok { UnretainedAt(w, c.log, |log0|, |log0|); }
  }

  lemma NothingChosen(c: Cluster, cfg: Config, w: string, mid: Store, s: Store)
    requires PvcName(w) in s.pvcs ==> PvcName(w) in mid.pvcs
    ensures SeedChosen(c, cfg, w, Own(mid, s)) && SeedChosen(c, cfg, w, Outside(mid))
  {
  }

  /** What the claim of a new worker records as its seed. */
  method ChooseSeed(c: Cluster, cfg: Config, w: string, template: Annotations) returns (ann: Option<Annotations>)
    requires c.Valid(w)
    modifies c
    ensures c.Valid(w) && c.Found(w, old(c.store), c.store)
    ensures c.log == old(c.log) + [Outside(c.store)] || (c.log == old(c.log) && c.store == old(c.store))
    ensures ann.Some? ==> ann.value == template.(seed := ann.value.seed)
    ensures ann.Some? && !cfg.selectSeed ==> ann.value == template
    ensures ann.Some? && cfg.selectSeed ==>
      exists k, x :: c.seeds(k).Some? && IsNewest(x, c.seeds(k).value) && x.name == ann.value.seed
    ensures c.Works() && SeedsReady(c, cfg) ==> ann.Some?
    ensures c.Quiet() ==> (ann.Some? <==> !cfg.selectSeed || UsableSeeds(c.seeds(old(c.calls))))
  {
    if !cfg.selectSeed {
      FoundSame(c, w, c.store);
      return Some(template);
    }
    hide Rely, KeepsPvc, c.World, c.Linked, c.Quiet, c.PvcKept, c.Found;
    var list := c.ListSeeds(w);
    if list.None? {
      return None;
    }
    var chosen := SelectSnapshot(list.value);
    ann := if chosen.Some? then Some(template.(seed := chosen.value)) else None;
  }

  ghost predicate UsableSeeds(list: Option<seq<Snapshot>>) {
    list.Some? && exists y :: y in list.value && y.readyToUse && !y.deleting
  }

  lemma FoundSame(c: Cluster, w: string, s: Store)
    requires StoreOk(s) && PodsNamed(s, w)
    ensures c.Found(w, s, s)
  {
  }

  /** Somebody else made the claim in the meantime: read it again and take it over. */
  method TakeOver(c: Cluster, cfg: Config, spec: Spec) returns (ok: bool)
    requires c.Valid(spec.worker)
    modifies c
    ensures c.Valid(spec.worker)
    ensures old(c.log) <= c.log && OwnSteps(spec.worker, c.log, |old(c.log)|)
    ensures SeedsCarried(cfg, spec.worker, c.log, |old(c.log)|)
    ensures SeedsChosen(c, cfg, spec.worker, c.log, |old(c.log)|)
    ensures !old(HasLive(c.store, spec.worker)) ==> !HasLive(c.store, spec.worker)
    ensures ok ==> SawWorkspace(spec.worker, c.log, |old(c.log)|)
    // When no call fails, it is taken over unless it could not be used at one of its moments.
    ensures c.Works() && !ok ==> Unretained(spec.worker, c.log, |old(c.log)|)
    ensures c.Quiet() ==> OthersSame(spec.worker, old(c.store), c.store) && c.store.pods == old(c.store).pods
  {
    hide Rely, KeepsPvc, c.World, c.Linked, c.Quiet, c.PvcKept, HasLive, OwnStep, OwnSteps, SeedsCarried, SeedsChosen,
      SeedChosen, OthersSame, c.Found, CreatesPvc, IsNewest, SawWorkspace, Restamps, MakesPvc,
      Unretained, FoundUnusable, SeedsReady, c.Works;
    var w := spec.worker;
    ghost var log0, store0 := c.log, c.store;
    NothingLogged(cfg, w, log0);
    SameOthers(w, store0);
    var reply := c.GetPvc(w);
    ghost var log1, store1 := c.log, c.store;
    OneRead(c, cfg, w, log0, store0, store1);
    if !PvcRetained(store1, w) { UnretainedAt(w, c.log, |log0|, |log0|); }
    if !reply.FoundPvc? {
      return false;
    }
    ok := Reuse(c, cfg, spec, reply.pvc);
    Joined(cfg, w, log1, c.log, |log0|);
    ChosenJoined(c, cfg, w, log1, c.log, |log0|);
    if ok { WorkspaceLogged(w, c.log, |log0|, |log0|); }
    if c.Works() && !ok {
      if !PvcRetained(store1, w) {
        UnretainedAt(w, c.log, |log0|, |log0|);
      } else {
        UnretainedSince(w, c.log, |log0|, |log1|);
      }
    }
  }

  /** The claim is not there: make it; if someone was faster, take theirs over. */
  method MakePvc(c: Cluster, cfg: Config, spec: Spec) returns (ok: bool)
    requires c.Valid(spec.worker)
    modifies c
    ensures c.Valid(spec.worker)
    ensures old(c.log) <= c.log && OwnSteps(spec.worker, c.log, |old(c.log)|)
    ensures SeedsCarried(cfg, spec.worker, c.log, |old(c.log)|)
    ensures SeedsChosen(c, cfg, spec.worker, c.log, |old(c.log)|)
    ensures !old(HasLive(c.store, spec.worker)) ==> !HasLive(c.store, spec.worker)
    ensures ok ==> SawWorkspace(spec.worker, c.log, |old(c.log)|)
    // When no call fails and a seed can be had, it fails only if somebody was faster and
    // that claim could not be used afterwards.
    ensures c.Works() && SeedsReady(c, cfg) && !ok ==> FoundUnusable(spec.worker, c.log, |old(c.log)|)
    ensures c.Quiet() ==> OthersSame(spec.worker, old(c.store), c.store) && c.store.pods == old(c.store).pods
    ensures c.Quiet() && PvcName(spec.worker) !in old(c.store).pvcs ==>
      (ok <==> !cfg.selectSeed || UsableSeeds(c.seeds(old(c.calls))))
    ensures c.Quiet() && PvcName(spec.worker) !in old(c.store).pvcs && ok ==>
      PvcRetained(c.store, spec.worker) && MakesPvc(c, cfg, spec, old(c.store), c.store)
    ensures c.Quiet() && PvcName(spec.worker) !in old(c.store).pvcs && !ok ==> c.store == old(c.store)
  {
    hide Rely, KeepsPvc, c.World, c.Linked, c.Quiet, c.PvcKept, HasLive, OwnStep, OwnSteps, SeedsCarried, SeedsChosen,
      SeedChosen, OthersSame, c.Found, CreatesPvc, IsNewest, SawWorkspace, Restamps, MakesPvc,
      Unretained, FoundUnusable, SeedsReady, c.Works;
    var w := spec.worker;
    ghost var log0, store0 := c.log, c.store;
    NothingLogged(cfg, w, log0);
    SameOthers(w, store0);
    ghost var now := c.calls;
    var pvc := BuildPvc(cfg, spec, c.Now());
    var ann := ChooseSeed(c, cfg, w, pvc.ann);
    ghost var log2, store2 := c.log, c.store;
    ChoiceLogged(c, cfg, w, log0, |log0|, store0, log2, store2);
    if ann.None? {
      return false;
    }
    pvc := pvc.(ann := ann.value);
    var made, mid := c.CreatePvc(w, pvc);
    ghost var log3, store3 := c.log, c.store;
    CreateLogged(c, cfg, w, pvc, log2, |log0|, store2, mid, store3);
    if made.Written? {
      CreatedRetained(w, mid, store3);
      CreatedMakes(c, cfg, spec, now, pvc, mid, store3);
      WorkspaceLogged(w, c.log, |log0|, |c.log| - 1);
      return true;
    }
    if !made.Exists? {
      return false;
    }
    ok := TakeOver(c, cfg, spec);
    Joined(cfg, w, log3, c.log, |log0|);
    ChosenJoined(c, cfg, w, log3, c.log, |log0|);
    if c.Quiet() { OthersChain(w, store0, store3, c.store); }
    if ok { WorkspaceLater(w, log3, c.log, |log0|); }
    if c.Works() && !ok {
      UnretainedSince(w, c.log, |log2|, |log3|);
      FoundUnusableAt(w, c.log, |log0|, |log2|);
    }
  }

  /** The claim of a worker: reused without choosing a seed again, or made. */
  method EnsurePvc(c: Cluster, cfg: Config, spec: Spec) returns (ok: bool)
    requires c.Valid(spec.worker)
    modifies c
    ensures c.Valid(spec.worker)
    ensures old(c.log) <= c.log && OwnSteps(spec.worker, c.log, |old(c.log)|)
    ensures SeedsCarried(cfg, spec.worker, c.log, |old(c.log)|)
    ensures SeedsChosen(c, cfg, spec.worker, c.log, |old(c.log)|)
    ensures !old(HasLive(c.store, spec.worker)) ==> !HasLive(c.store, spec.worker)
    ensures ok ==> SawWorkspace(spec.worker, c.log, |old(c.log)|)
    ensures c.Works() && SeedsReady(c, cfg) && !ok ==> FoundUnusable(spec.worker, c.log, |old(c.log)|)
    ensures c.Quiet() ==> OthersSame(spec.worker, old(c.store), c.store) && c.store.pods == old(c.store).pods
    ensures c.Quiet() && PvcName(spec.worker) in old(c.store).pvcs ==> (ok <==> PvcRetained(old(c.store), spec.worker))
    ensures c.Quiet() && ok ==> WorkspaceFor(c, cfg, spec, old(c.store), c.store)
    ensures c.Quiet() && PvcName(spec.worker) !in old(c.store).pvcs ==>
      (ok <==> !cfg.selectSeed || UsableSeeds(c.seeds(old(c.calls) + 1)))
    ensures c.Quiet() && ok ==> PvcRetained(c.store, spec.worker)
    ensures c.Quiet() && !ok ==> c.store == old(c.store)
  {
    hide Rely, KeepsPvc, c.World, c.Linked, c.Quiet, c.PvcKept, HasLive, OwnStep, OwnSteps, SeedsCarried, SeedsChosen,
      SeedChosen, OthersSame, c.Found, CreatesPvc, IsNewest, SawWorkspace, Restamps, MakesPvc,
      Unretained, FoundUnusable, SeedsReady, c.Works;
    var w := spec.worker;
    ghost var log0, store0 := c.log, c.store;
    NothingLogged(cfg, w, log0);
    SameOthers(w, store0);
    var reply := c.GetPvc(w);
    ghost var log1, store1 := c.log, c.store;
    OneRead(c, cfg, w, log0, store0, store1);
    if reply.PvcError? {
      return false;
    }
    if reply.FoundPvc? {
      ok := Reuse(c, cfg, spec, reply.pvc);
      if ok { WorkspaceLogged(w, c.log, |log0|, |log0|); }
      if c.Works() && !ok {
        if !PvcRetained(store1, w) {
          UnretainedAt(w, c.log, |log0|, |log0|);
        } else {
          UnretainedSince(w, c.log, |log0|, |log1|);
        }
        FoundUnusableAt(w, c.log, |log0|, |log0|);
      }
    } else {
      ok := MakePvc(c, cfg, spec);
      if ok { WorkspaceLater(w, log1, c.log, |log0|); }
      if c.Works() && SeedsReady(c, cfg) && !ok { FoundUnusableSince(w, c.log, |log0|, |log1|); }
    }
    Joined(cfg, w, log1, c.log, |log0|);
    ChosenJoined(c, cfg, w, log1, c.log, |log0|);
  }

  lemma WorkspaceLater(w: string, part: seq<Moment>, whole: seq<Moment>, from: nat)
    requires from <= |part| <= |whole| && SawWorkspace(w, whole, |part|)
    ensures SawWorkspace(w, whole, from)
  {
  }

  lemma CreatedMakes(c: Cluster, cfg: Config, spec: Spec, k: nat, p: Pvc, s: Store, t: Store)
    requires CreatesPvc(spec.worker, s, t)
    requires t.pvcs[PvcName(spec.worker)] == p.(uid := s.nextUid, created := t.pvcs[PvcName(spec.worker)].created)
    requires var b := BuildPvc(cfg, spec, c.clock(k)); p == b.(ann := b.ann.(seed := p.ann.seed))
    requires !cfg.selectSeed ==> p.ann.seed == cfg.pvcAnnotations.seed
    ensures MakesPvc(c, cfg, spec, s, t)
  {
  }

  lemma CreatedRetained(w: string, mid: Store, s: Store)
    requires CreatesPvc(w, mid, s) && s.pvcs[PvcName(w)].deletedAt.None?
    ensures PvcRetained(s, w)
  {
  }

  lemma ChosenJoined(c: Cluster, cfg: Config, w: string, part: seq<Moment>, whole: seq<Moment>, from: nat)
    requires from <= |part| && part <= whole
    requires SeedsChosen(c, cfg, w, part, from) && SeedsChosen(c, cfg, w, whole, |part|)
    ensures SeedsChosen(c, cfg, w, whole, from)
  {
  }

  lemma OneRead(c: Cluster, cfg: Config, w: string, log: seq<Moment>, s: Store, t: Store)
    requires c.Found(w, s, t)
    ensures OwnSteps(w, log + [Outside(t)], |log|) && SeedsCarried(cfg, w, log + [Outside(t)], |log|)
    ensures SeedsChosen(c, cfg, w, log + [Outside(t)], |log|)
    ensures !HasLive(s, w) ==> !HasLive(t, w)
    ensures c.Quiet() ==> t == s
  {
    FoundStaysDead(c, w, s, t);
  }

  lemma ChoiceLogged(c: Cluster, cfg: Config, w: string, log: seq<Moment>, from: nat, s: Store, after: seq<Moment>,
      t: Store)
    requires from <= |log| && c.Found(w, s, t) && (after == log + [Outside(t)] || after == log)
    requires OwnSteps(w, log, from) && SeedsCarried(cfg, w, log, from) && SeedsChosen(c, cfg, w, log, from)
    ensures OwnSteps(w, after, from) && SeedsCarried(cfg, w, after, from) && SeedsChosen(c, cfg, w, after, from)
    ensures !HasLive(s, w) ==> !HasLive(t, w)
    ensures c.Quiet() ==> t == s
  {
    FoundStaysDead(c, w, s, t);
  }

  lemma CreateLogged(c: Cluster, cfg: Config, w: string, pvc: Pvc, log: seq<Moment>, from: nat, s: Store, mid: Store,
      t: Store)
    requires from <= |log| && c.Found(w, s, mid) && OwnStep(w, mid, t) && t.pods == mid.pods
    requires OwnSteps(w, log, from) && SeedsCarried(cfg, w, log, from) && SeedsChosen(c, cfg, w, log, from)
    requires t != mid ==>
      CreatesPvc(w, mid, t) && t.pvcs[PvcName(w)] == pvc.(uid := mid.nextUid, created := t.pvcs[PvcName(w)].created)
    requires cfg.selectSeed ==>
      exists k, x :: c.seeds(k).Some? && IsNewest(x, c.seeds(k).value) && x.name == pvc.ann.seed
    ensures OwnSteps(w, log + [Outside(mid), Own(mid, t)], from)
    ensures SeedsCarried(cfg, w, log + [Outside(mid), Own(mid, t)], from)
    ensures SeedsChosen(c, cfg, w, log + [Outside(mid), Own(mid, t)], from)
    ensures !HasLive(s, w) ==> !HasLive(t, w)
    ensures c.Quiet() ==> mid == s && OthersSame(w, s, t)
  {
    hide IsNewest, OwnStep, CreatesPvc, HasLive;
    Accounted(c, cfg, w, log, from, s, mid, t);
    FoundStaysDead(c, w, s, mid);
    SamePodsSameLive(w, mid, t);
  }

  // ---- Spawn -----------------------------------------------------------------------------

  function Defaulted(spec: Spec): Spec { if spec.kind == "" then spec.(kind := "claim") else spec }

  /** Spawn: the workspace, then one pod. It does not look whether the id is in use: its
      writes are legal steps, and the worker has one live pod, exactly if none was live. */
  method Spawn(c: Cluster, cfg: Config, given: Spec) returns (ok: bool)
    requires c.Valid(given.worker)
    modifies c
    ensures c.Valid(given.worker)
    ensures old(c.log) <= c.log && OwnWrites(given.worker, c.log, |old(c.log)|)
    ensures !old(HasLive(c.store, given.worker)) ==> OwnSteps(given.worker, c.log, |old(c.log)|)
    ensures cfg.persistent && c.PvcKept(given.worker) ==> SeedsCarried(cfg, given.worker, c.log, |old(c.log)|)
    ensures ok ==> HasLive(c.store, given.worker) && SawLive(given.worker, c.log, |old(c.log)|)
    ensures ok && cfg.persistent ==> SawWorkspace(given.worker, c.log, |old(c.log)|)
    // When nobody interferes and no call fails:
    ensures c.Quiet() ==> OthersSame(given.worker, old(c.store), c.store)
    ensures c.Quiet() && cfg.persistent && ok ==> PvcRetained(c.store, given.worker)
    ensures c.Quiet() && ok ==>
      var spec := given.(kind := if given.kind == "" then "claim" else given.kind);
      exists mid ::
        && (if cfg.persistent then WorkspaceFor(c, cfg, spec, old(c.store), mid) else mid == old(c.store))
        && AddsPod(c, cfg, spec, mid, c.store)
    ensures c.Quiet() && ok ==> (AtMostOneLive(c.store, given.worker) <==> !HasLive(old(c.store), given.worker))
    ensures (c.Quiet() && FreshNames(c, given.worker, old(c.store))
      && (!cfg.persistent || WorkspaceReady(c, cfg, old(c.store), given.worker))) ==> ok
  {
    hide Rely, KeepsPvc, c.World, c.Linked, c.Quiet, c.PvcKept, HasLive, OwnStep, OwnWrite, OwnSteps, OwnWrites,
      SeedsCarried, SawLive, OthersSame, FreshNames, c.Found, SawWorkspace, SeedsChosen, WorkspaceFor, AddsPod,
      AtMostOneLive;
    var spec := Defaulted(given);
    var w := spec.worker;
    ghost var log0, store0 := c.log, c.store;
    NothingLogged(cfg, w, log0);
    SameOthers(w, store0);
    if cfg.persistent {
      ok := EnsurePvc(c, cfg, spec);
      StepsAreWrites(w, c.log, |log0|);
      if !ok {
        return;
      }
    }
    ghost var log1, store1 := c.log, c.store;
    if c.Quiet() { FreshKept(c, w, store0, store1); }
    ok := CreatePod(c, cfg, spec);
    JoinedWrites(cfg, w, log0, log1, c.log);
    if c.Quiet() {
      OthersChain(w, store0, store1, c.store);
      if ok { OneMoreLive(c, cfg, spec, store0, store1, c.store); }
    }
    if cfg.persistent { WorkspaceStays(w, log1, c.log, |log0|); }
  }

  lemma StepsAreWrites(w: string, log: seq<Moment>, from: nat)
    requires OwnSteps(w, log, from)
    ensures OwnWrites(w, log, from)
  {
  }

  lemma JoinedWrites(cfg: Config, w: string, first: seq<Moment>, part: seq<Moment>, whole: seq<Moment>)
    requires first <= part <= whole && OwnWrites(w, part, |first|) && OwnWrites(w, whole, |part|)
    requires OwnSteps(w, part, |first|)
    ensures OwnWrites(w, whole, |first|)
    ensures OwnSteps(w, whole, |part|) ==> OwnSteps(w, whole, |first|)
    ensures SeedsCarried(cfg, w, part, |first|) && SeedsCarried(cfg, w, whole, |part|) ==>
      SeedsCarried(cfg, w, whole, |first|)
    ensures SawLive(w, whole, |part|) ==> SawLive(w, whole, |first|)
  {
  }

  lemma OneMoreLive(c: Cluster, cfg: Config, spec: Spec, s: Store, mid: Store, t: Store)
    requires s.pods == mid.pods && AddsPod(c, cfg, spec, mid, t)
    ensures AtMostOneLive(t, spec.worker) <==> !HasLive(s, spec.worker)
  {
    hide IsBuilt;
    var w := spec.worker;
    var n :| n !in mid.pods && n in t.pods && t == mid.(pods := mid.pods[n := t.pods[n]], nextUid := mid.nextUid + 1)
      && IsBuilt(c, cfg, spec, t.pods[n]) && HasSeed(cfg, mid, w, t.pods[n]);
    BuiltLives(c, cfg, spec, t.pods[n]);
    assert LivePod(t, w, n);
    if m :| LivePod(s, w, m) {
      assert LivePod(t, w, m) && m != n;
    } else {
      forall m | LivePod(t, w, m) ensures m == n {
        assert !LivePod(s, w, m);
      }
    }
  }

  /** The claim is retained, or can be made: no seed is asked for, or one is always usable. */
  ghost predicate WorkspaceReady(c: Cluster, cfg: Config, s: Store, w: string) {
    || PvcRetained(s, w)
    || (PvcName(w) !in s.pvcs && (!cfg.selectSeed || forall k :: UsableSeeds(c.seeds(k))))
  }

  lemma WorkspaceStays(w: string, part: seq<Moment>, whole: seq<Moment>, from: nat)
    requires from <= |part| && part <= whole && SawWorkspace(w, part, from)
    ensures SawWorkspace(w, whole, from)
  {
  }
}
