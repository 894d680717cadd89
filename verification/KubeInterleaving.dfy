/** Operations on one worker in the midst of operations on others: the world's moves
    between two of its calls are themselves steps of other workers' operations and of
    outsiders, and the whole, taken apart, is a run. */
module KubeInterleaving {
  import opened Common
  import opened KubeStore
  import opened ClusterApi
  import KubeBackend
  import KubeLifecycle
  import KubeDispose
  import opened KubeRuns

  /** A step of somebody else: of an operation on another worker, of ListWorkers, or of outsiders. */
  ghost predicate OtherStep(w: string, s: Store, t: Store) {
    Outsiders(s, t) || MarksPod(s, t) || exists v :: v != w && OwnStep(v, s, t)
  }

  /** Any number of such steps. */
  ghost predicate OtherSteps(w: string, run: seq<Store>) {
    run != [] && forall i | 0 <= i < |run| - 1 :: OtherStep(w, run[i], run[i + 1])
  }

  ghost predicate Leads(w: string, run: seq<Store>, s: Store, t: Store) {
    OtherSteps(w, run) && run[0] == s && run[|run| - 1] == t
  }

  /** What the world does between two calls of an operation on `w` is made of such steps. */
  ghost predicate Shared(c: Cluster, w: string) {
    forall k, s :: Settled(s) ==> exists run :: Leads(w, run, s, c.env(k, s))
  }

  // ---- such steps respect the worker -----------------------------------------------------

  lemma OtherStepIsRunStep(w: string, s: Store, t: Store)
    requires OtherStep(w, s, t)
    ensures RunStep(s, t)
  {
  }

  lemma OtherStepRespects(w: string, s: Store, t: Store)
    requires Settled(s) && OtherStep(w, s, t)
    ensures Settled(t) && Rely(w, s, t)
  {
    OtherStepIsRunStep(w, s, t);
    StepKeepsSettled(s, t);
    assert PodsNamed(s, w);
    hide OwnStep, MarksPod, Rely;
    if Outsiders(s, t) {
    } else if MarksPod(s, t) {
      MarkingIsOutside(s, t);
    } else {
      var v :| v != w && OwnStep(v, s, t);
      OwnWriteIsOutside(w, v, s, t);
    }
  }

  /** What an operation on `w` assumes of the world is what the other steps give. */
  lemma {:induction false} OthersRespect(w: string, run: seq<Store>, k: nat)
    requires OtherSteps(w, run) && Settled(run[0]) && k < |run|
    ensures Settled(run[k]) && Rely(w, run[0], run[k])
  {
    if k == 0 {
      RelyItself(w, run[0]);
    } else {
      OthersRespect(w, run, k - 1);
      hide Settled, Rely, OtherStep;
      assert OtherStep(w, run[k - 1], run[k - 1 + 1]);
      OtherStepRespects(w, run[k - 1], run[k]);
      RelyTransitive(w, run[0], run[k - 1], run[k]);
    }
  }

  // ---- the run taken apart ------------------------------------------------------------------

  lemma RunExtends(run: seq<Store>, more: seq<Store>)
    requires IsRun(run) && more != [] && more[0] == run[|run| - 1]
    requires forall i | 0 <= i < |more| - 1 :: RunStep(more[i], more[i + 1])
    ensures IsRun(run + more[1..]) && (run + more[1..])[|run| - 1 + |more| - 1] == more[|more| - 1]
  {
    hide RunStep, Settled;
    var all := run + more[1..];
    assert all[0] == run[0] && forall j :: 0 <= j < |more| ==> all[|run| - 1 + j] == more[j];
    forall i | 0 <= i < |all| - 1 ensures RunStep(all[i], all[i + 1]) {
      if i < |run| - 1 {
        assert RunStep(run[i], run[i + 1]);
      } else {
        var j := i - (|run| - 1);
        assert RunStep(more[j], more[j + 1]);
      }
    }
  }

  /** Every state the log records is in the run, in order, the last one at its end. */
  ghost predicate Tells(run: seq<Store>, at: seq<nat>, origin: Store, log: seq<Moment>) {
    && run != [] && run[0] == origin && |at| == |log|
    && (forall i :: 0 <= i < |at| ==> at[i] < |run| && run[at[i]] == log[i].state)
    && (forall i, j :: 0 <= i < j < |at| ==> at[i] <= at[j])
    && (if log == [] then |run| == 1 else at[|at| - 1] == |run| - 1)
  }

  lemma TellsMore(run: seq<Store>, at: seq<nat>, origin: Store, log: seq<Moment>, m: Moment, more: seq<Store>)
    requires Tells(run, at, origin, log) && more != [] && more[|more| - 1] == m.state
    requires more[0] == run[|run| - 1]
    ensures Tells(run + more[1..], at + [|run| + |more| - 2], origin, log + [m])
  {
    var all, at' := run + more[1..], at + [|run| + |more| - 2];
    assert all[|run| - 1 + |more| - 1] == m.state;
    forall i | 0 <= i < |at'| ensures at'[i] < |all| && all[at'[i]] == (log + [m])[i].state {
      if i < |at| { assert at'[i] == at[i]; }
    }
  }

  /** The writes since the beginning were made by operations on `w`. */
  ghost predicate ByWorker(w: string, log: seq<Moment>) { OwnSteps(w, log, 0) }

  /** The moment as a sequence of run steps from the state it found. */
  lemma Unfolded(c: Cluster, w: string, s: Store, m: Moment) returns (more: seq<Store>)
    requires Shared(c, w) && Settled(s) && c.Follows(s, m) && (m.Own? ==> OwnStep(w, m.before, m.state))
    ensures more != [] && more[0] == s && more[|more| - 1] == m.state
    ensures forall i | 0 <= i < |more| - 1 :: RunStep(more[i], more[i + 1])
  {
    hide OwnStep, Settled, MarksPod, Outsiders;
    match m
    case Own(_, t) => more := [s, t];
    case Outside(t) =>
      var k :| t == c.env(k, s);
      var run :| Leads(w, run, s, c.env(k, s));
      more := run;
      forall i | 0 <= i < |more| - 1 ensures RunStep(more[i], more[i + 1]) {
        OtherStepIsRunStep(w, more[i], more[i + 1]);
      }
  }

  lemma {:induction false} UnfoldLog(c: Cluster, w: string, k: nat) returns (run: seq<Store>, at: seq<nat>)
    requires Shared(c, w) && c.Linked() && Settled(c.origin) && ByWorker(w, c.log) && k <= |c.log|
    ensures IsRun(run) && Tells(run, at, c.origin, c.log[..k])
  {
    hide Shared, Settled, RunStep, OwnStep, Tells, IsRun, ByWorker, c.Linked, c.Follows;
    if k == 0 {
      run, at := [c.origin], [];
      Begun(c.origin);
      assert c.log[..0] == [];
    } else {
      run, at := UnfoldLog(c, w, k - 1);
      LastState(run, at, c.origin, c.log[..k - 1]);
      var s, m := run[|run| - 1], c.log[k - 1];
      NextMoment(c, w, k - 1);
      OneLivePodAlways(run, |run| - 1);
      var more := Unfolded(c, w, s, m);
      RunExtends(run, more);
      TellsMore(run, at, c.origin, c.log[..k - 1], m, more);
      Prefix(c.log, k);
      run, at := run + more[1..], at + [|run| + |more| - 2];
    }
  }

  lemma NextMoment(c: Cluster, w: string, k: nat)
    requires c.Linked() && ByWorker(w, c.log) && k < |c.log|
    ensures var s := if k == 0 then c.origin else c.log[..k][k - 1].state;
      c.Follows(s, c.log[k]) && (c.log[k].Own? ==> OwnStep(w, c.log[k].before, c.log[k].state))
  {
    hide OwnStep;
    assert c.Follows(c.StateAt(c.log, k), c.log[k]);
  }

  lemma Prefix<T>(s: seq<T>, k: nat)
    requires 0 < k <= |s|
    ensures s[..k] == s[..k - 1] + [s[k - 1]]
  {
  }

  lemma Begun(s: Store)
    requires Settled(s)
    ensures IsRun([s]) && Tells([s], [], s, [])
  {
  }

  lemma LastState(run: seq<Store>, at: seq<nat>, origin: Store, log: seq<Moment>)
    requires Tells(run, at, origin, log)
    ensures run != [] && run[|run| - 1] == if log == [] then origin else log[|log| - 1].state
  {
  }

  // ---- operations on one worker among the others ---------------------------------------------------

  datatype Call = Wake(spec: KubeBackend.Spec) | RecordClaim(requestId: string) | Dispose(reason: string)

  /** A new worker's life: one Spawn under a new id, then any calls for it, while other
      workers' operations and outsiders act between any two requests to the cluster. The
      history, with all their steps, is a run: the theorems on runs hold of it. */
  method Live(c: Cluster, cfg: KubeBackend.Config, spec: KubeBackend.Spec, calls: seq<Call>)
    returns (ghost run: seq<Store>, ghost at: seq<nat>)
    requires c.Valid(spec.worker) && Shared(c, spec.worker) && Settled(c.origin) && c.log == []
    requires !HasLive(c.store, spec.worker)
    requires forall i :: 0 <= i < |calls| && calls[i].Wake? ==> calls[i].spec.worker == spec.worker
    modifies c
    ensures c.Valid(spec.worker) && IsRun(run) && Tells(run, at, c.origin, c.log)
    ensures cfg.persistent && c.PvcKept(spec.worker) ==> KubeBackend.SeedsCarried(cfg, spec.worker, c.log, 0)
  {
    hide c.Valid, Shared, Settled, OwnSteps, IsRun, Tells, HasLive, KubeBackend.SeedsCarried, c.PvcKept;
    var w := spec.worker;
    var spawned := KubeLifecycle.Spawn(c, cfg, spec);
    for i := 0 to |calls|
      invariant c.Valid(w) && OwnSteps(w, c.log, 0)
      invariant cfg.persistent && c.PvcKept(w) ==> KubeBackend.SeedsCarried(cfg, w, c.log, 0)
    {
      ghost var part := c.log;
      match calls[i] {
        case Wake(again) => var err := KubeBackend.Wake(c, cfg, again);
        case RecordClaim(requestId) => var ok := KubeDispose.RecordClaim(c, cfg, w, requestId);
        case Dispose(reason) => var ok := KubeDispose.Dispose(c, cfg, w, reason);
      }
      KubeBackend.Joined(cfg, w, part, c.log, 0);
    }
    assert c.Linked() by { ValidLinks(c, w); }
    run, at := UnfoldLog(c, w, |c.log|);
    assert c.log[..|c.log|] == c.log;
  }

  lemma ValidLinks(c: Cluster, w: string)
    requires c.Valid(w)
    ensures c.Linked()
  {
  }
}
