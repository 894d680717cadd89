/** A later attempt against the same cluster: the world, the faults, the clock and the
    random suffixes go on from where the earlier calls left them. */
module Onward {
  import opened Common
  import opened KubeStore
  import opened ClusterApi
  import KubeBackend
  import KubeLifecycle

  /** What comes from the `k`-th on. */
  function From<T>(f: nat -> T, k: nat): (g: nat -> T)
    ensures forall n :: g(n) == f(k + n)
  {
    (n: nat) => f(k + n)
  }

  function WorldFrom(env: (nat, Store) -> Store, k: nat): (later: (nat, Store) -> Store)
    ensures forall n, s :: later(n, s) == env(k + n, s)
  {
    (n: nat, s: Store) => env(k + n, s)
  }

  /** What the calls of `d` meet is what those of `c` from the `k`-th on would. */
  ghost predicate FromCall(c: Cluster, k: nat, d: Cluster) {
    && (forall n, s :: d.env(n, s) == c.env(k + n, s))
    && (forall n :: d.fault(n) == c.fault(k + n) && d.lingers(n) == c.lingers(k + n))
    && (forall n :: d.clock(n) == c.clock(k + n) && d.suffix(n) == c.suffix(k + n))
    && (forall n :: d.seeds(n) == c.seeds(k + n))
  }

  ghost predicate Later(c: Cluster, d: Cluster) { exists k: nat :: FromCall(c, k, d) }

  lemma LaterItself(c: Cluster)
    ensures Later(c, c)
  {
    assert FromCall(c, 0, c);
  }

  lemma LaterStill(c: Cluster, d: Cluster, k: nat, e: Cluster)
    requires Later(c, d) && FromCall(d, k, e)
    ensures Later(c, e)
  {
    var j: nat :| FromCall(c, j, d);
    forall n, s ensures e.env(n, s) == c.env(j + k + n, s) { assert e.env(n, s) == d.env(k + n, s); }
    assert FromCall(c, j + k, e);
  }

  lemma LaterWorld(c: Cluster, d: Cluster, w: string)
    requires Later(c, d) && c.World(w)
    ensures d.World(w)
  {
    var k: nat :| FromCall(c, k, d);
    hide Rely;
  }

  /** Calm stays calm, and what was free or ready for the operations stays so. */
  lemma LaterKeeps(c: Cluster, d: Cluster, cfg: KubeBackend.Config, w: string, s: Store)
    requires Later(c, d)
    ensures c.Quiet() ==> d.Quiet()
    ensures KubeBackend.FreshNames(c, w, s) ==> KubeBackend.FreshNames(d, w, s)
    ensures KubeLifecycle.WorkspaceReady(c, cfg, s, w) ==> KubeLifecycle.WorkspaceReady(d, cfg, s, w)
  {
    var k: nat :| FromCall(c, k, d);
    hide Rely, KubeLifecycle.UsableSeeds;
  }

  /** The same cluster, as a new attempt finds it. */
  method Continue(c: Cluster, w: string) returns (d: Cluster)
    requires c.Valid(w)
    ensures fresh(d) && d.Valid(w) && FromCall(c, c.calls, d)
    ensures d.store == d.origin == c.store && d.log == [] && d.calls == 0
  {
    hide c.World, c.Linked, StoreOk, PodsNamed, From, WorldFrom;
    var k := c.calls;
    d := new Cluster(c.store, WorldFrom(c.env, k), From(c.fault, k), From(c.lingers, k), From(c.clock, k),
      From(c.suffix, k), From(c.seeds, k));
    assert FromCall(c, k, d);
    LaterWorld(c, d, w);
  }

  /** An operation on `w` leaves the pods of every other worker under their names. */
  lemma {:induction false} OthersStayNamed(c: Cluster, w: string, v: string, k: nat)
    requires c.Linked() && c.World(v) && OwnSteps(w, c.log, 0) && v != w && k <= |c.log|
    requires StoreOk(c.origin) && PodsNamed(c.origin, v)
    ensures StoreOk(c.StateAt(c.log, k)) && PodsNamed(c.StateAt(c.log, k), v)
  {
    hide StoreOk, OwnStep, Rely, PodsNamed, c.World, c.Follows;
    if k > 0 {
      OthersStayNamed(c, w, v, k - 1);
      var m := c.log[k - 1];
      assert c.Follows(c.StateAt(c.log, k - 1), m) && (m.Own? ==> OwnStep(w, m.before, m.state));
      MomentKeepsNames(c, w, v, c.StateAt(c.log, k - 1), m);
    }
  }

  lemma MomentKeepsNames(c: Cluster, w: string, v: string, s: Store, m: Moment)
    requires c.World(v) && c.Follows(s, m) && (m.Own? ==> OwnStep(w, m.before, m.state)) && v != w
    requires StoreOk(s) && PodsNamed(s, v)
    ensures StoreOk(m.state) && PodsNamed(m.state, v)
  {
    hide StoreOk, OwnStep, Rely, PodsNamed;
    if m.Own? {
      OwnStepKeepsStore(w, s, m.state);
      OtherWriteIsOutside(v, w, s, m.state);
    }
    NamesKept(v, s, m.state);
  }

  lemma OtherWriteIsOutside(v: string, w: string, s: Store, t: Store)
    requires StoreOk(s) && OwnStep(w, s, t) && v != w && PodsNamed(s, v)
    ensures Rely(v, s, t)
  {
    hide OwnStep, Rely;
    OwnWriteIsOutside(v, w, s, t);
  }

  lemma NamesKept(v: string, s: Store, t: Store)
    requires Rely(v, s, t) && PodsNamed(s, v)
    ensures PodsNamed(t, v)
  {
  }
}
