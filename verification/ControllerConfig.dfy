/** The controller's settings and their defaults (internal/controller/controller.go
    Config.defaults). Durations in milliseconds. */
module ControllerConfig {
  import opened Common

  datatype Config = Config(
    pools: seq<string>,
    workerIdPrefix: string,
    warmIdle: int,
    warmInterval: int,
    resyncInterval: int,
    reconnectDelay: int,
    wakeRetryInterval: int,
    disposeAfter: int,
    disposeArchivedAfter: int,
    disposeUnclaimedAfter: int,
    checkAgent: bool)

  /** Position of the first `x` in `s`. */
  function FirstAt(s: seq<string>, x: string): (i: nat)
    requires x in s
    ensures i < |s| && s[i] == x && x !in s[..i]
  {
    if s[0] == x then 0 else FirstAt(s[1..], x) + 1
  }

  /** Each pool once, in the order of first occurrence. */
  ghost predicate FirstOccurrences(pools: seq<string>, all: seq<string>) {
    && (forall p :: p in pools <==> p in all)
    && (forall i, j :: 0 <= i < j < |pools| ==>
      pools[i] in all && pools[j] in all && FirstAt(all, pools[i]) < FirstAt(all, pools[j]))
  }

  lemma {:induction false} FirstAtPrefix(s: seq<string>, t: seq<string>, x: string)
    requires x in s
    ensures FirstAt(s + t, x) == FirstAt(s, x)
  {
    if s[0] != x {
      FirstAtPrefix(s[1..], t, x);
      assert (s + t)[1..] == s[1..] + t;
    }
  }

  lemma {:induction false} FirstAtNew(s: seq<string>, x: string)
    requires x !in s
    ensures FirstAt(s + [x], x) == |s|
  {
  }

  lemma OneMore(pools: seq<string>, all: seq<string>, x: string)
    requires FirstOccurrences(pools, all)
    ensures FirstOccurrences(if x in all then pools else pools + [x], all + [x])
  {
    var more := if x in all then pools else pools + [x];
    forall i, j | 0 <= i < j < |more|
      ensures more[i] in all + [x] && more[j] in all + [x] && FirstAt(all + [x], more[i]) < FirstAt(all + [x], more[j])
    {
      assert pools[i] in all;
      FirstAtPrefix(all, [x], pools[i]);
      if j < |pools| { FirstAtPrefix(all, [x], pools[j]); } else { FirstAtNew(all, x); }
    }
    forall p ensures p in more <==> p in all + [x] {
      assert p in more <==> p in pools || (x !in all && p == x);
    }
  }

  /** The loop that drops repeated pools. */
  method FirstOnly(all: seq<string>) returns (pools: seq<string>)
    ensures FirstOccurrences(pools, all)
    ensures forall i, j :: 0 <= i < j < |pools| ==> pools[i] != pools[j]
  {
    var seen: set<string> := {};
    pools := [];
    for i := 0 to |all|
      invariant FirstOccurrences(pools, all[..i])
      invariant forall p :: p in seen <==> p in all[..i]
    {
      var pool := all[i];
      assert all[..i + 1] == all[..i] + [pool];
      OneMore(pools, all[..i], pool);
      if pool !in seen {
        seen := seen + {pool};
        pools := pools + [pool];
      }
    }
    assert all[..|all|] == all;
  }

  /** `defaults`: usable intervals, and one loop per pool. */
  method Defaults(given: Config) returns (c: Config)
    ensures c.workerIdPrefix != "" && c.warmInterval > 0 && c.resyncInterval > 0 && c.reconnectDelay > 0
    ensures c.wakeRetryInterval > 0
    // The documented defaults: prefix cc, a minute, four minutes, five and two seconds.
    ensures given.workerIdPrefix == "" ==> c.workerIdPrefix == "cc"
    ensures given.warmInterval <= 0 ==> c.warmInterval == 60 * 1000
    ensures given.resyncInterval <= 0 ==> c.resyncInterval == 4 * 60 * 1000
    ensures given.reconnectDelay <= 0 ==> c.reconnectDelay == 5 * 1000
    ensures given.wakeRetryInterval <= 0 ==> c.wakeRetryInterval == 2 * 1000
    ensures FirstOccurrences(c.pools, given.pools)
    ensures forall i, j :: 0 <= i < j < |c.pools| ==> c.pools[i] != c.pools[j]
    ensures given.workerIdPrefix != "" ==> c.workerIdPrefix == given.workerIdPrefix
    ensures given.warmInterval > 0 ==> c.warmInterval == given.warmInterval
    ensures given.resyncInterval > 0 ==> c.resyncInterval == given.resyncInterval
    ensures given.reconnectDelay > 0 ==> c.reconnectDelay == given.reconnectDelay
    ensures given.wakeRetryInterval > 0 ==> c.wakeRetryInterval == given.wakeRetryInterval
    ensures c.warmIdle == given.warmIdle && c.disposeAfter == given.disposeAfter && c.checkAgent == given.checkAgent
    ensures c.disposeArchivedAfter == given.disposeArchivedAfter
    ensures c.disposeUnclaimedAfter == given.disposeUnclaimedAfter
  {
    hide FirstOccurrences;
    c := given;
    if c.workerIdPrefix == "" { c := c.(workerIdPrefix := "cc"); }
    if c.warmInterval <= 0 { c := c.(warmInterval := 60_000); }
    if c.resyncInterval <= 0 { c := c.(resyncInterval := 240_000); }
    if c.reconnectDelay <= 0 { c := c.(reconnectDelay := 5_000); }
    if c.wakeRetryInterval <= 0 { c := c.(wakeRetryInterval := 2_000); }
    var pools := FirstOnly(given.pools);
    c := c.(pools := pools);
  }
}
