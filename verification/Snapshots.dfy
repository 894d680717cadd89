/** Choosing the seed of a new workspace (internal/backend/kube/snapshots.go). */
module Snapshots {
  import opened Common
  import Sorting

  /** A VolumeSnapshot; `created` in milliseconds. */
  datatype Snapshot = Snapshot(name: string, created: nat, readyToUse: bool, deleting: bool)
  {
    predicate Usable() { readyToUse && !deleting }
  }

  /** The comparison given to the sort: newest first, equal times by name descending. */
  predicate Before(a: Snapshot, b: Snapshot) {
    if a.created == b.created then Less(b.name, a.name) else a.created > b.created
  }

  lemma BeforeOrders()
    ensures Sorting.WeakOrder(Before)
  {
    forall x, y | Before(x, y) ensures !Before(y, x) { LessTotal(x.name, y.name); }
    forall x, y, z | !Before(y, x) && !Before(z, y) ensures !Before(z, x) { NotBeforeChains(x, y, z); }
  }

  lemma NotBeforeChains(x: Snapshot, y: Snapshot, z: Snapshot)
    requires !Before(y, x) && !Before(z, y)
    ensures !Before(z, x)
  {
    LessTotal(x.name, y.name);
    LessTotal(y.name, z.name);
    LessTotal(x.name, z.name);
    if x.created == y.created == z.created && Less(x.name, z.name) {
      // x < z; since !(x < y) and !(y < z), y <= x and z <= y.
      if y.name != x.name { LessTransitive(y.name, x.name, z.name); }
    }
  }

  /** `x` is a usable snapshot that no usable one beats: latest creation time, then greatest name. */
  ghost predicate IsNewest(x: Snapshot, snapshots: seq<Snapshot>) {
    && x in snapshots && x.readyToUse && !x.deleting
    && forall y :: y in snapshots && y.readyToUse && !y.deleting ==>
         y.created < x.created || (y.created == x.created && (y.name == x.name || Less(y.name, x.name)))
  }

  /** Sort, then take the first. None when nothing is usable. */
  method SelectSnapshot(snapshots: seq<Snapshot>) returns (chosen: Option<string>)
    ensures chosen.None? <==> forall y :: y in snapshots ==> !y.readyToUse || y.deleting
    ensures chosen.Some? ==> exists x :: IsNewest(x, snapshots) && x.name == chosen.value
  {
    var ready := [];
    for i := 0 to |snapshots|
      invariant forall y :: y in ready <==> y in snapshots[..i] && y.Usable()
    {
      assert snapshots[..i + 1] == snapshots[..i] + [snapshots[i]];
      if snapshots[i].Usable() {
        ready := ready + [snapshots[i]];
      }
    }
    assert snapshots[..|snapshots|] == snapshots;
    if |ready| == 0 {
      assert forall y :: y in snapshots && y.Usable() ==> y in ready;
      return None;
    }
    BeforeOrders();
    var sorted := Sorting.Sort(ready, Before);
    Sorting.SameElements(sorted, ready);
    FirstIsNewest(sorted, ready, snapshots);
    assert sorted[0] in snapshots;
    chosen := Some(sorted[0].name);
  }

  lemma FirstIsNewest(sorted: seq<Snapshot>, ready: seq<Snapshot>, snapshots: seq<Snapshot>)
    requires sorted != [] && Sorting.InOrder(sorted, Before)
    requires forall y :: y in sorted <==> y in ready
    requires forall y :: y in ready <==> y in snapshots && y.Usable()
    ensures IsNewest(sorted[0], snapshots)
  {
    var x := sorted[0];
    assert x in sorted;
    forall y | y in snapshots && y.Usable()
      ensures y.created < x.created || (y.created == x.created && (y.name == x.name || Less(y.name, x.name)))
    {
      assert y in sorted;
      var j :| 0 <= j < |sorted| && sorted[j] == y;
      LessTotal(x.name, y.name);
    }
  }

  /** The choice is unique, and does not depend on the order of the list. */
  lemma ChoiceIsUnique(x: Snapshot, y: Snapshot, one: seq<Snapshot>, other: seq<Snapshot>)
    requires IsNewest(x, one) && IsNewest(y, other) && forall z :: z in one <==> z in other
    ensures x.name == y.name && x.created == y.created
  {
    LessTotal(x.name, y.name);
  }
}
