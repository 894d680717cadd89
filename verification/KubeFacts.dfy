/** What the listed objects say, one fact an object (internal/backend/kube/kube.go ListWorkers). */
module KubeFacts {
  import opened Common
  import opened KubeStore
  import opened KubeListing

  function PvcFacts(pvcs: seq<Pvc>): seq<Fact> {
    if pvcs == [] then []
    else
      var last := pvcs[|pvcs| - 1];
      PvcFacts(pvcs[..|pvcs| - 1]) + if last.deletedAt.Some? then [] else [PvcFact(last)]
  }

  /** The pods, each judged at the time the loop came to it. */
  function PodFacts(o: Options, pods: seq<Pod>, times: seq<Time>): seq<Fact>
    requires |pods| == |times|
  {
    if pods == [] then []
    else
      var n := |pods| - 1;
      PodFacts(o, pods[..n], times[..n]) + [PodFact(o, pods[n], times[n])]
  }

  lemma {:induction false} PvcFactOrigin(pvcs: seq<Pvc>, f: Fact)
    requires f in PvcFacts(pvcs)
    ensures exists p :: p in pvcs && p.deletedAt.None? && f == PvcFact(p)
  {
    var n := |pvcs| - 1;
    if f in PvcFacts(pvcs[..n]) {
      PvcFactOrigin(pvcs[..n], f);
    } else {
      assert pvcs[n] in pvcs && pvcs[n].deletedAt.None? && f == PvcFact(pvcs[n]);
    }
  }

  lemma {:induction false} PodFactOrigin(o: Options, pods: seq<Pod>, times: seq<Time>, f: Fact)
    requires |times| == |pods| && f in PodFacts(o, pods, times)
    ensures exists i | 0 <= i < |pods| :: f == PodFact(o, pods[i], times[i])
  {
    var n := |pods| - 1;
    if f in PodFacts(o, pods[..n], times[..n]) {
      PodFactOrigin(o, pods[..n], times[..n], f);
      var i :| 0 <= i < n && f == PodFact(o, pods[..n][i], times[..n][i]);
      assert f == PodFact(o, pods[i], times[i]);
    } else {
      assert f == PodFact(o, pods[n], times[n]);
    }
  }

  lemma {:induction false} HasFact(o: Options, pods: seq<Pod>, times: seq<Time>, i: nat)
    requires |pods| == |times| && i < |pods|
    ensures PodFact(o, pods[i], times[i]) in PodFacts(o, pods, times)
  {
    var n := |pods| - 1;
    if i < n {
      HasFact(o, pods[..n], times[..n], i);
      assert pods[..n][i] == pods[i] && times[..n][i] == times[i];
    }
  }
}
