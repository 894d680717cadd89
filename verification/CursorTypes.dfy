/** The fleet API's wire types (internal/cursorapi/types.go). */
module CursorTypes {
  import opened Common

  datatype Label = Label(key: string, value: string)

  /** User and repository fields, carried along and never inspected. */
  datatype RequestInfo = RequestInfo(userId: int, repoOwner: string, repoName: string, repoUrl: string)

  /** The first label with the given key, as both label loops of the source find it. */
  function FirstLabel(labels: seq<Label>, key: string): Option<string> {
    if labels == [] then None
    else if labels[0].key == key then Some(labels[0].value)
    else FirstLabel(labels[1..], key)
  }

  datatype PendingRequest = PendingRequest(
    id: string,
    info: RequestInfo,
    labels: seq<Label>,
    createdAtMs: int,
    claimedWorkerId: string,
    wakeTimeoutMs: int)
  {
    function LabelValue(key: string): string {
      match FirstLabel(labels, key) case Some(v) => v case None => ""
    }

    /** `PendingRequest.Pool`: the pool label, else "default"; an empty value also means "default". */
    function Pool(): string {
      var p := LabelValue("pool");
      if p != "" then p else "default"
    }

    predicate IsOfflineClaim() { claimedWorkerId != "" }
  }

  datatype PoolRow = PoolRow(poolName: string, repoUrl: string, connected: int, inUse: int)
  {
    /** `Pool.IdleWorkerCount`: connected minus in use, floored at zero. */
    function IdleWorkerCount(): (n: int)
      ensures n >= 0 && n >= connected - inUse
      ensures n == 0 || n == connected - inUse
    {
      if connected - inUse > 0 then connected - inUse else 0
    }
  }

  /** The label at `i` is the first with the key. */
  ghost predicate FirstAt(labels: seq<Label>, key: string, i: int) {
    0 <= i < |labels| && labels[i].key == key && forall j :: 0 <= j < i ==> labels[j].key != key
  }

  lemma {:induction false} FirstLabelIs(labels: seq<Label>, key: string)
    ensures FirstLabel(labels, key).None? <==> forall i :: 0 <= i < |labels| ==> labels[i].key != key
    ensures forall i :: FirstAt(labels, key, i) ==> FirstLabel(labels, key) == Some(labels[i].value)
  {
    if labels != [] {
      FirstLabelIs(labels[1..], key);
      forall i | 0 < i < |labels| ensures labels[i] == labels[1..][i - 1] {}
      forall i | FirstAt(labels, key, i) ensures FirstLabel(labels, key) == Some(labels[i].value) {
        if i > 0 {
          assert labels[0].key != key;
          forall j | 0 <= j < i - 1 ensures labels[1..][j].key != key { assert labels[j + 1].key != key; }
          assert FirstAt(labels[1..], key, i - 1);
        }
      }
      if FirstLabel(labels, key).None? {
        forall i | 0 <= i < |labels| ensures labels[i].key != key {
          if i > 0 { assert labels[1..][i - 1].key != key; }
        }
      } else if labels[0].key != key {
        var i :| 0 <= i < |labels[1..]| && labels[1..][i].key == key;
        assert labels[i + 1].key == key;
      }
    }
  }

  /** A request is routed to the value of its first pool label, or to "default" when it has
      none or that is empty. */
  lemma RoutedPool(r: PendingRequest)
    ensures forall i :: FirstAt(r.labels, "pool", i) && r.labels[i].value != "" ==> r.Pool() == r.labels[i].value
    ensures (forall i :: 0 <= i < |r.labels| && r.labels[i].key == "pool" ==> r.labels[i].value == "") ==>
      r.Pool() == "default"
  {
    FirstLabelIs(r.labels, "pool");
    hide FirstLabel;
    if forall i :: 0 <= i < |r.labels| && r.labels[i].key == "pool" ==> r.labels[i].value == "" {
      EmptyFirst(r.labels, "pool");
    }
  }

  lemma {:induction false} EmptyFirst(labels: seq<Label>, key: string)
    requires forall i :: 0 <= i < |labels| && labels[i].key == key ==> labels[i].value == ""
    ensures FirstLabel(labels, key) == None || FirstLabel(labels, key) == Some("")
  {
    if labels != [] { EmptyFirst(labels[1..], key); }
  }
}
