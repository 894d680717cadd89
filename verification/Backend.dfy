/** What a backend reports about a worker (internal/backend/backend.go). */
module Backend {
  import opened Common

  /** `live` None: the backend cannot tell. Times in milliseconds, 0 the zero time. */
  datatype WorkerInfo = WorkerInfo(
    id: string, pool: string, requestId: string, live: Option<bool>, startupTimedOut: bool,
    lastActivity: nat, createdAt: nat)

  /** `HasPrefix`: the prefix, a dash, and at least one more character. */
  predicate HasPrefix(worker: string, prefix: string) {
    |worker| > |prefix| + 1 && worker[..|prefix| + 1] == prefix + "-"
  }

  /** A worker is owned exactly if its id is the prefix, a dash and something more: so every
      id minted under the prefix is. */
  lemma OwnedExactly(worker: string, prefix: string)
    ensures HasPrefix(worker, prefix) <==> exists rest: string :: rest != "" && worker == prefix + "-" + rest
  {
    if HasPrefix(worker, prefix) {
      var rest := worker[|prefix| + 1..];
      assert worker == prefix + "-" + rest;
    }
    if rest: string :| rest != "" && worker == prefix + "-" + rest {
      assert worker[..|prefix| + 1] == prefix + "-";
    }
  }
}
