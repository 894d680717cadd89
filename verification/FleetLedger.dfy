/** The event log against the claim log: what subscribers are told is what happened. */
module FleetLedger {
  import opened Common
  import opened CursorTypes
  import opened Fleet
  import opened FleetInvariant

  predicate TellsClaim(e: Event, id: string) { e.typ == ClaimedEvent && e.data.RequestId() == id }

  function ClaimsTold(events: seq<Event>, id: string): nat {
    if events == [] then 0
    else ClaimsTold(events[..|events| - 1], id) + if TellsClaim(events[|events| - 1], id) then 1 else 0
  }

  /** Claims told minus claims made. */
  function Ahead(s: State, id: string): int { ClaimsTold(s.events, id) - ClaimsOf(s.claims, id) }

  /** No claim is made, and at most one event, that tells none, is added. */
  predicate TellsNoClaim(s: State, t: State) {
    && t.claims == s.claims
    && (t.events == s.events
        || (|t.events| == |s.events| + 1 && t.events[..|s.events|] == s.events
          && t.events[|s.events|].typ != ClaimedEvent))
  }

  lemma QuietStep(s: State, t: State, id: string)
    requires TellsNoClaim(s, t)
    ensures Ahead(t, id) == Ahead(s, id)
  {
  }

  lemma ClaimStep(s: State, r: string, worker: string, id: string)
    ensures Ahead(Claim(s, r, worker).0, id) == Ahead(s, id)
  {
    var t := Claim(s, r, worker).0;
    if Claim(s, r, worker).1 == OK {
      assert t.events[..|s.events|] == s.events && t.claims[..|s.claims|] == s.claims;
    }
  }

  lemma CreateTells(s: State, body: CreateBody, now: int)
    ensures TellsNoClaim(s, CreateAgent(s, body, now).0)
  {
  }

  lemma ReleaseTells(s: State, id: string)
    ensures TellsNoClaim(s, Release(s, id).0)
  {
  }

  lemma FollowupTells(s: State, id: string, now: int)
    ensures TellsNoClaim(s, Followup(s, id, now).0)
  {
  }

  lemma ExpireTells(s: State, id: string)
    ensures TellsNoClaim(s, ExpireRequest(s, id).0)
  {
  }

  /** The handlers that emit nothing. */
  lemma OthersTell(s: State, op: Op)
    requires Enabled(s, op)
    requires op.OpArchive? || op.OpDelete? || op.OpConnect? || op.OpDisconnect? || op.OpRegisterPool? || op.OpList?
    ensures TellsNoClaim(s, Apply(s, op))
  {
  }

  lemma AheadStep(s: State, op: Op, id: string)
    requires Enabled(s, op)
    ensures Ahead(Apply(s, op), id) == Ahead(s, id)
  {
    hide Claim, Release, CreateAgent, Followup, ExpireRequest, ConnectWorker, DeleteAgent, ArchiveAgent,
      DisconnectWorker, RegisterPool, ListPending, Ahead, TellsNoClaim;
    match op
    case OpClaim(r, worker) => ClaimStep(s, r, worker, id);
    case OpRelease(r) => ReleaseTells(s, r); QuietStep(s, Release(s, r).0, id);
    case OpCreate(body, now) => CreateTells(s, body, now); QuietStep(s, CreateAgent(s, body, now).0, id);
    case OpFollowup(r, now) => FollowupTells(s, r, now); QuietStep(s, Followup(s, r, now).0, id);
    case OpExpire(r) => ExpireTells(s, r); QuietStep(s, ExpireRequest(s, r).0, id);
    case _ => OthersTell(s, op); QuietStep(s, Apply(s, op), id);
  }

  /** Over every run each claim is told exactly once: as many `claimed` events name a
      request as claims of it were made. */
  lemma {:induction false} EveryClaimIsTold(s: State, ops: seq<Op>, id: string)
    requires Legal(s, ops) && ClaimsTold(s.events, id) == ClaimsOf(s.claims, id)
    ensures ClaimsTold(Run(s, ops).events, id) == ClaimsOf(Run(s, ops).claims, id)
    decreases |ops|
  {
    if ops != [] {
      AheadStep(s, ops[0], id);
      EveryClaimIsTold(Apply(s, ops[0]), ops[1..], id);
    }
  }
}
