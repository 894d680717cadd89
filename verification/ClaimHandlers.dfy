/** Concurrent claim-and-spawn handlers (internal/controller/controller.go
    claimAndSpawn, release): each handler is a small program, and its steps
    interleave with every other handler, with timers, and with whatever else
    happens on the fleet server. */
module ClaimHandlers {
  import opened Common
  import opened CursorTypes
  import opened Fleet
  import opened FleetInvariant

  datatype Outcome = Busy | NotClaimed | Spawned | ReleaseCalled

  /** The next thing a handler does. */
  datatype Pc =
    | TakeGuard
    | MarkClaim
    | CallClaim
    | DropMark
    | ArmTimer
    | CallSpawn
    | ForgetMark
    | CallRelease
    | DropGuard(outcome: Outcome)
    | Finished(outcome: Outcome)

  datatype Handler = Handler(request: string, worker: string, pc: Pc)
  {
    predicate HoldsGuard() { pc != TakeGuard && !pc.Finished? }
    predicate Acknowledged() {
      pc in {ArmTimer, CallSpawn, ForgetMark, CallRelease}
        || ((pc.DropGuard? || pc.Finished?) && pc.outcome in {Spawned, ReleaseCalled})
    }
    predicate SpawnTried() { Acknowledged() && pc != ArmTimer && pc != CallSpawn }
    predicate ReleaseTried() { (pc.DropGuard? || pc.Finished?) && pc.outcome == ReleaseCalled }
    predicate Did(k: Kind) {
      match k case Ack => Acknowledged() case SpawnCall => SpawnTried() case ReleaseCall => ReleaseTried()
    }
    predicate MayOwnMark() { pc in {CallClaim, DropMark, ArmTimer} }
  }

  /** The three calls a handler may have made: acknowledged claims, spawns of kind claim, releases. */
  datatype Kind = Ack | SpawnCall | ReleaseCall

  /** A call some handler made. */
  datatype Call = Call(handler: nat, request: string, worker: string)

  datatype Sys = Sys(
    server: State,
    handlers: map<nat, Handler>,
    inflight: set<string>,
    recent: map<string, nat>,
    timers: set<(string, nat)>,
    acks: seq<Call>,
    spawns: seq<Call>,
    releases: seq<Call>)

  /** `aliased` is whether two different tokens compare equal: they point to
      zero-size values, so the language allows either answer. */
  datatype Action =
    | Start(h: nat, request: string)
    | Guard(h: nat, worker: string)
    | Mark(h: nat)
    | ClaimAcked(h: nat)
    | ClaimFailed(h: nat, reached: bool)
    | Unmark(h: nat, aliased: bool)
    | Arm(h: nat)
    | SpawnReturned(h: nat, ok: bool)
    | Forget(h: nat)
    | ReleaseReturned(h: nat, reached: bool)
    | Leave(h: nat)
    | TimerFires(request: string, token: nat, aliased: bool)
    | ElsewhereForgotten(request: string)
    | Serve(op: Op)

  predicate At(s: Sys, h: nat, pc: Pc) { h in s.handlers && s.handlers[h].pc == pc }

  predicate CanAct(s: Sys, a: Action) {
    match a
    case Start(h, r) => h !in s.handlers
    case Guard(h, worker) => At(s, h, TakeGuard)
    case Mark(h) => At(s, h, MarkClaim)
    case ClaimAcked(h) => At(s, h, CallClaim) && Claim(s.server, s.handlers[h].request, s.handlers[h].worker).1 == OK
    case ClaimFailed(h, reached) => At(s, h, CallClaim)
    case Unmark(h, aliased) => At(s, h, DropMark)
    case Arm(h) => At(s, h, ArmTimer)
    case SpawnReturned(h, ok) => At(s, h, CallSpawn)
    case Forget(h) => At(s, h, ForgetMark)
    case ReleaseReturned(h, reached) => At(s, h, CallRelease)
    case Leave(h) => h in s.handlers && s.handlers[h].pc.DropGuard?
    case TimerFires(r, token, aliased) => (r, token) in s.timers
    case ElsewhereForgotten(r) => true
    case Serve(op) => Enabled(s.server, op)
  }

  function Goto(s: Sys, h: nat, pc: Pc): map<nat, Handler>
    requires h in s.handlers
  {
    s.handlers[h := s.handlers[h].(pc := pc)]
  }

  function CompareAndDelete(recent: map<string, nat>, r: string, token: nat, aliased: bool): map<string, nat> {
    if r in recent && (recent[r] == token || aliased) then recent - {r} else recent
  }

  function CallOf(s: Sys, h: nat): Call
    requires h in s.handlers
  {
    Call(h, s.handlers[h].request, s.handlers[h].worker)
  }

  function Act(s: Sys, a: Action): Sys
    requires CanAct(s, a)
  {
    match a
    case Start(h, r) => s.(handlers := s.handlers[h := Handler(r, "", TakeGuard)])
    case Guard(h, worker) =>
      var r := s.handlers[h].request;
      if r in s.inflight then s.(handlers := Goto(s, h, Finished(Busy)))
      else s.(inflight := s.inflight + {r}, handlers := s.handlers[h := Handler(r, worker, MarkClaim)])
    case Mark(h) => s.(recent := s.recent[s.handlers[h].request := h], handlers := Goto(s, h, CallClaim))
    case ClaimAcked(h) =>
      s.(server := Claim(s.server, s.handlers[h].request, s.handlers[h].worker).0,
         handlers := Goto(s, h, ArmTimer), acks := s.acks + [CallOf(s, h)])
    case ClaimFailed(h, reached) =>
      s.(server := if reached then Claim(s.server, s.handlers[h].request, s.handlers[h].worker).0 else s.server,
         handlers := Goto(s, h, DropMark))
    case Unmark(h, aliased) =>
      s.(recent := CompareAndDelete(s.recent, s.handlers[h].request, h, aliased),
        handlers := Goto(s, h, DropGuard(NotClaimed)))
    case Arm(h) => s.(timers := s.timers + {(s.handlers[h].request, h)}, handlers := Goto(s, h, CallSpawn))
    case SpawnReturned(h, ok) =>
      s.(spawns := s.spawns + [CallOf(s, h)], handlers := Goto(s, h, if ok then DropGuard(Spawned) else ForgetMark))
    case Forget(h) => s.(recent := s.recent - {s.handlers[h].request}, handlers := Goto(s, h, CallRelease))
    case ReleaseReturned(h, reached) =>
      s.(server := if reached then Release(s.server, s.handlers[h].request).0 else s.server,
         releases := s.releases + [CallOf(s, h)], handlers := Goto(s, h, DropGuard(ReleaseCalled)))
    case Leave(h) => s.(inflight := s.inflight - {s.handlers[h].request},
      handlers := Goto(s, h, Finished(s.handlers[h].pc.outcome)))
    case TimerFires(r, token, aliased) =>
      s.(recent := CompareAndDelete(s.recent, r, token, aliased), timers := s.timers - {(r, token)})
    case ElsewhereForgotten(r) => s.(recent := s.recent - {r})
    case Serve(op) => s.(server := Apply(s.server, op))
  }

  ghost predicate CanRun(s: Sys, actions: seq<Action>)
    decreases |actions|
  {
    actions != [] ==> CanAct(s, actions[0]) && CanRun(Act(s, actions[0]), actions[1..])
  }

  ghost function RunAll(s: Sys, actions: seq<Action>): Sys
    requires CanRun(s, actions)
    decreases |actions|
  {
    if actions == [] then s else RunAll(Act(s, actions[0]), actions[1..])
  }

  function Initial(server: State): Sys { Sys(server, map[], {}, map[], {}, [], [], []) }

  // ---- the invariant ---------------------------------------------------------------

  /** How many of the calls a handler made. */
  function CallsBy(calls: seq<Call>, h: nat): nat {
    if calls == [] then 0 else CallsBy(calls[..|calls| - 1], h) + if calls[|calls| - 1].handler == h then 1 else 0
  }

  function OneIf(b: bool): nat { if b then 1 else 0 }

  /** The guard set is exactly the requests whose handler is past the guard, and
      no two of those handlers serve the same request. */
  ghost predicate GuardOk(s: Sys) {
    && (forall h :: h in s.handlers && s.handlers[h].HoldsGuard() ==> s.handlers[h].request in s.inflight)
    && (forall r :: r in s.inflight ==>
      exists h :: h in s.handlers && s.handlers[h].HoldsGuard() && s.handlers[h].request == r)
    && (forall g, h | g in s.handlers && h in s.handlers && s.handlers[g].HoldsGuard() && s.handlers[h].HoldsGuard() ::
          s.handlers[g].request == s.handlers[h].request ==> g == h)
  }

  function LogOf(s: Sys, k: Kind): seq<Call> {
    match k case Ack => s.acks case SpawnCall => s.spawns case ReleaseCall => s.releases
  }

  /** Calls are made by known handlers, for their own request and worker, and
      each handler made exactly as many as its place in the program says. */
  ghost predicate LogOk(s: Sys, k: Kind) {
    && (forall c :: c in LogOf(s, k) ==>
      c.handler in s.handlers && c == CallOf(s, c.handler) && s.handlers[c.handler].Acknowledged())
    && (forall h :: h in s.handlers ==> CallsBy(LogOf(s, k), h) == OneIf(s.handlers[h].Did(k)))
  }

  /** The server's log holds every acknowledged claim, with the worker it stored. */
  ghost predicate AcksStored(s: Sys) { forall c :: c in s.acks ==> (c.request, c.worker) in s.server.claims }

  ghost predicate LogsOk(s: Sys) { LogOk(s, Ack) && LogOk(s, SpawnCall) && LogOk(s, ReleaseCall) && AcksStored(s) }

  /** No mark leaks: its owner is still to drop it, or its timer is armed. */
  ghost predicate MarksOk(s: Sys) {
    forall r :: r in s.recent ==>
      || (s.recent[r] in s.handlers && s.handlers[s.recent[r]].request == r && s.handlers[s.recent[r]].MayOwnMark())
      || (r, s.recent[r]) in s.timers
  }

  ghost predicate HandlersInv(s: Sys) { GuardOk(s) && LogsOk(s) && MarksOk(s) }

  lemma InitialOk(server: State)
    ensures HandlersInv(Initial(server))
  {
  }

  // ---- each step keeps it ------------------------------------------------------------

  /** A handler moves on without touching the guard. */
  lemma GuardMove(s: Sys, s': Sys, h: nat)
    requires GuardOk(s) && h in s.handlers && s'.inflight == s.inflight && h in s'.handlers
    requires s'.handlers == s.handlers[h := s'.handlers[h]]
    requires s'.handlers[h].request == s.handlers[h].request
    requires s'.handlers[h].HoldsGuard() == s.handlers[h].HoldsGuard()
    ensures GuardOk(s')
  {
    forall r | r in s'.inflight
      ensures exists g :: g in s'.handlers && s'.handlers[g].HoldsGuard() && s'.handlers[g].request == r
    {
      var g :| g in s.handlers && s.handlers[g].HoldsGuard() && s.handlers[g].request == r;
      assert g in s'.handlers && s'.handlers[g].request == r;
    }
  }

  lemma GuardTaken(s: Sys, s': Sys, h: nat)
    requires GuardOk(s) && h in s.handlers && !s.handlers[h].HoldsGuard()
    requires var r := s.handlers[h].request; r !in s.inflight && s'.inflight == s.inflight + {r}
    requires h in s'.handlers && s'.handlers == s.handlers[h := s'.handlers[h]]
    requires s'.handlers[h].request == s.handlers[h].request && s'.handlers[h].HoldsGuard()
    ensures GuardOk(s')
  {
    forall r | r in s'.inflight
      ensures exists g :: g in s'.handlers && s'.handlers[g].HoldsGuard() && s'.handlers[g].request == r
    {
      if r in s.inflight {
        var g :| g in s.handlers && s.handlers[g].HoldsGuard() && s.handlers[g].request == r;
        assert g in s'.handlers && s'.handlers[g].request == r;
      } else {
        assert s'.handlers[h].request == r;
      }
    }
  }

  lemma GuardDropped(s: Sys, s': Sys, h: nat)
    requires GuardOk(s) && h in s.handlers && s.handlers[h].HoldsGuard()
    requires s'.inflight == s.inflight - {s.handlers[h].request}
    requires h in s'.handlers && s'.handlers == s.handlers[h := s'.handlers[h]] && !s'.handlers[h].HoldsGuard()
    ensures GuardOk(s')
  {
    forall r | r in s'.inflight
      ensures exists g :: g in s'.handlers && s'.handlers[g].HoldsGuard() && s'.handlers[g].request == r
    {
      var g :| g in s.handlers && s.handlers[g].HoldsGuard() && s.handlers[g].request == r;
      assert g in s'.handlers && s'.handlers[g].request == r;
    }
  }

  lemma GuardStarted(s: Sys, s': Sys, h: nat)
    requires GuardOk(s) && h !in s.handlers && s'.inflight == s.inflight
    requires h in s'.handlers && s'.handlers == s.handlers[h := s'.handlers[h]] && !s'.handlers[h].HoldsGuard()
    ensures GuardOk(s')
  {
    forall r | r in s'.inflight
      ensures exists g :: g in s'.handlers && s'.handlers[g].HoldsGuard() && s'.handlers[g].request == r
    {
      var g :| g in s.handlers && s.handlers[g].HoldsGuard() && s.handlers[g].request == r;
      assert g in s'.handlers && s'.handlers[g].request == r;
    }
  }

  lemma GuardStep(s: Sys, a: Action)
    requires GuardOk(s) && CanAct(s, a)
    ensures GuardOk(Act(s, a))
  {
    hide GuardOk, Apply, Claim, Release;
    match a
    case Start(h, r) => GuardStarted(s, Act(s, a), h);
    case Guard(h, worker) =>
      if s.handlers[h].request in s.inflight { GuardMove(s, Act(s, a), h); } else { GuardTaken(s, Act(s, a), h); }
    case Leave(h) => GuardDropped(s, Act(s, a), h);
    case TimerFires(r, token, aliased) => GuardSame(s, Act(s, a));
    case ElsewhereForgotten(r) => GuardSame(s, Act(s, a));
    case Serve(op) => GuardSame(s, Act(s, a));
    case _ => GuardMove(s, Act(s, a), a.h);
  }

  lemma GuardSame(s: Sys, s': Sys)
    requires GuardOk(s) && s'.handlers == s.handlers && s'.inflight == s.inflight
    ensures GuardOk(s')
  {
  }

  lemma MarksStep(s: Sys, a: Action)
    requires GuardOk(s) && MarksOk(s) && CanAct(s, a)
    ensures MarksOk(Act(s, a))
  {
    hide Apply, Claim, Release;
  }

  lemma {:induction false} NoCallsBy(calls: seq<Call>, h: nat)
    requires forall c :: c in calls ==> c.handler != h
    ensures CallsBy(calls, h) == 0
  {
    if calls != [] {
      assert calls[|calls| - 1] in calls;
      NoCallsBy(calls[..|calls| - 1], h);
    }
  }

  /** The server's claim log only grows. */
  lemma ClaimsGrow(s: State, op: Op)
    requires Enabled(s, op)
    ensures forall c :: c in s.claims ==> c in Apply(s, op).claims
  {
  }

  predicate Logged(before: seq<Call>, after: seq<Call>, c: Call, did: bool, done: bool) {
    if did == done then after == before else done && after == before + [c]
  }

  /** Handler `h` moves on; its worker id may still be chosen before it made any call. */
  ghost predicate Moves(s: Sys, s': Sys, h: nat) {
    && h in s.handlers && h in s'.handlers && s'.handlers == s.handlers[h := s'.handlers[h]]
    && s'.handlers[h].request == s.handlers[h].request
    && (s'.handlers[h].worker == s.handlers[h].worker || !s.handlers[h].Acknowledged())
    && (s.handlers[h].Acknowledged() ==> s'.handlers[h].Acknowledged())
  }

  /** It adds at most one call of its own to a log. */
  lemma LogMove(s: Sys, s': Sys, h: nat, k: Kind)
    requires LogOk(s, k) && Moves(s, s', h)
    requires Logged(LogOf(s, k), LogOf(s', k), CallOf(s', h), s.handlers[h].Did(k), s'.handlers[h].Did(k))
    requires s'.handlers[h].Did(k) ==> s'.handlers[h].Acknowledged()
    ensures LogOk(s', k)
  {
  }

  lemma LogsMove(s: Sys, s': Sys, h: nat)
    requires LogsOk(s) && Moves(s, s', h)
    requires forall k :: Logged(LogOf(s, k), LogOf(s', k), CallOf(s', h), s.handlers[h].Did(k), s'.handlers[h].Did(k))
    requires AcksStored(s')
    ensures LogsOk(s')
  {
    assert forall k :: s'.handlers[h].Did(k) ==> s'.handlers[h].Acknowledged();
    hide LogOk, Logged, AcksStored;
    LogMove(s, s', h, Ack);
    LogMove(s, s', h, SpawnCall);
    LogMove(s, s', h, ReleaseCall);
  }

  lemma LogStarted(s: Sys, s': Sys, h: nat, k: Kind)
    requires LogOk(s, k) && h !in s.handlers && LogOf(s', k) == LogOf(s, k)
    requires h in s'.handlers && s'.handlers == s.handlers[h := s'.handlers[h]] && !s'.handlers[h].Did(k)
    ensures LogOk(s', k)
  {
    NoCallsBy(LogOf(s, k), h);
  }

  lemma LogsStarted(s: Sys, s': Sys, h: nat, r: string)
    requires LogsOk(s) && h !in s.handlers && s' == s.(handlers := s.handlers[h := Handler(r, "", TakeGuard)])
    ensures LogsOk(s')
  {
    assert AcksStored(s');
    hide LogOk, AcksStored;
    LogStarted(s, s', h, Ack);
    LogStarted(s, s', h, SpawnCall);
    LogStarted(s, s', h, ReleaseCall);
  }

  lemma LogsServed(s: Sys, s': Sys)
    requires LogsOk(s) && s' == s.(server := s'.server, recent := s'.recent, timers := s'.timers)
    requires forall c :: c in s.server.claims ==> c in s'.server.claims
    ensures LogsOk(s')
  {
  }

  lemma ClaimLogged(s: State, id: string, worker: string)
    ensures forall c :: c in s.claims ==> c in Claim(s, id, worker).0.claims
    ensures Claim(s, id, worker).1 == OK ==> (id, worker) in Claim(s, id, worker).0.claims
    ensures Release(s, id).0.claims == s.claims
  {
  }

  lemma AckStored(s: Sys, h: nat)
    requires AcksStored(s) && CanAct(s, ClaimAcked(h))
    ensures AcksStored(Act(s, ClaimAcked(h)))
  {
  }

  lemma LogsAcked(s: Sys, h: nat)
    requires LogsOk(s) && CanAct(s, ClaimAcked(h))
    ensures LogsOk(Act(s, ClaimAcked(h)))
  {
    AckStored(s, h);
    hide LogOk, Claim, AcksStored;
    LogsMove(s, Act(s, ClaimAcked(h)), h);
  }

  /** A handler moves without making a call. */
  lemma LogsGoto(s: Sys, h: nat, pc: Pc)
    requires LogsOk(s) && h in s.handlers
    requires forall k :: s.handlers[h].(pc := pc).Did(k) == s.handlers[h].Did(k)
    ensures LogsOk(s.(handlers := Goto(s, h, pc)))
  {
    assert forall k :: LogOf(s.(handlers := Goto(s, h, pc)), k) == LogOf(s, k);
    assert s.handlers[h].(pc := pc).Did(Ack) == s.handlers[h].Did(Ack);
    hide LogOk;
    LogsMove(s, s.(handlers := Goto(s, h, pc)), h);
  }

  lemma LogsFailed(s: Sys, h: nat, reached: bool)
    requires LogsOk(s) && CanAct(s, ClaimFailed(h, reached))
    ensures LogsOk(Act(s, ClaimFailed(h, reached)))
  {
    hide LogsOk, Claim;
    var r, worker := s.handlers[h].request, s.handlers[h].worker;
    var s1 := s.(handlers := Goto(s, h, DropMark));
    var s2 := s1.(server := if reached then Claim(s.server, r, worker).0 else s.server);
    assert Act(s, ClaimFailed(h, reached)) == s2;
    hide Act, CanAct;
    LogsGoto(s, h, DropMark);
    ClaimLogged(s.server, r, worker);
    LogsServed(s1, s2);
  }

  lemma LogsSpawnRelease(s: Sys, a: Action)
    requires LogsOk(s) && CanAct(s, a) && (a.SpawnReturned? || a.ReleaseReturned?)
    ensures LogsOk(Act(s, a))
  {
    hide LogsOk;
    if a.SpawnReturned? { LogsSpawned(s, a); } else { LogsReleased(s, a); }
  }

  lemma LogsSpawned(s: Sys, a: Action)
    requires LogsOk(s) && CanAct(s, a) && a.SpawnReturned?
    ensures LogsOk(Act(s, a))
  {
    hide LogOk;
    LogsMove(s, Act(s, a), a.h);
  }

  lemma LogsReleased(s: Sys, a: Action)
    requires LogsOk(s) && CanAct(s, a) && a.ReleaseReturned?
    ensures LogsOk(Act(s, a))
  {
    ClaimLogged(s.server, s.handlers[a.h].request, "");
    hide LogOk, Release;
    LogsMove(s, Act(s, a), a.h);
  }

  lemma LogsOther(s: Sys, a: Action)
    requires LogsOk(s) && CanAct(s, a)
    requires a.Guard? || a.Mark? || a.Unmark? || a.Arm? || a.Forget? || a.Leave?
    ensures LogsOk(Act(s, a))
  {
    hide LogOk;
    LogsMove(s, Act(s, a), a.h);
  }

  lemma LogsStep(s: Sys, a: Action)
    requires LogsOk(s) && CanAct(s, a)
    ensures LogsOk(Act(s, a))
  {
    if a.Serve? { ClaimsGrow(s.server, a.op); }
    hide LogsOk, Claim, Release, Apply;
    match a
    case Start(h, r) => LogsStarted(s, Act(s, a), h, r);
    case Serve(op) => LogsServed(s, Act(s, a));
    case TimerFires(r, token, aliased) => LogsServed(s, Act(s, a));
    case ElsewhereForgotten(r) => LogsServed(s, Act(s, a));
    case ClaimAcked(h) => LogsAcked(s, h);
    case ClaimFailed(h, reached) => LogsFailed(s, h, reached);
    case SpawnReturned(h, ok) => LogsSpawnRelease(s, a);
    case ReleaseReturned(h, reached) => LogsSpawnRelease(s, a);
    case _ => LogsOther(s, a);
  }

  /** Every interleaving keeps the invariant. */
  lemma {:induction false} HandlersInvAlways(s: Sys, actions: seq<Action>)
    requires HandlersInv(s) && CanRun(s, actions)
    ensures HandlersInv(RunAll(s, actions))
    decreases |actions|
  {
    if actions != [] {
      GuardStep(s, actions[0]);
      LogsStep(s, actions[0]);
      MarksStep(s, actions[0]);
      hide GuardOk, LogsOk, MarksOk, Act, CanAct;
      HandlersInvAlways(Act(s, actions[0]), actions[1..]);
    }
  }

  // ---- what it means ---------------------------------------------------------------------

  /** No two handlers for the same request are past the guard at once. */
  lemma OneHandlerPerRequest(server: State, actions: seq<Action>, g: nat, h: nat)
    requires CanRun(Initial(server), actions)
    requires var s := RunAll(Initial(server), actions);
      && g in s.handlers && h in s.handlers && s.handlers[g].HoldsGuard() && s.handlers[h].HoldsGuard()
      && s.handlers[g].request == s.handlers[h].request
    ensures g == h
  {
    InitialOk(server);
    HandlersInvAlways(Initial(server), actions);
  }

  /** A won claim ends in a worker or a release: once a handler whose claim was
      acknowledged has finished, it called Spawn exactly once, and either that
      call succeeded or ReleaseClaim was called, exactly once; a handler whose
      claim was not acknowledged never spawns and never releases. Every spawn is
      for the request and with the worker id of a claim the server stored. */
  lemma ClaimCompensated(server: State, actions: seq<Action>, h: nat)
    requires CanRun(Initial(server), actions)
    requires var s := RunAll(Initial(server), actions); h in s.handlers && s.handlers[h].pc.Finished?
    ensures
      var s := RunAll(Initial(server), actions);
      var outcome := s.handlers[h].pc.outcome;
      && CallsBy(s.spawns, h) == CallsBy(s.acks, h) <= 1
      && (CallsBy(s.acks, h) == 1 <==> outcome == Spawned || outcome == ReleaseCalled)
      && CallsBy(s.releases, h) == OneIf(outcome == ReleaseCalled)
    ensures
      var s := RunAll(Initial(server), actions);
      forall c :: c in s.spawns ==>
        c.handler in s.handlers && c == CallOf(s, c.handler) && (c.request, c.worker) in s.server.claims
  {
    InitialOk(server);
    HandlersInvAlways(Initial(server), actions);
    hide RunAll, CanRun, Initial, HandlersInv;
    Compensated(RunAll(Initial(server), actions), h);
  }

  lemma Compensated(s: Sys, h: nat)
    requires HandlersInv(s) && h in s.handlers && s.handlers[h].pc.Finished?
    ensures var outcome := s.handlers[h].pc.outcome;
      && CallsBy(s.spawns, h) == CallsBy(s.acks, h) <= 1
      && (CallsBy(s.acks, h) == 1 <==> outcome == Spawned || outcome == ReleaseCalled)
      && CallsBy(s.releases, h) == OneIf(outcome == ReleaseCalled)
    ensures forall c ::
        c in s.spawns ==>
          c.handler in s.handlers && c == CallOf(s, c.handler) && (c.request, c.worker) in s.server.claims
  {
    assert LogOk(s, Ack) && LogOk(s, SpawnCall) && LogOk(s, ReleaseCall);
    hide GuardOk, MarksOk;
    forall c | c in s.spawns ensures (c.request, c.worker) in s.server.claims {
      SpawnWasAcked(s, c);
    }
  }

  lemma SpawnWasAcked(s: Sys, c: Call)
    requires LogsOk(s) && c in s.spawns
    ensures c in s.acks
  {
    assert CallsBy(s.acks, c.handler) == 1;
    if forall d :: d in s.acks ==> d.handler != c.handler {
      NoCallsBy(s.acks, c.handler);
    }
  }

  // ---- a handler's own claim is known ------------------------------------------------------

  /** No timer takes another handler's token for its own, and nobody else forgets marks. */
  predicate Distinct(actions: seq<Action>) {
    forall i :: 0 <= i < |actions| ==>
      !actions[i].ElsewhereForgotten? && (actions[i].TimerFires? ==> !actions[i].aliased)
  }

  /** From the mark until its timer is armed a handler's own mark stands. */
  ghost predicate OwnMarks(s: Sys) {
    forall h :: h in s.handlers && s.handlers[h].MayOwnMark() ==>
      s.handlers[h].request in s.recent && s.recent[s.handlers[h].request] == h
  }

  /** Armed timers belong to handlers that are past that. */
  ghost predicate TimersLate(s: Sys) {
    forall t :: t in s.timers ==> t.1 in s.handlers && Late(s.handlers[t.1].pc)
  }

  predicate Late(pc: Pc) { pc !in {TakeGuard, MarkClaim, CallClaim, DropMark, ArmTimer} }

  ghost predicate MarkHeld(s: Sys) { OwnMarks(s) && TimersLate(s) }

  lemma TimersLateStep(s: Sys, a: Action)
    requires TimersLate(s) && CanAct(s, a)
    ensures TimersLate(Act(s, a))
  {
    hide Apply, Claim, Release;
  }

  /** A mark goes that no handler may still own. */
  lemma MarkGoes(s: Sys, s': Sys, r: string)
    requires OwnMarks(s) && s'.recent == s.recent - {r}
    requires forall h :: h in s'.handlers && s'.handlers[h].MayOwnMark() ==>
      s'.handlers[h].request != r && h in s.handlers && s.handlers[h] == s'.handlers[h]
    ensures OwnMarks(s')
  {
  }

  lemma MarksStay(s: Sys, s': Sys)
    requires OwnMarks(s) && s'.recent == s.recent
    requires forall h :: h in s'.handlers && s'.handlers[h].MayOwnMark() ==>
      h in s.handlers && s.handlers[h].MayOwnMark() && s.handlers[h].request == s'.handlers[h].request
    ensures OwnMarks(s')
  {
  }

  /** Past the mark a handler is the only one for its request. */
  lemma OnlyOwner(s: Sys, g: nat, h: nat)
    requires GuardOk(s) && g in s.handlers && h in s.handlers && s.handlers[g].HoldsGuard()
    requires s.handlers[h].MayOwnMark() && s.handlers[g].request == s.handlers[h].request
    ensures g == h
  {
  }

  lemma OwnerDropsMark(s: Sys, h: nat, pc: Pc, s': Sys)
    requires GuardOk(s) && OwnMarks(s) && h in s.handlers && s.handlers[h].HoldsGuard()
    requires s'.handlers == Goto(s, h, pc) && (s'.recent == s.recent - {s.handlers[h].request} || s'.recent == s.recent)
    requires pc !in {CallClaim, DropMark, ArmTimer}
    ensures OwnMarks(s')
  {
    forall g | g in s'.handlers && s'.handlers[g].MayOwnMark()
      ensures s'.handlers[g].request != s.handlers[h].request
    {
      if s'.handlers[g].request == s.handlers[h].request { OnlyOwner(s, h, g); }
    }
    hide GuardOk;
    if s'.recent == s.recent { MarksStay(s, s'); } else { MarkGoes(s, s', s.handlers[h].request); }
  }

  lemma OwnerMarks(s: Sys, h: nat)
    requires GuardOk(s) && OwnMarks(s) && At(s, h, MarkClaim)
    ensures OwnMarks(Act(s, Mark(h)))
  {
    forall g | g in s.handlers && s.handlers[g].MayOwnMark() ensures s.handlers[g].request != s.handlers[h].request {
      if s.handlers[g].request == s.handlers[h].request { OnlyOwner(s, h, g); }
    }
    hide GuardOk;
  }

  lemma TimerSparesMarks(s: Sys, r: string, token: nat)
    requires OwnMarks(s) && TimersLate(s) && (r, token) in s.timers
    ensures OwnMarks(Act(s, TimerFires(r, token, false)))
  {
    assert Late(s.handlers[(r, token).1].pc);
  }

  lemma MarkHeldStep(s: Sys, a: Action)
    requires GuardOk(s) && MarkHeld(s) && CanAct(s, a)
    requires !a.ElsewhereForgotten? && (a.TimerFires? ==> !a.aliased)
    ensures MarkHeld(Act(s, a))
  {
    TimersLateStep(s, a);
    hide GuardOk, OwnMarks, TimersLate, Apply, Claim, Release;
    match a
    case Mark(h) => OwnerMarks(s, h);
    case Unmark(h, aliased) => OwnerDropsMark(s, h, DropGuard(NotClaimed), Act(s, a));
    case Forget(h) => OwnerDropsMark(s, h, CallRelease, Act(s, a));
    case TimerFires(r, token, aliased) => TimerSparesMarks(s, r, token);
    case ElsewhereForgotten(_) =>
    case _ => OthersLeaveMarks(s, a);
  }

  lemma OthersLeaveMarks(s: Sys, a: Action)
    requires OwnMarks(s) && CanAct(s, a)
    requires !a.Mark? && !a.Unmark? && !a.Forget? && !a.TimerFires? && !a.ElsewhereForgotten?
    ensures OwnMarks(Act(s, a))
  {
    hide OwnMarks, Apply, Claim, Release;
    MarksStay(s, Act(s, a));
  }

  lemma {:induction false} MarkHeldAlways(s: Sys, actions: seq<Action>)
    requires HandlersInv(s) && MarkHeld(s) && CanRun(s, actions) && Distinct(actions)
    ensures MarkHeld(RunAll(s, actions))
    decreases |actions|
  {
    if actions != [] {
      hide MarkHeld, Act, CanAct, GuardOk, LogsOk, MarksOk;
      MarkHeldStep(s, actions[0]);
      GuardStep(s, actions[0]);
      LogsStep(s, actions[0]);
      MarksStep(s, actions[0]);
      MarkHeldAlways(Act(s, actions[0]), actions[1..]);
    }
  }

  /** So while a handler's claim is acknowledged its request is marked as claimed here, and the
      `claimed` event of its own claim is recognised. */
  lemma OwnClaimIsKnown(server: State, actions: seq<Action>, h: nat)
    requires CanRun(Initial(server), actions) && Distinct(actions)
    requires At(RunAll(Initial(server), actions), h, ArmTimer)
    ensures var s := RunAll(Initial(server), actions); s.handlers[h].request in s.recent
  {
    InitialOk(server);
    MarkHeldAlways(Initial(server), actions);
  }

  /** No mark leaks, whether or not two claim tokens compare equal. */
  lemma NoMarkLeaks(server: State, actions: seq<Action>, r: string)
    requires CanRun(Initial(server), actions)
    requires r in RunAll(Initial(server), actions).recent
    ensures
      var s := RunAll(Initial(server), actions);
      || (exists h :: h in s.handlers && s.handlers[h].request == r && s.handlers[h].MayOwnMark())
      || (exists token :: (r, token) in s.timers && s.recent[r] == token)
  {
    InitialOk(server);
    HandlersInvAlways(Initial(server), actions);
  }

  // ---- the in-flight guard ---------------------------------------------------------------

  /** A handler is turned away exactly when another one for its request is past the guard. */
  lemma TurnedAwayExactlyWhen(s: Sys, g: nat, worker: string)
    requires HandlersInv(s) && CanAct(s, Guard(g, worker))
    ensures Act(s, Guard(g, worker)).handlers[g].pc == Finished(Busy) <==>
      exists h :: h in s.handlers && s.handlers[h].HoldsGuard() && s.handlers[h].request == s.handlers[g].request
  {
    var r := s.handlers[g].request;
    if r in s.inflight {
      var h :| h in s.handlers && s.handlers[h].HoldsGuard() && s.handlers[h].request == r;
    }
  }

  /** A handler releases its claim, a new handler comes for the announcement of that, and
      the first one leaves. */
  function ReleaseRace(s: Sys, h: nat, g: nat, worker: string): seq<Action>
    requires h in s.handlers
  {
    [ReleaseReturned(h, true), Start(g, s.handlers[h].request), Guard(g, worker), Leave(h)]
  }

  function AfterRace(s: Sys, h: nat, g: nat): Sys
    requires h in s.handlers
  {
    var r := s.handlers[h].request;
    s.(server := Release(s.server, r).0, releases := s.releases + [CallOf(s, h)], inflight := s.inflight - {r},
       handlers := s.handlers[h := s.handlers[h].(pc := Finished(ReleaseCalled))][g := Handler(r, "", Finished(Busy))])
  }

  /** So the announcement of a handler's own release may be turned away by that handler:
      the request is pending again, and when the handler leaves nobody is at it until a
      later listing or event. */
  lemma OwnReleaseMayBeTurnedAway(s: Sys, h: nat, g: nat, worker: string)
    requires HandlersInv(s) && At(s, h, CallRelease) && g !in s.handlers
    requires Release(s.server, s.handlers[h].request).1 == OK
    ensures CanRun(s, ReleaseRace(s, h, g, worker)) && RunAll(s, ReleaseRace(s, h, g, worker)) == AfterRace(s, h, g)
    ensures var r := s.handlers[h].request;
      var end := AfterRace(s, h, g);
      r in end.server.requests && end.server.requests[r].status == Pending && r !in end.inflight
  {
    GuardHeld(s, h);
    RaceEnds(s, h, g, worker);
    hide HandlersInv, CanRun, RunAll;
  }

  lemma RaceEnds(s: Sys, h: nat, g: nat, worker: string)
    requires At(s, h, CallRelease) && g !in s.handlers && s.handlers[h].request in s.inflight
    ensures CanRun(s, ReleaseRace(s, h, g, worker)) && RunAll(s, ReleaseRace(s, h, g, worker)) == AfterRace(s, h, g)
  {
    hide CanRun, RunAll, Release;
    var a := ReleaseRace(s, h, g, worker);
    RunOne(s, a);
    var s1 := Act(s, a[0]);
    RaceTail(s1, h, g, worker, a[1..]);
  }

  lemma RaceTail(s: Sys, h: nat, g: nat, worker: string, a: seq<Action>)
    requires At(s, h, DropGuard(ReleaseCalled)) && g !in s.handlers && s.handlers[h].request in s.inflight
    requires a == [Start(g, s.handlers[h].request), Guard(g, worker), Leave(h)]
    ensures CanRun(s, a)
    ensures var r := s.handlers[h].request;
      RunAll(s, a) == s.(inflight := s.inflight - {r},
        handlers := s.handlers[h := s.handlers[h].(pc := Finished(ReleaseCalled))][g := Handler(r, "", Finished(Busy))])
  {
    hide CanRun, RunAll;
    var r := s.handlers[h].request;
    var s1 := Act(s, a[0]);
    RunOne(s, a);
    var s2 := Act(s1, a[1]);
    RunOne(s1, a[1..]);
    var s3 := Act(s2, a[2]);
    RunOne(s2, a[2..]);
    RunNone(s3, a[3..]);
    assert s3.handlers ==
      s.handlers[h := s.handlers[h].(pc := Finished(ReleaseCalled))][g := Handler(r, "", Finished(Busy))];
  }

  lemma RunNone(s: Sys, actions: seq<Action>)
    requires actions == []
    ensures CanRun(s, actions) && RunAll(s, actions) == s
  {
  }

  lemma GuardHeld(s: Sys, h: nat)
    requires HandlersInv(s) && h in s.handlers && s.handlers[h].HoldsGuard()
    ensures s.handlers[h].request in s.inflight
  {
  }

  lemma RunOne(s: Sys, actions: seq<Action>)
    requires actions != [] && CanAct(s, actions[0])
    ensures CanRun(s, actions) <==> CanRun(Act(s, actions[0]), actions[1..])
    ensures CanRun(s, actions) ==> RunAll(s, actions) == RunAll(Act(s, actions[0]), actions[1..])
  {
  }

  // ---- one handler by itself ------------------------------------------------------------------

  /** What a handler that wins its claim leaves on the server when nobody else acts. */
  function Alone(server: State, r: string, worker: string, spawned: bool): State {
    var claimed := Claim(server, r, worker).0;
    if spawned then claimed else Release(claimed, r).0
  }

  function Script(r: string, worker: string, spawned: bool): seq<Action> {
    [Start(0, r), Guard(0, worker), Mark(0), ClaimAcked(0), Arm(0), SpawnReturned(0, spawned)]
      + if spawned then [Leave(0)] else [Forget(0), ReleaseReturned(0, true), Leave(0)]
  }

  lemma RunsAlone(server: State, r: string, worker: string, spawned: bool)
    requires Claim(server, r, worker).1 == OK
    ensures CanRun(Initial(server), Script(r, worker, spawned))
    ensures RunAll(Initial(server), Script(r, worker, spawned)).server == Alone(server, r, worker, spawned)
  {
    hide Claim, Release, CanRun, RunAll;
    var s, a := Initial(server), Script(r, worker, spawned);
    var s4 := RunsToClaim(server, r, worker, a);
    var s6 := Act(Act(s4, a[4]), a[5]);
    RunOne(s4, a[4..]);
    RunOne(Act(s4, a[4]), a[5..]);
    RunsToEnd(s6, spawned, a[6..]);
  }

  lemma RunsToClaim(server: State, r: string, worker: string, a: seq<Action>) returns (s: Sys)
    requires Claim(server, r, worker).1 == OK && |a| >= 4
    requires a[0] == Start(0, r) && a[1] == Guard(0, worker) && a[2] == Mark(0) && a[3] == ClaimAcked(0)
    ensures s.server == Claim(server, r, worker).0 && s.handlers == map[0 := Handler(r, worker, ArmTimer)]
    ensures r in s.inflight
    ensures CanRun(Initial(server), a) <==> CanRun(s, a[4..])
    ensures CanRun(s, a[4..]) ==> RunAll(Initial(server), a) == RunAll(s, a[4..])
  {
    hide Claim, CanRun, RunAll;
    var s0 := Initial(server);
    var s1 := Act(s0, a[0]);
    RunOne(s0, a);
    var s2 := Act(s1, a[1]);
    RunOne(s1, a[1..]);
    var s3 := Act(s2, a[2]);
    RunOne(s2, a[2..]);
    s := Act(s3, a[3]);
    RunOne(s3, a[3..]);
  }

  lemma RunsToEnd(s: Sys, spawned: bool, a: seq<Action>)
    requires 0 in s.handlers && s.handlers[0].pc == (if spawned then DropGuard(Spawned) else ForgetMark)
    requires a == if spawned then [Leave(0)] else [Forget(0), ReleaseReturned(0, true), Leave(0)]
    ensures CanRun(s, a)
    ensures RunAll(s, a).server == if spawned then s.server else Release(s.server, s.handlers[0].request).0
  {
    hide Release, CanRun, RunAll;
    RunOne(s, a);
    var s1 := Act(s, a[0]);
    if spawned {
      RunNone(s1, a[1..]);
    } else {
      var s2 := Act(s1, a[1]);
      RunOne(s1, a[1..]);
      RunOne(s2, a[2..]);
      RunNone(Act(s2, a[2]), a[3..]);
    }
  }

  // ---- a request left pending, reached ------------------------------------------------------

  /** A handler whose spawn fails, and another that comes for the announcement of its release. */
  function TurnedAwayScript(r: string, worker: string, other: string): seq<Action> {
    [Start(0, r), Guard(0, worker), Mark(0), ClaimAcked(0), Arm(0), SpawnReturned(0, false), Forget(0)]
      + [ReleaseReturned(0, true), Start(1, r), Guard(1, other), Leave(0)]
  }

  lemma TurnedAwayRun(server: State, r: string, worker: string, other: string)
    requires Claim(server, r, worker).1 == OK
    ensures CanRun(Initial(server), TurnedAwayScript(r, worker, other))
    ensures var end := RunAll(Initial(server), TurnedAwayScript(r, worker, other));
      && end.server == Release(Claim(server, r, worker).0, r).0 && r !in end.inflight
      && end.handlers == map[0 := Handler(r, worker, Finished(ReleaseCalled)), 1 := Handler(r, "", Finished(Busy))]
  {
    hide Claim, Release, CanRun, RunAll;
    var a := TurnedAwayScript(r, worker, other);
    var s4 := RunsToClaim(server, r, worker, a);
    RunOne(s4, a[4..]);
    var s5 := Act(s4, a[4]);
    RunOne(s5, a[5..]);
    var s6 := Act(s5, a[5]);
    RunOne(s6, a[6..]);
    var s7 := Act(s6, a[6]);
    assert a[7..] == ReleaseRace(s7, 0, 1, other);
    RaceEnds(s7, 0, 1, other);
    assert AfterRace(s7, 0, 1).handlers
      == map[0 := Handler(r, worker, Finished(ReleaseCalled)), 1 := Handler(r, "", Finished(Busy))];
  }

  function OneAgent(): State {
    CreateAgent(EmptyState, CreateBody("bc-1", "", "gpu", "", "", RequestInfo(0, "", "", ""), [], []), 1_000).0
  }

  /** So a new server with one agent may come to this: its request is pending, both handlers
      are done, and neither serves it. */
  lemma LeftPending()
    ensures CanRun(Initial(OneAgent()), TurnedAwayScript("bc-1", "cc-1", "cc-2"))
    ensures var end := RunAll(Initial(OneAgent()), TurnedAwayScript("bc-1", "cc-1", "cc-2"));
      && "bc-1" in end.server.requests && end.server.requests["bc-1"].status == Pending && "bc-1" !in end.inflight
      && forall h :: h in end.handlers ==> end.handlers[h].pc in {Finished(ReleaseCalled), Finished(Busy)}
  {
    hide RunAll, CanRun, OneAgent, TurnedAwayScript, Claim, Release, Initial;
    OneAgentClaims();
    TurnedAwayRun(OneAgent(), "bc-1", "cc-1", "cc-2");
  }

  lemma OneAgentClaims()
    ensures Claim(OneAgent(), "bc-1", "cc-1").1 == OK
    ensures var s := Release(Claim(OneAgent(), "bc-1", "cc-1").0, "bc-1").0;
      "bc-1" in s.requests && s.requests["bc-1"].status == Pending
  {
  }
}
