/** Garbage collection of offline workers (internal/controller/controller.go RunGC,
    liveness, disposeReason, dispose, disableAgentChecks). Times in milliseconds. */
module Gc {
  import opened Common
  import opened Backend
  import opened ControllerConfig

  datatype Reason = Ttl | AgentArchived | AgentDeleted | Unclaimed | StartupTimeout

  datatype WorkerAnswer = Connected | NoSuchWorker | WorkerError

  datatype AgentAnswer = ActiveAgent | ArchivedAgent | NoSuchAgent | AuthError | AgentError

  /** What the world answers while one listed worker is looked at: GetWorker,
      GetAgent, the clock, and whether Dispose succeeds. */
  datatype Answers = Answers(worker: WorkerAnswer, agent: AgentAnswer, now: nat, disposes: bool)

  /** One attempted disposal: in which pass, at which place of its listing. */
  datatype Disposal = Disposal(pass: nat, place: nat, worker: WorkerInfo, reason: Reason)

  datatype Gc = Gc(disabled: bool, passes: nat, disposals: seq<Disposal>, releases: seq<string>)

  predicate Owns(cfg: Config, id: string) { HasPrefix(id, cfg.workerIdPrefix) }

  /** The backend's word if it has one, else whether Cursor sees the worker. */
  predicate KnownOffline(w: WorkerInfo, a: Answers) {
    if w.live.Some? then !w.live.value else a.worker == NoSuchWorker
  }

  function LastSeen(w: WorkerInfo): nat { if w.lastActivity != 0 then w.lastActivity else w.createdAt }

  predicate Dated(w: WorkerInfo) { LastSeen(w) != 0 }

  predicate IdleFor(w: WorkerInfo, now: nat, span: int) { now - LastSeen(w) >= span }

  predicate TtlDue(cfg: Config, w: WorkerInfo, now: nat) {
    !w.startupTimedOut && Dated(w) && cfg.disposeAfter > 0 && IdleFor(w, now, cfg.disposeAfter)
  }

  /** The agent API is only asked about a claimed, long idle worker, while allowed. */
  predicate AsksAgent(cfg: Config, w: WorkerInfo, now: nat, disabled: bool) {
    && !w.startupTimedOut && Dated(w) && !TtlDue(cfg, w, now) && w.requestId != ""
    && cfg.checkAgent && !disabled && IdleFor(w, now, cfg.disposeArchivedAfter)
  }

  /** The policy, one condition per reason. */
  predicate Due(cfg: Config, w: WorkerInfo, a: Answers, disabled: bool, reason: Reason) {
    match reason
    case StartupTimeout => w.startupTimedOut
    case Ttl => TtlDue(cfg, w, a.now)
    case Unclaimed =>
      && !w.startupTimedOut && Dated(w) && !TtlDue(cfg, w, a.now) && w.requestId == ""
      && cfg.disposeUnclaimedAfter > 0 && IdleFor(w, a.now, cfg.disposeUnclaimedAfter)
    case AgentDeleted => AsksAgent(cfg, w, a.now, disabled) && a.agent == NoSuchAgent
    case AgentArchived => AsksAgent(cfg, w, a.now, disabled) && a.agent == ArchivedAgent
  }

  lemma AtMostOneReason(cfg: Config, w: WorkerInfo, a: Answers, disabled: bool, one: Reason, other: Reason)
    requires Due(cfg, w, a, disabled, one) && Due(cfg, w, a, disabled, other)
    ensures one == other
  {
  }

  /** Looked at and found offline: only then does the policy apply. */
  predicate Considered(cfg: Config, w: WorkerInfo, a: Answers) { Owns(cfg, w.id) && KnownOffline(w, a) }

  /** The latch: set by the first refusal of the agent API, never cleared. */
  function LatchAfter(cfg: Config, w: WorkerInfo, a: Answers, disabled: bool): bool {
    disabled || (Considered(cfg, w, a) && AsksAgent(cfg, w, a.now, disabled) && a.agent == AuthError)
  }

  function LatchAt(cfg: Config, ws: seq<WorkerInfo>, answers: nat -> Answers, place: nat, disabled: bool): bool
    requires place <= |ws|
  {
    if place == 0 then disabled
    else LatchAfter(cfg, ws[place - 1], answers(place - 1), LatchAt(cfg, ws, answers, place - 1, disabled))
  }

  /** `reason` applies to the worker at `place` of the listing. */
  predicate Selected(cfg: Config, ws: seq<WorkerInfo>, answers: nat -> Answers, disabled: bool, place: nat,
      reason: Reason)
    requires place < |ws|
  {
    && Considered(cfg, ws[place], answers(place))
    && Due(cfg, ws[place], answers(place), LatchAt(cfg, ws, answers, place, disabled), reason)
  }

  /** The disposals of one pass over `ws`: precisely those selected, in listing order. */
  ghost predicate Exact(cfg: Config, ws: seq<WorkerInfo>, answers: nat -> Answers, disabled: bool, pass: nat, upTo: nat,
      ds: seq<Disposal>)
    requires upTo <= |ws|
  {
    && (forall d :: d in ds ==> Selects(cfg, ws, answers, disabled, pass, upTo, d))
    && (forall i, j :: 0 <= i < j < |ds| ==> ds[i].place < ds[j].place)
    && (forall place, reason :: 0 <= place < upTo && Selected(cfg, ws, answers, disabled, place, reason) ==>
          Disposal(pass, place, ws[place], reason) in ds)
  }

  predicate Selects(cfg: Config, ws: seq<WorkerInfo>, answers: nat -> Answers, disabled: bool, pass: nat, upTo: nat,
      d: Disposal)
    requires upTo <= |ws|
  {
    d.pass == pass && d.place < upTo && d.worker == ws[d.place]
      && Selected(cfg, ws, answers, disabled, d.place, d.reason)
  }

  /** The releases of one pass: one per successful startup-timeout disposal of a claimed worker. */
  function ReleasesOf(ds: seq<Disposal>, answers: nat -> Answers): seq<string> {
    if ds == [] then []
    else
      var d := ds[|ds| - 1];
      ReleasesOf(ds[..|ds| - 1], answers)
        + if d.reason == StartupTimeout && d.worker.requestId != "" && answers(d.place).disposes
          then [d.worker.requestId] else []
  }

  lemma NextSpared(cfg: Config, ws: seq<WorkerInfo>, answers: nat -> Answers, disabled: bool, pass: nat, i: nat,
      ds: seq<Disposal>)
    requires i < |ws| && Exact(cfg, ws, answers, disabled, pass, i, ds)
    requires forall r :: !Selected(cfg, ws, answers, disabled, i, r)
    ensures Exact(cfg, ws, answers, disabled, pass, i + 1, ds)
  {
  }

  lemma NextSelected(cfg: Config, ws: seq<WorkerInfo>, answers: nat -> Answers, disabled: bool, pass: nat, i: nat,
      ds: seq<Disposal>, reason: Reason)
    requires i < |ws| && Exact(cfg, ws, answers, disabled, pass, i, ds)
    requires Selected(cfg, ws, answers, disabled, i, reason)
    ensures Exact(cfg, ws, answers, disabled, pass, i + 1, ds + [Disposal(pass, i, ws[i], reason)])
  {
    var d := Disposal(pass, i, ws[i], reason);
    var more := ds + [d];
    forall r | Selected(cfg, ws, answers, disabled, i, r) ensures r == reason {
      AtMostOneReason(cfg, ws[i], answers(i), LatchAt(cfg, ws, answers, i, disabled), r, reason);
    }
    hide Selected;
    assert forall e :: e in more <==> e in ds || e == d;
    assert forall e :: e in ds ==> Selects(cfg, ws, answers, disabled, pass, i, e);
    assert forall j :: 0 <= j < |ds| ==> ds[j] in ds && more[j] == ds[j];
  }

  class Collector {
    const cfg: Config
    var agentCheckDisabled: bool
    var passes: nat
    var disposals: seq<Disposal>
    var releases: seq<string>
    /** Per pass and place of the listing. */
    const answers: nat -> nat -> Answers

    function Model(): Gc
      reads this
    {
      Gc(agentCheckDisabled, passes, disposals, releases)
    }

    constructor (cfg: Config, answers: nat -> nat -> Answers)
      ensures Model() == Gc(false, 0, [], []) && this.cfg == cfg && this.answers == answers
    {
      this.cfg, this.answers := cfg, answers;
      agentCheckDisabled, passes, disposals, releases := false, 0, [], [];
    }

    method Liveness(w: WorkerInfo, a: Answers) returns (live: bool, known: bool)
      ensures known && !live <==> KnownOffline(w, a)
      ensures !known <==> w.live.None? && a.worker == WorkerError
    {
      if w.live.Some? {
        return w.live.value, true;
      }
      match a.worker
      case Connected => return true, true;
      case NoSuchWorker => return false, true;
      case WorkerError => return false, false;
    }

    method DisposeReason(w: WorkerInfo, a: Answers) returns (reason: Option<Reason>)
      modifies this`agentCheckDisabled
      ensures reason.Some? ==> Due(cfg, w, a, old(agentCheckDisabled), reason.value)
      ensures reason.None? ==> forall r :: !Due(cfg, w, a, old(agentCheckDisabled), r)
      ensures agentCheckDisabled == (old(agentCheckDisabled)
        || (AsksAgent(cfg, w, a.now, old(agentCheckDisabled)) && a.agent == AuthError))
    {
      if w.startupTimedOut {
        return Some(StartupTimeout);
      }
      var last := w.lastActivity;
      if last == 0 {
        last := w.createdAt;
      }
      if last == 0 {
        return None;
      }
      var idle := a.now - last;
      if cfg.disposeAfter > 0 && idle >= cfg.disposeAfter {
        return Some(Ttl);
      }
      if w.requestId == "" {
        if cfg.disposeUnclaimedAfter > 0 && idle >= cfg.disposeUnclaimedAfter {
          return Some(Unclaimed);
        }
        return None;
      }
      if !cfg.checkAgent || agentCheckDisabled || idle < cfg.disposeArchivedAfter {
        return None;
      }
      match a.agent
      case NoSuchAgent => return Some(AgentDeleted);
      case AuthError =>
        agentCheckDisabled := true;
        return None;
      case AgentError => return None;
      case ArchivedAgent => return Some(AgentArchived);
      case ActiveAgent => return None;
    }

    /** Disposes; after a startup timeout the request goes back to Cursor. */
    method Dispose(place: nat, w: WorkerInfo, reason: Reason, a: Answers)
      modifies this`disposals, this`releases
      ensures disposals == old(disposals) + [Disposal(passes, place, w, reason)]
      ensures releases == old(releases)
        + if reason == StartupTimeout && w.requestId != "" && a.disposes then [w.requestId] else []
    {
      disposals := disposals + [Disposal(passes, place, w, reason)];
      if !a.disposes {
        return;
      }
      if reason == StartupTimeout && w.requestId != "" {
        releases := releases + [w.requestId];
      }
    }

    /** One worker of the listing. */
    method Collect(place: nat, w: WorkerInfo) returns (reason: Option<Reason>)
      modifies this`agentCheckDisabled, this`disposals, this`releases
      ensures reason.Some? ==> Considered(cfg, w, answers(passes)(place))
      ensures reason.Some? ==> Due(cfg, w, answers(passes)(place), old(agentCheckDisabled), reason.value)
      ensures reason.None? && Considered(cfg, w, answers(passes)(place)) ==>
        forall r :: !Due(cfg, w, answers(passes)(place), old(agentCheckDisabled), r)
      ensures agentCheckDisabled == LatchAfter(cfg, w, answers(passes)(place), old(agentCheckDisabled))
      ensures disposals == old(disposals) + if reason.Some? then [Disposal(passes, place, w, reason.value)] else []
      ensures releases == old(releases)
        + if reason == Some(StartupTimeout) && w.requestId != "" && answers(passes)(place).disposes
          then [w.requestId] else []
    {
      hide Due;
      var a := answers(passes)(place);
      if !Owns(cfg, w.id) {
        return None;
      }
      var live, known := Liveness(w, a);
      if !known || live {
        return None;
      }
      reason := DisposeReason(w, a);
      if reason.Some? {
        Dispose(place, w, reason.value, a);
      }
    }

    /** One pass over what the backend lists; None is a listing error. */
    method RunGC(listing: Option<seq<WorkerInfo>>) returns (ok: bool, ghost made: seq<Disposal>)
      modifies this
      ensures ok == listing.Some? && passes == old(passes) + 1
      ensures !ok ==> made == [] && agentCheckDisabled == old(agentCheckDisabled)
      ensures ok ==>
        Exact(cfg, listing.value, answers(old(passes)), old(agentCheckDisabled), old(passes), |listing.value|, made)
      ensures ok ==>
        agentCheckDisabled
          == LatchAt(cfg, listing.value, answers(old(passes)), |listing.value|, old(agentCheckDisabled))
      ensures disposals == old(disposals) + made
      ensures releases == old(releases) + ReleasesOf(made, answers(old(passes)))
    {
      hide Exact, Due, Considered, LatchAfter;
      made := [];
      ok := listing.Some?;
      if ok {
        var ws := listing.value;
        ghost var ask := answers(passes);
        assert Exact(cfg, ws, ask, agentCheckDisabled, passes, 0, made) by {
          NothingSelected(cfg, ws, ask, agentCheckDisabled, passes);
        }
        for i := 0 to |ws|
          invariant passes == old(passes) && Exact(cfg, ws, ask, old(agentCheckDisabled), passes, i, made)
          invariant agentCheckDisabled == LatchAt(cfg, ws, ask, i, old(agentCheckDisabled))
          invariant disposals == old(disposals) + made
          invariant releases == old(releases) + ReleasesOf(made, ask)
        {
          var reason := Collect(i, ws[i]);
          if reason.None? {
            NextSpared(cfg, ws, ask, old(agentCheckDisabled), passes, i, made);
          } else {
            NextSelected(cfg, ws, ask, old(agentCheckDisabled), passes, i, made, reason.value);
            assert (made + [Disposal(passes, i, ws[i], reason.value)])[..|made|] == made;
            made := made + [Disposal(passes, i, ws[i], reason.value)];
          }
        }
      }
      passes := passes + 1;
    }
  }

  lemma NothingSelected(cfg: Config, ws: seq<WorkerInfo>, answers: nat -> Answers, disabled: bool, pass: nat)
    ensures Exact(cfg, ws, answers, disabled, pass, 0, [])
  {
  }
}
