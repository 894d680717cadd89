/** Garbage collection over many passes. */
module GcRuns {
  import opened Common
  import opened Backend
  import opened ControllerConfig
  import opened Gc

  /** One pass: its listing, the world's answers, the latch before it, what it disposed. */
  datatype Pass = Pass(ws: seq<WorkerInfo>, answers: nat -> Answers, disabled: bool, made: seq<Disposal>)

  predicate LatchBy(cfg: Config, p: Pass, place: nat)
    requires place <= |p.ws|
  {
    LatchAt(cfg, p.ws, p.answers, place, p.disabled)
  }

  ghost predicate PassOk(cfg: Config, p: Pass, k: nat) { Exact(cfg, p.ws, p.answers, p.disabled, k, |p.ws|, p.made) }

  /** Each pass is exact, and hands its latch to the next. */
  ghost predicate IsRun(cfg: Config, run: seq<Pass>, first: nat) {
    && (forall k :: 0 <= k < |run| ==> PassOk(cfg, run[k], first + k))
    && (forall k :: 0 < k < |run| ==> run[k].disabled == LatchBy(cfg, run[k - 1], |run[k - 1].ws|))
  }

  /** The latch after a run. */
  predicate LatchNow(cfg: Config, run: seq<Pass>, initially: bool) {
    if run == [] then initially else LatchBy(cfg, run[|run| - 1], |run[|run| - 1].ws|)
  }

  lemma RunMore(cfg: Config, run: seq<Pass>, first: nat, initially: bool, p: Pass)
    requires IsRun(cfg, run, first) && PassOk(cfg, p, first + |run|) && p.disabled == LatchNow(cfg, run, initially)
    ensures IsRun(cfg, run + [p], first) && AllMade(run + [p]) == AllMade(run) + p.made
    ensures LatchNow(cfg, run + [p], initially) == LatchBy(cfg, p, |p.ws|)
  {
    hide PassOk, LatchBy;
    var more := run + [p];
    assert more[..|run|] == run;
    assert forall k :: 0 <= k < |run| ==> more[k] == run[k];
    forall k | 0 <= k < |more| ensures PassOk(cfg, more[k], first + k) {
      if k < |run| { assert PassOk(cfg, run[k], first + k); }
    }
    forall k | 0 < k < |more| ensures more[k].disabled == LatchBy(cfg, more[k - 1], |more[k - 1].ws|) {
      assert more[k - 1] == run[k - 1];
    }
  }

  function Listed(listing: Option<seq<WorkerInfo>>): seq<WorkerInfo> {
    if listing.Some? then listing.value else []
  }

  /** The passes were over these listings, with these answers. */
  ghost predicate Over(run: seq<Pass>, listings: seq<Option<seq<WorkerInfo>>>, answers: nat -> nat -> Answers,
      first: nat) {
    forall k :: 0 <= k < |run| && k < |listings| ==>
      run[k].ws == Listed(listings[k]) && run[k].answers == answers(first + k)
  }

  /** `gcLoop`, without the sleeps: a pass per listing; a failed listing does nothing. */
  method GcLoop(c: Collector, listings: seq<Option<seq<WorkerInfo>>>) returns (ghost run: seq<Pass>)
    modifies c
    ensures |run| == |listings| && IsRun(c.cfg, run, old(c.passes)) && c.passes == old(c.passes) + |listings|
    ensures run != [] ==> run[0].disabled == old(c.agentCheckDisabled)
    ensures c.agentCheckDisabled == LatchNow(c.cfg, run, old(c.agentCheckDisabled))
    ensures Over(run, listings, c.answers, old(c.passes))
    ensures c.disposals == old(c.disposals) + AllMade(run)
  {
    hide Exact, IsRun, LatchNow, LatchBy, AllMade;
    run := [];
    NoPasses(c.cfg, c.passes, c.agentCheckDisabled);
    for k := 0 to |listings|
      invariant |run| == k && c.passes == old(c.passes) + k && IsRun(c.cfg, run, old(c.passes))
      invariant c.agentCheckDisabled == LatchNow(c.cfg, run, old(c.agentCheckDisabled))
      invariant k > 0 ==> run[0].disabled == old(c.agentCheckDisabled)
      invariant Over(run, listings, c.answers, old(c.passes))
      invariant c.disposals == old(c.disposals) + AllMade(run)
    {
      ghost var disabled, ask, pass := c.agentCheckDisabled, c.answers(c.passes), c.passes;
      var ok, made := c.RunGC(listings[k]);
      ghost var p := Pass(Listed(listings[k]), ask, disabled, made);
      if !ok { NothingSelected(c.cfg, [], ask, disabled, pass); }
      assert c.agentCheckDisabled == LatchBy(c.cfg, p, |p.ws|) by { LatchUnfolds(c.cfg, p); }
      if k == 0 { FirstLatch(c.cfg, run, disabled); }
      RunMore(c.cfg, run, old(c.passes), old(c.agentCheckDisabled), p);
      run := run + [p];
    }
  }

  lemma NoPasses(cfg: Config, first: nat, initially: bool)
    ensures IsRun(cfg, [], first) && LatchNow(cfg, [], initially) == initially && AllMade([]) == []
  {
  }

  lemma FirstLatch(cfg: Config, run: seq<Pass>, initially: bool)
    requires run == []
    ensures LatchNow(cfg, run, initially) == initially
  {
  }

  lemma LatchUnfolds(cfg: Config, p: Pass)
    ensures LatchBy(cfg, p, |p.ws|) == LatchAt(cfg, p.ws, p.answers, |p.ws|, p.disabled)
  {
  }

  function AllMade(run: seq<Pass>): seq<Disposal> {
    if run == [] then [] else AllMade(run[..|run| - 1]) + run[|run| - 1].made
  }

  /** Only owned workers known to be offline are ever disposed of: a worker that is
      live, or of which nobody knows, is left alone. */
  lemma OnlyKnownOffline(cfg: Config, run: seq<Pass>, first: nat, k: nat, place: nat)
    requires IsRun(cfg, run, first) && k < |run| && place < |run[k].ws|
    requires !Owns(cfg, run[k].ws[place].id) || !KnownOffline(run[k].ws[place], run[k].answers(place))
    ensures forall d :: d in run[k].made ==> d.place != place
  {
  }

  lemma {:induction false} LatchHolds(cfg: Config, p: Pass, i: nat, j: nat)
    requires i <= j <= |p.ws| && LatchBy(cfg, p, i)
    ensures LatchBy(cfg, p, j)
  {
    if i < j { LatchHolds(cfg, p, i, j - 1); }
  }

  /** Once set, the latch is set at every later point of every later pass. */
  lemma {:induction false} LatchStays(cfg: Config, run: seq<Pass>, first: nat, i: nat, place: nat, k: nat, later: nat)
    requires IsRun(cfg, run, first) && i <= k < |run| && place <= |run[i].ws| && later <= |run[k].ws|
    requires i == k ==> place <= later
    requires LatchBy(cfg, run[i], place)
    ensures LatchBy(cfg, run[k], later)
    decreases k
  {
    hide PassOk;
    if i == k {
      LatchHolds(cfg, run[k], place, later);
    } else {
      LatchStays(cfg, run, first, i, place, k - 1, if i == k - 1 then |run[i].ws| else |run[k - 1].ws|);
      if i == k - 1 { LatchHolds(cfg, run[i], place, |run[i].ws|); }
      LatchHolds(cfg, run[k], 0, later);
    }
  }

  /** After the agent API refused the key once, no disposal is ever again made because
      an agent is archived or deleted. */
  lemma NoAgentReasonAfterRefusal(cfg: Config, run: seq<Pass>, first: nat, i: nat, place: nat, k: nat, d: Disposal)
    requires IsRun(cfg, run, first) && i <= k < |run| && place < |run[i].ws|
    requires Considered(cfg, run[i].ws[place], run[i].answers(place))
    requires AsksAgent(cfg, run[i].ws[place], run[i].answers(place).now, LatchBy(cfg, run[i], place))
    requires run[i].answers(place).agent == AuthError
    requires d in run[k].made && (i == k ==> place < d.place)
    ensures d.reason != AgentArchived && d.reason != AgentDeleted
  {
    hide IsRun;
    assert LatchBy(cfg, run[i], place + 1);
    assert PassOk(cfg, run[k], first + k) by { PassAt(cfg, run, first, k); }
    assert Selects(cfg, run[k].ws, run[k].answers, run[k].disabled, first + k, |run[k].ws|, d);
    LatchStays(cfg, run, first, i, place + 1, k, d.place);
  }

  lemma PassAt(cfg: Config, run: seq<Pass>, first: nat, k: nat)
    requires IsRun(cfg, run, first) && k < |run|
    ensures PassOk(cfg, run[k], first + k)
  {
  }

  /** With a hard limit set, a record that stays offline and unchanged is disposed of as
      expired in the first pass in which its idle time reaches the limit, and in no
      pass before, whatever the agent API answers. */
  lemma ExpiresAtFirstPass(cfg: Config, run: seq<Pass>, first: nat, w: WorkerInfo, places: seq<nat>, k: nat)
    requires IsRun(cfg, run, first) && k < |run| && |places| == k + 1
    requires forall j ::
        0 <= j <= k ==>
          places[j] < |run[j].ws| && run[j].ws[places[j]] == w && Considered(cfg, w, run[j].answers(places[j]))
    requires cfg.disposeAfter > 0 && Dated(w) && !w.startupTimedOut
    requires IdleFor(w, run[k].answers(places[k]).now, cfg.disposeAfter)
    requires forall j :: 0 <= j < k ==> !IdleFor(w, run[j].answers(places[j]).now, cfg.disposeAfter)
    ensures Disposal(first + k, places[k], w, Ttl) in run[k].made
    ensures forall j, d :: 0 <= j < k && d in run[j].made && d.place == places[j] ==> d.reason != Ttl
  {
  }

  // ---- who goes, in terms of the record, the clock and the answers alone ----------------------

  /** Since when the record is idle: its last activity, else its creation; 0 for neither. */
  ghost predicate IdleSince(w: WorkerInfo, last: nat) {
    (w.lastActivity != 0 ==> last == w.lastActivity) && (w.lastActivity == 0 ==> last == w.createdAt)
  }

  /** The backend says it is dead, or cannot tell and the fleet has no such worker. */
  ghost predicate Offline(w: WorkerInfo, a: Answers) {
    w.live == Some(false) || (w.live.None? && a.worker == NoSuchWorker)
  }

  /** The hard limit is reached. */
  ghost predicate PastLimit(cfg: Config, idle: int) { cfg.disposeAfter > 0 && idle >= cfg.disposeAfter }

  /** The policy on an owned, offline worker, reason by reason: a startup timeout first; then,
      with a known time, the hard limit; below that the unclaimed ones idle long enough; and
      the claimed ones whose agent the API, asked after its own delay, calls gone or archived. */
  ghost predicate Goes(cfg: Config, w: WorkerInfo, last: nat, a: Answers, latched: bool, reason: Reason) {
    var idle := a.now - last;
    var asked := w.requestId != "" && cfg.checkAgent && !latched && idle >= cfg.disposeArchivedAfter;
    && (reason == StartupTimeout <==> w.startupTimedOut)
    && (reason != StartupTimeout ==> last != 0)
    && (reason == Ttl ==> PastLimit(cfg, idle))
    && (reason == Unclaimed ==> !PastLimit(cfg, idle) && w.requestId == "")
    && (reason == Unclaimed ==> cfg.disposeUnclaimedAfter > 0 && idle >= cfg.disposeUnclaimedAfter)
    && (reason == AgentDeleted ==> !PastLimit(cfg, idle) && asked && a.agent == NoSuchAgent)
    && (reason == AgentArchived ==> !PastLimit(cfg, idle) && asked && a.agent == ArchivedAgent)
  }

  /** A pass disposes of the worker at a place, for a reason, exactly if it is owned, offline
      and due for that reason. */
  lemma MadeExactly(cfg: Config, run: seq<Pass>, first: nat, k: nat, place: nat, last: nat, reason: Reason)
    requires IsRun(cfg, run, first) && k < |run| && place < |run[k].ws| && IdleSince(run[k].ws[place], last)
    ensures var w, a := run[k].ws[place], run[k].answers(place);
      (exists d :: d in run[k].made && d.place == place && d.reason == reason && d.worker == w) <==>
        && HasPrefix(w.id, cfg.workerIdPrefix) && Offline(w, a)
        && Goes(cfg, w, last, a, LatchBy(cfg, run[k], place), reason)
  {
    var w, a := run[k].ws[place], run[k].answers(place);
    PassAt(cfg, run, first, k);
    var latched := LatchBy(cfg, run[k], place);
    assert Due(cfg, w, a, latched, reason) <==> Goes(cfg, w, last, a, latched, reason);
    assert KnownOffline(w, a) <==> Offline(w, a);
    hide Due, Goes, KnownOffline, Offline, LatchBy;
    if Selected(cfg, run[k].ws, run[k].answers, run[k].disabled, place, reason) {
      assert Disposal(first + k, place, w, reason) in run[k].made;
    }
  }

  /** The latch is set only where the agent API was asked and refused the key. */
  lemma {:induction false} LatchedExactly(cfg: Config, p: Pass, place: nat)
    requires place <= |p.ws|
    ensures LatchBy(cfg, p, place) <==> p.disabled || exists i :: 0 <= i < place && Refused(cfg, p, i)
  {
    if place > 0 {
      LatchedExactly(cfg, p, place - 1);
      assert LatchBy(cfg, p, place) <==> LatchBy(cfg, p, place - 1) || Refused(cfg, p, place - 1);
      hide Refused;
    }
  }

  /** The agent of the worker at place `i` was asked about and the key refused. */
  ghost predicate Refused(cfg: Config, p: Pass, i: nat)
    requires i < |p.ws|
  {
    && Considered(cfg, p.ws[i], p.answers(i)) && AsksAgent(cfg, p.ws[i], p.answers(i).now, LatchBy(cfg, p, i))
    && p.answers(i).agent == AuthError
  }

  /** A pass gives back the requests of the workers it disposed of successfully after a startup
      timeout, and no other. */
  lemma {:induction false} ReleasedExactly(ds: seq<Disposal>, answers: nat -> Answers, id: string)
    ensures id in ReleasesOf(ds, answers) <==> exists d :: d in ds && Returns(d, answers, id)
  {
    if ds != [] {
      var n := |ds| - 1;
      ReleasedExactly(ds[..n], answers, id);
      assert forall d :: d in ds <==> d in ds[..n] || d == ds[n];
      assert id in ReleasesOf(ds, answers) <==> id in ReleasesOf(ds[..n], answers) || Returns(ds[n], answers, id);
      hide ReleasesOf, Returns;
      if d :| d in ds && Returns(d, answers, id) {
        assert d in ds[..n] || d == ds[n];
      }
    }
  }

  ghost predicate Returns(d: Disposal, answers: nat -> Answers, id: string) {
    d.reason == StartupTimeout && d.worker.requestId == id && id != "" && answers(d.place).disposes
  }
}
