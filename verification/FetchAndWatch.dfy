/** Fetching the pages, then watching (internal/cursorapi/client.go ListAllPendingRequests
    with internal/controller/controller.go watchLoop): what the bound of a hundred pages
    means for a controller that lists and watches. */
module FetchAndWatch {
  import opened Common
  import opened CursorTypes
  import opened Fleet
  import opened FleetInvariant
  import opened Watch
  import opened Stream
  import opened Routing
  import opened Paging

  /** What the client's listing returns: the first ten thousand. */
  function Fetched(s: State, pool: string): seq<PendingRequest>
    requires OrderKnown(s)
  {
    Paging.Pending(s, pool)[..Min(|Paging.Pending(s, pool)|, 10_000)]
  }

  /** The request is pending, and no fetched one is it. */
  predicate Unfetched(s: State, pool: string, v: PendingRequest)
    requires OrderKnown(s)
  {
    v in Paging.Pending(s, pool) && forall u :: u in Fetched(s, pool) ==> u.id != v.id
  }

  /** Nothing pending stays unfetched exactly up to the bound. */
  lemma FetchedIsAll(s: State, pool: string)
    requires Inv(s)
    ensures OrderKnown(s)
    ensures (exists v :: Unfetched(s, pool, v)) <==> |Paging.Pending(s, pool)| > 10_000
  {
    InvKeys(s);
    var all := Paging.Pending(s, pool);
    ListedDistinct(s, s.order, pool);
    if |all| > 10_000 {
      var v := all[10_000];
      forall u | u in Fetched(s, pool) ensures u.id != v.id {
        var i :| 0 <= i < 10_000 && all[i] == u;
      }
      assert Unfetched(s, pool, v);
    } else {
      assert Fetched(s, pool) == all;
    }
  }

  /** Up to the bound nothing is lost: `Routing.EverythingServedIsHandled` with the listing the
      client really fetched. */
  lemma ServedIsHandledWhenFetched(
      listed: State, before: seq<Op>, actions: seq<Action>, pools: seq<string>, recent: Event -> set<string>,
      id: string)
    requires Inv(listed) && Legal(listed, before) && OrderKnown(listed)
    requires |Paging.Pending(listed, WatchPool(pools))| <= 10_000
    requires CanRun(Opened(Run(listed, before), listed.lastSeq), actions, WatchPool(pools))
    requires var end := RunStream(Opened(Run(listed, before), listed.lastSeq), actions, WatchPool(pools));
      && end.loop.pc.Asleep? && !Stream.CanAct(end, Wake)
      && id in end.server.requests && end.server.requests[id].IsPending()
      && Serves(pools, end.server.requests[id].View(0).Pool())
    ensures var end := RunStream(Opened(Run(listed, before), listed.lastSeq), actions, WatchPool(pools));
      Reached(pools, recent, Fetched(listed, WatchPool(pools)), EventsOf(end.loop.out), id,
        end.server.requests[id].claimedWorkerId)
  {
    assert Fetched(listed, WatchPool(pools)) == Listed(listed, listed.order, WatchPool(pools));
    hide Inv, Listed, Fetched, CanRun, RunStream, Legal, Run, Reached;
    Routing.EverythingServedIsHandled(listed, before, actions, pools, recent, id);
  }

  // ---- and beyond the bound --------------------------------------------------------------

  /** The stream opened at the listing, when nothing happens: it wakes for nothing. */
  lemma QuietStream(s: State, pool: string)
    requires Inv(s)
    ensures CanRun(Opened(s, s.lastSeq), [Snapshot, Sleep], pool)
    ensures var end := RunStream(Opened(s, s.lastSeq), [Snapshot, Sleep], pool);
      end.server == s && end.loop.pc.Asleep? && !Stream.CanAct(end, Wake) && EventsOf(end.loop.out) == []
  {
    var sys := Opened(s, s.lastSeq);
    NewerNothing(s.events, s.lastSeq);
    var one := Stream.Act(sys, Snapshot, pool);
    assert Stream.CanAct(one, Sleep);
    hide Inv, NewerThan;
    assert [Snapshot, Sleep][1..] == [Sleep] && [Sleep][1..] == [];
  }

  /** An unfetched request reaches no handler through the listing. */
  lemma UnfetchedIsUnheard(s: State, pool: string, pools: seq<string>, recent: Event -> set<string>, v: PendingRequest)
    requires OrderKnown(s) && Unfetched(s, pool, v)
    ensures forall worker :: !Reached(pools, recent, Fetched(s, pool), [], v.id, worker)
  {
    hide Fetched;
    forall worker ensures !Reached(pools, recent, Fetched(s, pool), [], v.id, worker) {
      forall u | u in Fetched(s, pool) ensures !Handles(HandleListed(pools, u), v.id, worker) {}
    }
  }

  /** List, and watch while nothing happens: some pending request reaches no handler exactly
      when there are more than the bound. */
  lemma MissedExactlyBeyondBound(s: State, recent: Event -> set<string>)
    requires Inv(s)
    ensures OrderKnown(s) && CanRun(Opened(s, s.lastSeq), [Snapshot, Sleep], "")
    ensures var end := RunStream(Opened(s, s.lastSeq), [Snapshot, Sleep], "");
      (exists v :: v in Paging.Pending(s, "") &&
        !Reached([], recent, Fetched(s, ""), EventsOf(end.loop.out), v.id, v.claimedWorkerId)) <==>
      |Paging.Pending(s, "")| > 10_000
  {
    InvKeys(s);
    QuietStream(s, "");
    FetchedIsAll(s, "");
    if |Paging.Pending(s, "")| > 10_000 {
      var v :| Unfetched(s, "", v);
      UnfetchedIsUnheard(s, "", [], recent, v);
    } else {
      assert Fetched(s, "") == Paging.Pending(s, "");
      forall v | v in Paging.Pending(s, "") ensures Reached([], recent, Fetched(s, ""), [], v.id, v.claimedWorkerId) {
        ListedIsHandled([], v);
      }
    }
  }

  // ---- such a state is reached -----------------------------------------------------------

  function Body(n: nat): CreateBody {
    CreateBody("r" + Decimal(n), "", "gpu", "", "", RequestInfo(0, "", "", ""), [], [])
  }

  /** Exactly the first `n` of these requests, all pending. */
  ghost predicate HasFirst(s: State, n: nat) {
    && |s.order| == n
    && (forall i: nat :: i >= n ==> Body(i).id !in s.requests)
    && (forall r :: r in s.requests ==> s.requests[r].IsPending())
  }

  lemma BodyIdsDiffer(m: nat, n: nat)
    requires Body(m).id == Body(n).id
    ensures m == n
  {
    DecimalRoundTrip(m);
    DecimalRoundTrip(n);
    assert Body(m).id[1..] == Decimal(m) && Body(n).id[1..] == Decimal(n);
  }

  lemma OneMoreCreated(s: State, n: nat, now: int)
    requires Inv(s) && HasFirst(s, n)
    ensures HasFirst(CreateAgent(s, Body(n), now).0, n + 1)
  {
    var t := CreateAgent(s, Body(n), now).0;
    assert Body(n).id != "" && Body(n).id !in s.requests;
    forall i: nat | i >= n + 1 ensures Body(i).id !in t.requests {
      if Body(i).id == Body(n).id { BodyIdsDiffer(i, n); }
    }
    hide Decimal, Inv;
  }

  lemma {:induction false} CreateMany(n: nat) returns (s: State, ops: seq<Op>)
    ensures Legal(EmptyState, ops) && s == Run(EmptyState, ops) && HasFirst(s, n) && Inv(s)
  {
    if n == 0 {
      s, ops := EmptyState, [];
      InvInit();
    } else {
      s, ops := CreateMany(n - 1);
      var op := OpCreate(Body(n - 1), 0);
      OneMoreCreated(s, n - 1, 0);
      RunAppend(EmptyState, ops, op);
      InvStep(s, op);
      s, ops := Apply(s, op), ops + [op];
    }
  }

  lemma {:induction false} RunAppend(s: State, ops: seq<Op>, op: Op)
    requires Legal(s, ops) && Enabled(Run(s, ops), op)
    ensures Legal(s, ops + [op]) && Run(s, ops + [op]) == Apply(Run(s, ops), op)
    decreases |ops|
  {
    if ops == [] {
      assert ops + [op] == [op] && [op][1..] == [];
    } else {
      assert (ops + [op])[1..] == ops[1..] + [op];
      RunAppend(Apply(s, ops[0]), ops[1..], op);
    }
  }

  lemma {:induction false} AllListed(s: State, ids: seq<string>)
    requires forall id :: id in ids ==> id in s.requests && s.requests[id].IsPending()
    ensures |Listed(s, ids, "")| == |ids|
  {
    if ids != [] { AllListed(s, ids[..|ids| - 1]); }
  }

  /** A server with 10001 new agents: a controller for every pool that lists, and watches
      while nothing happens, hears nothing of one of them. */
  lemma OneTooMany() returns (s: State, ops: seq<Op>, missed: PendingRequest)
    ensures Legal(EmptyState, ops) && s == Run(EmptyState, ops) && Inv(s) && OrderKnown(s)
    ensures missed in Paging.Pending(s, "") && CanRun(Opened(s, s.lastSeq), [Snapshot, Sleep], "")
    ensures var end := RunStream(Opened(s, s.lastSeq), [Snapshot, Sleep], "");
      end.loop.pc.Asleep? && !Stream.CanAct(end, Wake) &&
      !Reached([], _ => {}, Fetched(s, ""), EventsOf(end.loop.out), missed.id, missed.claimedWorkerId)
  {
    s, ops := CreateMany(10_000 + 1);
    InvKeys(s);
    AllListed(s, s.order);
    hide Inv, Legal, Run, HasFirst, Listed, Fetched, RunStream, CanRun;
    FetchedIsAll(s, "");
    QuietStream(s, "");
    missed :| Unfetched(s, "", missed);
    UnfetchedIsUnheard(s, "", [], _ => {}, missed);
  }
}
