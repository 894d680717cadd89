/** Warm capacity of one pool (internal/controller/controller.go warmLoop and
    reconcileWarm). Times in milliseconds. */
module Warm {
  import opened Common
  import opened Backend
  import opened CursorTypes

  datatype PoolReply = Row(row: PoolRow) | NoSuchPool | PoolError

  /** A spawn that fails may still have left a worker behind. */
  datatype SpawnReply = SpawnOk | SpawnFailed(left: bool)

  const StartingFor: int := 300_000

  ghost predicate IsSpare(pool: string, w: WorkerInfo) {
    w.pool == pool && w.requestId == "" && w.live == Some(true)
  }

  ghost function SparePlaces(pool: string, ws: seq<WorkerInfo>): set<nat> {
    set i: nat | i < |ws| && IsSpare(pool, ws[i])
  }

  lemma OneMoreSpare(pool: string, ws: seq<WorkerInfo>, w: WorkerInfo)
    ensures SparePlaces(pool, ws + [w]) == SparePlaces(pool, ws) + if IsSpare(pool, w) then {|ws|} else {}
    ensures |ws| !in SparePlaces(pool, ws)
  {
    assert forall i :: 0 <= i < |ws| ==> (ws + [w])[i] == ws[i];
  }

  /** The spare workers of a listing, by their places: live, of the pool, serving no request. */
  lemma {:induction false} SparesAre(pool: string, ws: seq<WorkerInfo>)
    ensures Spares(pool, ws) == |SparePlaces(pool, ws)|
  {
    if ws != [] {
      var front, last := ws[..|ws| - 1], ws[|ws| - 1];
      SparesAre(pool, front);
      OneMoreSpare(pool, front, last);
      assert ws == front + [last];
      hide SparePlaces;
    }
  }

  /** Those still starting: younger than five minutes when looked at. */
  ghost predicate IsStarting(pool: string, w: WorkerInfo, at: int) {
    IsSpare(pool, w) && at - w.createdAt < 5 * 60 * 1000
  }

  ghost function StartingPlaces(pool: string, ws: seq<WorkerInfo>, at: nat -> int): set<nat> {
    set i: nat | i < |ws| && IsStarting(pool, ws[i], at(i))
  }

  lemma OneMoreStarting(pool: string, ws: seq<WorkerInfo>, w: WorkerInfo, at: nat -> int)
    ensures StartingPlaces(pool, ws + [w], at) ==
      StartingPlaces(pool, ws, at) + if IsStarting(pool, w, at(|ws|)) then {|ws|} else {}
    ensures |ws| !in StartingPlaces(pool, ws, at)
  {
    assert forall i :: 0 <= i < |ws| ==> (ws + [w])[i] == ws[i];
  }

  lemma {:induction false} StartingAre(pool: string, ws: seq<WorkerInfo>, at: nat -> int)
    ensures Starting(pool, ws, at) == |StartingPlaces(pool, ws, at)|
  {
    if ws != [] {
      var front, last := ws[..|ws| - 1], ws[|ws| - 1];
      StartingAre(pool, front, at);
      OneMoreStarting(pool, front, last, at);
      assert ws == front + [last];
      hide StartingPlaces;
    }
  }

  /** A live worker of the pool that serves no request. */
  predicate Spare(pool: string, w: WorkerInfo) { w.pool == pool && w.requestId == "" && w.live == Some(true) }

  predicate Young(w: WorkerInfo, now: int) { now - w.createdAt < StartingFor }

  function Spares(pool: string, ws: seq<WorkerInfo>): nat {
    if ws == [] then 0 else Spares(pool, ws[..|ws| - 1]) + if Spare(pool, ws[|ws| - 1]) then 1 else 0
  }

  /** Those the tick counts as still starting; each is looked at in its own instant. */
  function Starting(pool: string, ws: seq<WorkerInfo>, at: nat -> int): nat {
    if ws == [] then 0
    else
      var n := |ws| - 1;
      Starting(pool, ws[..n], at) + if Spare(pool, ws[n]) && Young(ws[n], at(n)) then 1 else 0
  }

  /** Spare workers no longer young. */
  function Settled(pool: string, ws: seq<WorkerInfo>, at: nat -> int): nat {
    if ws == [] then 0
    else
      var n := |ws| - 1;
      Settled(pool, ws[..n], at) + if Spare(pool, ws[n]) && !Young(ws[n], at(n)) then 1 else 0
  }

  lemma {:induction false} SparesSplit(pool: string, ws: seq<WorkerInfo>, at: nat -> int)
    ensures Spares(pool, ws) == Starting(pool, ws, at) + Settled(pool, ws, at)
  {
    if ws != [] { SparesSplit(pool, ws[..|ws| - 1], at); }
  }

  lemma SparesMore(pool: string, ws: seq<WorkerInfo>, w: WorkerInfo)
    ensures Spares(pool, ws + [w]) == Spares(pool, ws) + if Spare(pool, w) then 1 else 0
  {
  }

  function Idle(reply: PoolReply): nat {
    if reply.Row? then reply.row.IdleWorkerCount() else 0
  }

  function Larger(a: int, b: int): int { if a < b then b else a }

  /** Spare workers created before time `t`. */
  function SparesBefore(pool: string, ws: seq<WorkerInfo>, t: int): nat {
    if ws == [] then 0
    else
      var front, last := ws[..|ws| - 1], ws[|ws| - 1];
      SparesBefore(pool, front, t) + if Spare(pool, last) && last.createdAt < t then 1 else 0
  }

  lemma SparesBeforeMore(pool: string, ws: seq<WorkerInfo>, w: WorkerInfo, t: int)
    ensures SparesBefore(pool, ws + [w], t) ==
      SparesBefore(pool, ws, t) + if Spare(pool, w) && w.createdAt < t then 1 else 0
  {
    assert (ws + [w])[..|ws|] == ws;
  }

  /** Readings less than the starting time after `t` find no worker settled that was created since `t`. */
  lemma {:induction false} SettledAreOlder(pool: string, ws: seq<WorkerInfo>, at: nat -> int, t: int)
    requires forall i :: 0 <= i < |ws| ==> at(i) < t + StartingFor
    ensures Settled(pool, ws, at) <= SparesBefore(pool, ws, t)
  {
    if ws != [] { SettledAreOlder(pool, ws[..|ws| - 1], at, t); }
  }

  /** What a tick saw: the listing, and the clock reading its first worker was judged at. */
  datatype Tick = Tick(listing: seq<WorkerInfo>, first: nat)

  class WarmPool {
    const pool: string
    const warmIdle: int
    /** What the backend would list now. */
    var workers: seq<WorkerInfo>
    var ticks: nat
    var calls: nat
    const rows: nat -> PoolReply
    const lists: nat -> bool
    const clock: nat -> nat
    const spawns: nat -> SpawnReply
    const canceled: nat -> bool
    const newId: nat -> string
    const world: (nat, seq<WorkerInfo>) -> seq<WorkerInfo>

    /** Time does not go back. Only this loop adds spare workers to its pool; the world
        may take them away, but makes none look older than it is. */
    ghost predicate Valid() {
      && (forall m: nat, n: nat :: m <= n ==> clock(m) <= clock(n))
      && (forall n, ws :: Spares(pool, world(n, ws)) <= Spares(pool, ws))
      && (forall n, ws, t: int :: SparesBefore(pool, world(n, ws), t) <= SparesBefore(pool, ws, t))
    }

    /** The world leaves the workers alone. */
    ghost predicate Still() { forall n, ws :: world(n, ws) == ws }

    ghost predicate AllSpawn() { forall n :: spawns(n).SpawnOk? && !canceled(n) }

    constructor (pool: string, warmIdle: int, workers: seq<WorkerInfo>, rows: nat -> PoolReply, lists: nat -> bool,
                 clock: nat -> nat, spawns: nat -> SpawnReply, canceled: nat -> bool, newId: nat -> string,
                 world: (nat, seq<WorkerInfo>) -> seq<WorkerInfo>)
      ensures this.pool == pool && this.warmIdle == warmIdle && this.workers == workers && ticks == 0 && calls == 0
      ensures this.rows == rows && this.lists == lists && this.clock == clock && this.spawns == spawns
      ensures this.canceled == canceled && this.newId == newId && this.world == world
    {
      this.pool, this.warmIdle, this.workers, this.rows, this.lists := pool, warmIdle, workers, rows, lists;
      this.clock, this.spawns, this.canceled, this.newId, this.world := clock, spawns, canceled, newId, world;
      ticks, calls := 0, 0;
    }

    method Pass(ghost t: int)
      requires Valid()
      modifies this`workers, this`calls
      ensures calls == old(calls) + 1
      ensures Spares(pool, workers) <= old(Spares(pool, workers))
      ensures SparesBefore(pool, workers, t) <= old(SparesBefore(pool, workers, t))
      ensures Still() ==> workers == old(workers)
    {
      workers := world(calls, workers);
      calls := calls + 1;
    }

    /** The readings of one counting loop: one for each worker, in order. */
    function Readings(first: nat): nat -> int { (i: nat) => clock(first + i) }

    /** Counts the workers still starting. */
    method CountStarting(ws: seq<WorkerInfo>) returns (starting: nat)
      modifies this`calls
      ensures starting == Starting(pool, ws, Readings(old(calls))) && calls == old(calls) + |ws|
    {
      starting := 0;
      for i := 0 to |ws|
        invariant starting == Starting(pool, ws[..i], Readings(old(calls))) && calls == old(calls) + i
      {
        assert ws[..i + 1][..i] == ws[..i];
        var w := ws[i];
        if w.pool == pool && w.requestId == "" && w.live.Some? && w.live.value
          && clock(calls) - w.createdAt < StartingFor {
          starting := starting + 1;
        }
        calls := calls + 1;
      }
      assert ws[..|ws|] == ws;
    }

    /** The new worker is stamped with the time of its creation. */
    method Spawn(id: string, ghost t: int) returns (ok: bool)
      requires Valid()
      modifies this`workers, this`calls
      ensures ok == spawns(old(calls)).SpawnOk? && calls == old(calls) + 1
      ensures Spares(pool, workers) <= old(Spares(pool, workers)) + 1
      ensures t <= clock(old(calls)) ==> SparesBefore(pool, workers, t) <= old(SparesBefore(pool, workers, t))
      ensures Still() && ok ==> Spares(pool, workers) == old(Spares(pool, workers)) + 1
    {
      var reply := spawns(calls);
      Pass(t);
      ok := reply.SpawnOk?;
      if ok || reply.left {
        var w := WorkerInfo(id, pool, "", Some(true), false, 0, clock(calls));
        SparesMore(pool, workers, w);
        SparesBeforeMore(pool, workers, w, t);
        workers := workers + [w];
      }
    }

    /** A tick counts every spare worker it should: it asks for nothing, or its listing
        succeeds and the pool row's idle workers cover those no longer young. */
    predicate Counted(tick: nat, seen: Tick) {
      rows(tick).PoolError? || (lists(tick) && Settled(pool, seen.listing, Readings(seen.first)) <= Idle(rows(tick)))
    }

    function Asked(tick: nat, seen: Tick): int {
      if rows(tick).PoolError? then 0
      else
        var starting := if lists(tick) then Starting(pool, seen.listing, Readings(seen.first)) else 0;
        warmIdle - Idle(rows(tick)) - starting
    }

    /** The spare workers a tick misses: settled ones beyond the idle workers of the row,
        or all beyond those when the listing fails. */
    predicate Misses(tick: nat, seen: Tick) {
      Idle(rows(tick)) < if lists(tick) then Settled(pool, seen.listing, Readings(seen.first))
        else Spares(pool, seen.listing)
    }

    /** A tick that spawns all it asks for overshoots exactly when it asks for some
        although it misses some that are there. */
    lemma OvershootsExactlyWhen(tick: nat, seen: Tick)
      ensures var spares := Spares(pool, seen.listing);
        spares + Larger(0, Asked(tick, seen)) > Larger(spares, warmIdle) <==>
          Asked(tick, seen) > 0 && Misses(tick, seen)
    {
      SparesSplit(pool, seen.listing, Readings(seen.first));
    }

    /** One tick. */
    method Reconcile(ghost t: int) returns (spawned: nat, ghost seen: Tick)
      requires Valid()
      modifies this`workers, this`calls, this`ticks
      ensures ticks == old(ticks) + 1 && old(calls) <= seen.first && seen.first + |seen.listing| <= calls
      // Never more than the larger of what there was and what is wanted.
      ensures Counted(old(ticks), seen) ==> Spares(pool, workers) <= Larger(old(Spares(pool, workers)), warmIdle)
      ensures Spares(pool, workers) <= old(Spares(pool, workers)) + Larger(0, Asked(old(ticks), seen))
      // Exactly what is missing, when spawns succeed.
      ensures spawned <= Larger(0, Asked(old(ticks), seen))
      ensures AllSpawn() ==> spawned == Larger(0, Asked(old(ticks), seen))
      ensures Still() && AllSpawn() ==>
        && seen.listing == old(workers)
        && Spares(pool, workers) == old(Spares(pool, workers)) + Larger(0, Asked(old(ticks), seen))
      // So when the row's idle workers are the settled spare ones, the pool is filled up exactly.
      ensures (Still() && AllSpawn() && !rows(old(ticks)).PoolError? && lists(old(ticks))
        && Settled(pool, old(workers), Readings(seen.first)) == Idle(rows(old(ticks)))) ==>
        Spares(pool, workers) == Larger(old(Spares(pool, workers)), warmIdle)
      // Without the pool's row nothing is spawned.
      ensures rows(old(ticks)).PoolError? ==> spawned == 0
      // And then more than there was and is wanted, exactly when it misses spare workers.
      ensures Still() && AllSpawn() ==>
        (Spares(pool, workers) > Larger(old(Spares(pool, workers)), warmIdle) <==>
          Asked(old(ticks), seen) > 0 && Misses(old(ticks), seen))
      // No spare worker older than it is comes in.
      ensures t <= clock(old(calls)) ==> SparesBefore(pool, workers, t) <= old(SparesBefore(pool, workers, t))
    {
      var reply := rows(ticks);
      spawned := 0;
      Pass(t);
      if !reply.PoolError? {
        Pass(t);
      }
      seen := Tick(workers, calls);
      OvershootsExactlyWhen(ticks, seen);
      SparesSplit(pool, workers, Readings(calls));
      var starting := 0;
      if lists(ticks) && !reply.PoolError? {
        starting := CountStarting(workers);
      } else {
        calls := calls + |workers|;
      }
      if !reply.PoolError? {
        var asked := warmIdle - Idle(reply) - starting;
        if asked > 0 {
          spawned := SpawnUpTo(asked, t);
        }
      }
      ticks := ticks + 1;
    }

    method SpawnUpTo(asked: nat, ghost t: int) returns (spawned: nat)
      requires Valid()
      modifies this`workers, this`calls
      ensures spawned <= asked && Spares(pool, workers) <= old(Spares(pool, workers)) + asked && calls >= old(calls)
      ensures AllSpawn() ==> spawned == asked
      ensures Still() && AllSpawn() ==> Spares(pool, workers) == old(Spares(pool, workers)) + asked
      ensures t <= clock(old(calls)) ==> SparesBefore(pool, workers, t) <= old(SparesBefore(pool, workers, t))
    {
      spawned := 0;
      while spawned < asked && !canceled(calls)
        invariant spawned <= asked && Spares(pool, workers) <= old(Spares(pool, workers)) + spawned
        invariant calls >= old(calls)
        invariant Still() ==> Spares(pool, workers) == old(Spares(pool, workers)) + spawned
        invariant t <= clock(old(calls)) ==> SparesBefore(pool, workers, t) <= old(SparesBefore(pool, workers, t))
      {
        assert clock(old(calls)) <= clock(calls);
        var ok := Spawn(newId(calls), t);
        if !ok {
          return;
        }
        spawned := spawned + 1;
      }
    }

    /** The tick's listing succeeds, if it asks for anything, and its row covers the spare
        workers that were created before time `t`. */
    predicate CoversOlder(tick: nat, seen: Tick, t: int) {
      rows(tick).PoolError? || (lists(tick) && SparesBefore(pool, seen.listing, t) <= Idle(rows(tick)))
    }

    ghost predicate AllCounted(from: nat,
        seen: seq<Tick>) { forall k :: 0 <= k < |seen| ==> Counted(from + k, seen[k]) }

    ghost predicate AllCoverOlder(from: nat, seen: seq<Tick>,
        t: int) { forall k :: 0 <= k < |seen| ==> CoversOlder(from + k, seen[k], t) }

    /** `warmLoop`, over any number of ticks: while every tick counts what it should, the
        pool never holds more spare workers than it began with or is wanted. Within the
        starting time it is enough that the rows cover the workers that were there before:
        those the loop spawned itself are all counted as starting. */
    method Loop(n: nat) returns (ghost seen: seq<Tick>)
      requires Valid()
      modifies this`workers, this`calls, this`ticks
      ensures |seen| == n && ticks == old(ticks) + n
      ensures AllCounted(old(ticks), seen) ==> Spares(pool, workers) <= Larger(old(Spares(pool, workers)), warmIdle)
      ensures clock(calls) < clock(old(calls)) + StartingFor && AllCoverOlder(old(ticks), seen, clock(old(calls))) ==>
        AllCounted(old(ticks), seen) && Spares(pool, workers) <= Larger(old(Spares(pool, workers)), warmIdle)
      ensures SparesBefore(pool, workers, clock(old(calls))) <= old(SparesBefore(pool, workers, clock(calls)))
    {
      hide AllCounted, AllCoverOlder, Counted, CoversOlder, Misses, Asked;
      seen := [];
      ghost var began, from := clock(calls), ticks;
      NoTicks(from, began);
      for k := 0 to n
        invariant |seen| == k && ticks == old(ticks) + k && calls >= old(calls)
        invariant AllCounted(old(ticks), seen) ==> Spares(pool, workers) <= Larger(old(Spares(pool, workers)), warmIdle)
        invariant clock(calls) < began + StartingFor && AllCoverOlder(old(ticks), seen, began) ==>
          AllCounted(old(ticks), seen)
        invariant SparesBefore(pool, workers, began) <= old(SparesBefore(pool, workers, clock(calls)))
      {
        assert began <= clock(calls);
        var spawned, tick := Reconcile(began);
        OneMoreTick(from, seen, tick, began);
        StillYoung(from + k, tick, began, calls);
        seen := seen + [tick];
        assert clock(calls) <= clock(calls + 1);
        Pass(began);
      }
    }

    lemma NoTicks(from: nat, t: int)
      ensures AllCounted(from, []) && AllCoverOlder(from, [], t)
    {
    }

    lemma OneMoreTick(from: nat, seen: seq<Tick>, tick: Tick, t: int)
      ensures AllCounted(from, seen + [tick]) <==> AllCounted(from, seen) && Counted(from + |seen|, tick)
      ensures AllCoverOlder(from, seen + [tick], t)
        <==> AllCoverOlder(from, seen, t) && CoversOlder(from + |seen|, tick, t)
    {
      var more := seen + [tick];
      assert more[|seen|] == tick && forall k :: 0 <= k < |seen| ==> more[k] == seen[k];
    }

    lemma StillYoung(tick: nat, seen: Tick, t: int, end: nat)
      requires Valid() && seen.first + |seen.listing| <= end
      ensures clock(end) < t + StartingFor && CoversOlder(tick, seen, t) ==> Counted(tick, seen)
    {
      if clock(end) < t + StartingFor {
        forall i | 0 <= i < |seen.listing| ensures Readings(seen.first)(i) < t + StartingFor {
          assert clock(seen.first + i) <= clock(end);
        }
        SettledAreOlder(pool, seen.listing, Readings(seen.first), t);
      }
    }
  }

  // ---- it does overshoot ---------------------------------------------------------------------

  function OneSpare(): WorkerInfo { WorkerInfo("cc-1", "gpu", "", Some(true), false, 1_000, 1_000) }

  lemma OneSpareCounts(at: nat -> int)
    ensures Spares("gpu", [OneSpare()]) == 1
    ensures Settled("gpu", [OneSpare()], at) == if at(0) - 1_000 < StartingFor then 0 else 1
  {
    var ws := [OneSpare()];
    assert ws[..0] == [] && Spares("gpu", []) == 0 && Settled("gpu", [], at) == 0;
  }

  /** One spare worker, one wanted, and no idle worker in the pool's row. */
  method OneWanted(lists: bool, now: nat) returns (p: WarmPool)
    ensures fresh(p) && p.Valid() && p.Still() && p.AllSpawn() && p.ticks == 0 && p.warmIdle == 1
    ensures p.pool == "gpu" && p.workers == [OneSpare()]
    ensures forall n :: p.rows(n) == NoSuchPool && p.lists(n) == lists && p.clock(n) == now
  {
    p := new WarmPool("gpu", 1, [OneSpare()], _ => NoSuchPool, _ => lists, _ => now, _ => SpawnOk, _ => false,
      _ => "cc-2", (n, ws) => ws);
  }

  /** With a failing listing a tick doubles a pool that was full: the young worker is not counted. */
  method FailedListingOvershoots() returns (p: WarmPool)
    ensures fresh(p) && p.ticks == 1 && Spares(p.pool, p.workers) == 2 > p.warmIdle
  {
    p := OneWanted(false, 1_000);
    OneSpareCounts(p.Readings(0));
    var spawned, seen := p.Reconcile(0);
  }

  /** So it does when the listing succeeds but the row misses a worker older than five minutes. */
  method MissedWorkerOvershoots() returns (p: WarmPool)
    ensures fresh(p) && p.ticks == 1 && Spares(p.pool, p.workers) == 2 > p.warmIdle
  {
    p := OneWanted(true, 301_000);
    var spawned, seen := p.Reconcile(0);
    OneSpareCounts(p.Readings(seen.first));
    SparesSplit(p.pool, seen.listing, p.Readings(seen.first));
  }
}
