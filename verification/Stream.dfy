/** The long-lived event stream (internal/fakeapi/server.go, stream): one loop that
    snapshots under the lock, writes without it, and sleeps on the notify channel,
    interleaved with any number of other handlers. */
module Stream {
  import opened Common
  import opened CursorTypes
  import opened Fleet
  import opened FleetInvariant
  import opened Watch
  import FleetServer

  datatype Frame = EventFrame(event: Event) | HeartbeatFrame(num: int)

  /** Where the loop is: about to snapshot; writing what it collected (with the
      channel it read); asleep on that channel; or returned. */
  datatype Pc = Top | Writing(queue: seq<Event>, channel: nat) | Asleep(channel: nat) | Returned

  datatype Loop = Loop(pc: Pc, after: int, out: seq<Frame>)

  datatype Sys = Sys(server: State, loop: Loop)

  datatype Action = Serve(op: Op) | Snapshot | WriteNext | Sleep | Wake | Beat | Return

  function NewerThan(events: seq<Event>, after: int): seq<Event> {
    if events == [] then []
    else
      var front, last := events[..|events| - 1], events[|events| - 1];
      NewerThan(front, after) + if last.num > after then [last] else []
  }

  predicate CanAct(sys: Sys, a: Action) {
    match a
    case Serve(op) => Enabled(sys.server, op)
    case Snapshot => sys.loop.pc.Top?
    case WriteNext => sys.loop.pc.Writing? && sys.loop.pc.queue != []
    case Sleep => sys.loop.pc.Writing? && sys.loop.pc.queue == []
    case Wake => sys.loop.pc.Asleep? && sys.loop.pc.channel != sys.server.notify
    case Beat => sys.loop.pc.Asleep?
    case Return => sys.loop.pc.Asleep?
  }

  function Written(l: Loop, e: Event, pool: string): Loop {
    l.(after := e.num, out := l.out + if StreamFilter(e, pool) then [EventFrame(e)] else [])
  }

  function Act(sys: Sys, a: Action, pool: string): Sys
    requires CanAct(sys, a)
  {
    var l := sys.loop;
    match a
    case Serve(op) => sys.(server := Apply(sys.server, op))
    case Snapshot => sys.(loop := l.(pc := Writing(NewerThan(sys.server.events, l.after), sys.server.notify)))
    case WriteNext => sys.(loop := Written(l, l.pc.queue[0], pool).(pc := l.pc.(queue := l.pc.queue[1..])))
    case Sleep => sys.(loop := l.(pc := Asleep(l.pc.channel)))
    case Wake => sys.(loop := l.(pc := Top))
    case Beat => sys.(loop := l.(pc := Top, out := l.out + [HeartbeatFrame(l.after)]))
    case Return => sys.(loop := l.(pc := Returned))
  }

  ghost predicate CanRun(sys: Sys, actions: seq<Action>, pool: string)
    decreases |actions|
  {
    actions != [] ==> CanAct(sys, actions[0]) && CanRun(Act(sys, actions[0], pool), actions[1..], pool)
  }

  ghost function RunStream(sys: Sys, actions: seq<Action>, pool: string): Sys
    requires CanRun(sys, actions, pool)
    decreases |actions|
  {
    if actions == [] then sys else RunStream(Act(sys, actions[0], pool), actions[1..], pool)
  }

  function Opened(server: State, start: int): Sys { Sys(server, Loop(Top, start, [])) }

  // ---- what was delivered -----------------------------------------------------------

  function EventsOf(out: seq<Frame>): seq<Event> {
    if out == [] then []
    else EventsOf(out[..|out| - 1]) + if out[|out| - 1].EventFrame? then [out[|out| - 1].event] else []
  }

  function Matching(events: seq<Event>, pool: string): seq<Event> {
    if events == [] then []
    else
      var front, last := events[..|events| - 1], events[|events| - 1];
      Matching(front, pool) + if StreamFilter(last, pool) then [last] else []
  }

  ghost predicate LoopOk(sys: Sys, start: int, pool: string) {
    var l, events := sys.loop, sys.server.events;
    && 0 <= start <= l.after <= |events|
    && EventsOf(l.out) == Matching(events[start..l.after], pool)
    && (l.pc.Writing? ==> l.after <= l.pc.channel <= |events| && l.pc.queue == events[l.after..l.pc.channel])
    && (l.pc.Asleep? ==> l.after == l.pc.channel)
  }

  ghost predicate StreamInv(sys: Sys, start: int, pool: string) {
    Inv(sys.server) && LoopOk(sys, start, pool)
  }

  lemma {:induction false} NewerIsSuffix(events: seq<Event>, after: int)
    requires 0 <= after <= |events| && forall i :: 0 <= i < |events| ==> events[i].num == i + 1
    ensures NewerThan(events, after) == events[after..]
  {
    if events != [] {
      var front := events[..|events| - 1];
      if after == |events| {
        NewerNothing(events, after);
      } else {
        NewerIsSuffix(front, after);
        assert events[after..] == front[after..] + [events[|events| - 1]];
      }
    }
  }

  lemma {:induction false} NewerNothing(events: seq<Event>, after: int)
    requires forall i :: 0 <= i < |events| ==> events[i].num <= after
    ensures NewerThan(events, after) == []
  {
    if events != [] {
      NewerNothing(events[..|events| - 1], after);
    }
  }

  lemma SnapshotKeeps(sys: Sys, start: int, pool: string)
    requires Numbered(sys.server) && LoopOk(sys, start, pool) && CanAct(sys, Snapshot)
    ensures LoopOk(Act(sys, Snapshot, pool), start, pool)
  {
    NewerIsSuffix(sys.server.events, sys.loop.after);
  }

  lemma WriteKeeps(sys: Sys, start: int, pool: string)
    requires Numbered(sys.server) && LoopOk(sys, start, pool) && CanAct(sys, WriteNext)
    ensures LoopOk(Act(sys, WriteNext, pool), start, pool)
  {
    var l, events := sys.loop, sys.server.events;
    hide Matching, EventsOf, StreamFilter, NewerThan;
    QueueHead(events, l.after, l.pc.channel);
    var e := events[l.after];
    assert e.num == l.after + 1;
    MatchingOne(events, start, l.after, pool);
    EventsOne(l.out, e);
    assert l.out + [] == l.out;
  }

  lemma QueueHead(events: seq<Event>, i: nat, j: nat)
    requires i < j <= |events|
    ensures events[i..j][0] == events[i] && events[i..j][1..] == events[i + 1..j]
  {
  }

  lemma MatchingOne(events: seq<Event>, i: nat, j: nat, pool: string)
    requires i <= j < |events|
    ensures Matching(events[i..j + 1], pool) ==
      Matching(events[i..j], pool) + if StreamFilter(events[j], pool) then [events[j]] else []
  {
    var more := events[i..j + 1];
    assert more[..|more| - 1] == events[i..j] && more[|more| - 1] == events[j];
  }

  lemma EventsOne(out: seq<Frame>, e: Event)
    ensures EventsOf(out + [EventFrame(e)]) == EventsOf(out) + [e]
  {
    assert (out + [EventFrame(e)])[..|out|] == out;
  }

  lemma WrittenIsNext(sys: Sys, start: int, pool: string)
    requires Numbered(sys.server) && LoopOk(sys, start, pool) && CanAct(sys, WriteNext)
    ensures var t := Act(sys, WriteNext, pool);
      t.loop.after == sys.loop.after + 1 <= |sys.server.events| && 0 <= start <= sys.loop.after
      && EventsOf(t.loop.out) == Matching(sys.server.events[start..sys.loop.after + 1], pool)
  {
    WriteKeeps(sys, start, pool);
    assert sys.loop.pc.queue[0] == sys.server.events[sys.loop.after];
  }

  lemma ServeKeeps(sys: Sys, op: Op, start: int, pool: string)
    requires Inv(sys.server) && LoopOk(sys, start, pool) && Enabled(sys.server, op)
    ensures LoopOk(Sys(Apply(sys.server, op), sys.loop), start, pool)
  {
    StepAnnounces(sys.server, op, "");
    var events, events' := sys.server.events, Apply(sys.server, op).events;
    hide Inv, Apply;
    assert events <= events';
    assert events'[start..sys.loop.after] == events[start..sys.loop.after];
    if sys.loop.pc.Writing? {
      assert events'[sys.loop.after..sys.loop.pc.channel] == events[sys.loop.after..sys.loop.pc.channel];
    }
  }

  lemma BeatKeeps(sys: Sys, start: int, pool: string)
    requires LoopOk(sys, start, pool) && CanAct(sys, Beat)
    ensures LoopOk(Act(sys, Beat, pool), start, pool)
    ensures EventsOf(Act(sys, Beat, pool).loop.out) == EventsOf(sys.loop.out)
  {
    var out := sys.loop.out + [HeartbeatFrame(sys.loop.after)];
    assert out[..|out| - 1] == sys.loop.out;
  }

  lemma ActKeeps(sys: Sys, a: Action, start: int, pool: string)
    requires StreamInv(sys, start, pool) && CanAct(sys, a)
    ensures StreamInv(Act(sys, a, pool), start, pool)
  {
    match a
    case Serve(op) => InvStep(sys.server, op); ServeKeeps(sys, op, start, pool);
    case Snapshot => SnapshotKeeps(sys, start, pool);
    case WriteNext => WriteKeeps(sys, start, pool);
    case Beat => BeatKeeps(sys, start, pool);
    case _ =>
  }

  /** Exactly once and in order: under every interleaving with every handler, the
      events written so far are exactly the pool's events numbered in (start, after]. */
  lemma {:induction false} DeliveredExactly(sys: Sys, actions: seq<Action>, start: int, pool: string)
    requires StreamInv(sys, start, pool) && CanRun(sys, actions, pool)
    ensures var end := RunStream(sys, actions, pool);
      && StreamInv(end, start, pool)
      && EventsOf(end.loop.out) == Matching(end.server.events[start..end.loop.after], pool)
    decreases |actions|
  {
    if actions != [] {
      ActKeeps(sys, actions[0], start, pool);
      DeliveredExactly(Act(sys, actions[0], pool), actions[1..], start, pool);
    }
  }

  /** No lost wake-up: asleep on a channel that is still open, nothing is undelivered. */
  lemma NoLostWakeup(sys: Sys, start: int, pool: string)
    requires StreamInv(sys, start, pool) && sys.loop.pc.Asleep? && !CanAct(sys, Wake)
    ensures sys.loop.after == sys.server.lastSeq
    ensures EventsOf(sys.loop.out) == Matching(sys.server.events[start..], pool)
  {
    assert sys.server.events[start..|sys.server.events|] == sys.server.events[start..];
  }

  // ---- the loop among the handlers ---------------------------------------------------

  /** The handlers' part of an interleaving. */
  function Served(actions: seq<Action>): seq<Op> {
    if actions == [] then [] else (if actions[0].Serve? then [actions[0].op] else []) + Served(actions[1..])
  }

  /** The stream never touches the server: its state is what the handlers alone make of it. */
  lemma {:induction false} ServerRunsOn(sys: Sys, actions: seq<Action>, pool: string)
    requires CanRun(sys, actions, pool)
    ensures Legal(sys.server, Served(actions))
    ensures RunStream(sys, actions, pool).server == Run(sys.server, Served(actions))
    decreases |actions|
  {
    if actions != [] {
      ServerRunsOn(Act(sys, actions[0], pool), actions[1..], pool);
      if actions[0].Serve? {
        assert Served(actions)[0] == actions[0].op && Served(actions)[1..] == Served(actions[1..]);
      } else {
        assert Served(actions) == Served(actions[1..]);
      }
    }
  }

  /** How far the loop is from sleeping with nothing left to write. */
  function Behind(sys: Sys): nat
    requires sys.loop.pc.Writing?
  {
    |sys.loop.pc.queue|
  }

  lemma {:induction false} WritesOut(sys: Sys, start: int, pool: string) returns (actions: seq<Action>)
    requires StreamInv(sys, start, pool) && sys.loop.pc.Writing?
    ensures CanRun(sys, actions, pool) && Served(actions) == []
    ensures var end := RunStream(sys, actions, pool);
      end.loop.pc.Asleep? && end.server == sys.server && end.loop.pc.channel == sys.loop.pc.channel
    decreases Behind(sys)
  {
    var a := if sys.loop.pc.queue != [] then WriteNext else Sleep;
    var next := Act(sys, a, pool);
    ActKeeps(sys, a, start, pool);
    var rest := [];
    if a == WriteNext { rest := WritesOut(next, start, pool); }
    actions := [a] + rest;
    assert actions[0] == a && actions[1..] == rest;
    hide StreamInv;
  }

  lemma SnapshotFirst(sys: Sys, start: int, pool: string) returns (actions: seq<Action>)
    requires StreamInv(sys, start, pool) && sys.loop.pc.Top?
    ensures CanRun(sys, actions, pool) && Served(actions) == []
    ensures var end := RunStream(sys, actions, pool);
      end.loop.pc.Asleep? && end.server == sys.server && end.loop.pc.channel == sys.server.notify
  {
    ActKeeps(sys, Snapshot, start, pool);
    var rest := WritesOut(Act(sys, Snapshot, pool), start, pool);
    actions := [Snapshot] + rest;
    assert actions[0] == Snapshot && actions[1..] == rest;
    hide StreamInv;
  }

  lemma WakeFirst(sys: Sys, start: int, pool: string) returns (actions: seq<Action>)
    requires StreamInv(sys, start, pool) && sys.loop.pc.Asleep? && CanAct(sys, Wake)
    ensures CanRun(sys, actions, pool) && Served(actions) == []
    ensures var end := RunStream(sys, actions, pool);
      end.loop.pc.Asleep? && end.server == sys.server && end.loop.pc.channel == sys.server.notify
  {
    ActKeeps(sys, Wake, start, pool);
    var rest := SnapshotFirst(Act(sys, Wake, pool), start, pool);
    actions := [Wake] + rest;
    assert actions[0] == Wake && actions[1..] == rest;
    hide StreamInv;
  }

  lemma {:induction false} RunJoined(sys: Sys, one: seq<Action>, two: seq<Action>, pool: string)
    requires CanRun(sys, one, pool) && CanRun(RunStream(sys, one, pool), two, pool)
    ensures CanRun(sys, one + two, pool)
    ensures RunStream(sys, one + two, pool) == RunStream(RunStream(sys, one, pool), two, pool)
    decreases |one|
  {
    hide CanAct, Act;
    if one == [] {
      assert one + two == two;
    } else {
      assert (one + two)[0] == one[0] && (one + two)[1..] == one[1..] + two;
      RunJoined(Act(sys, one[0], pool), one[1..], two, pool);
    }
  }

  lemma {:induction false} ServedJoined(one: seq<Action>, two: seq<Action>)
    ensures Served(one + two) == Served(one) + Served(two)
  {
    if one == [] {
      assert one + two == two;
    } else {
      assert (one + two)[0] == one[0] && (one + two)[1..] == one[1..] + two;
      ServedJoined(one[1..], two);
    }
  }

  /** From wherever it is the loop can catch up by its own steps: it then sleeps with every
      matching event written. */
  lemma CatchesUp(sys: Sys, start: int, pool: string) returns (actions: seq<Action>)
    requires StreamInv(sys, start, pool) && !sys.loop.pc.Returned?
    ensures CanRun(sys, actions, pool) && Served(actions) == []
    ensures var end := RunStream(sys, actions, pool);
      && end.server == sys.server && end.loop.pc.Asleep?
      && EventsOf(end.loop.out) == Matching(sys.server.events[start..], pool)
  {
    hide StreamInv, CanRun, RunStream, Served, Matching, EventsOf;
    actions := [];
    RunNothing(sys, pool);
    if sys.loop.pc.Writing? { actions := WritesOut(sys, start, pool); }
    if sys.loop.pc.Top? { actions := SnapshotFirst(sys, start, pool); }
    var mid := RunStream(sys, actions, pool);
    DeliveredExactly(sys, actions, start, pool);
    if CanAct(mid, Wake) {
      var more := WakeFirst(mid, start, pool);
      RunJoined(sys, actions, more, pool);
      ServedJoined(actions, more);
      RunNothing(sys, pool);
      actions := actions + more;
    }
    var end := RunStream(sys, actions, pool);
    DeliveredExactly(sys, actions, start, pool);
    NoLostWakeup(end, start, pool);
  }

  lemma RunNothing(sys: Sys, pool: string)
    ensures CanRun(sys, [], pool) && RunStream(sys, [], pool) == sys && Served([]) == []
  {
  }

  /** An event wakes every sleeper up to date, which then finds exactly that event. */
  lemma EmitWakes(sys: Sys, typ: EventType, data: Payload, start: int, pool: string)
    requires Numbered(sys.server) && LoopOk(sys, start, pool) && sys.loop.pc.Asleep? && !CanAct(sys, Wake)
    ensures var later := Sys(Emit(sys.server, typ, data), sys.loop);
      && CanAct(later, Wake)
      && NewerThan(later.server.events, later.loop.after) == [later.server.events[|sys.server.events|]]
      && forall e :: e in sys.server.events ==> e.num < later.server.events[|sys.server.events|].num
  {
    var t := Emit(sys.server, typ, data);
    NewerIsSuffix(t.events, sys.loop.after);
  }

  /** Delivered numbers strictly increase, so no event is delivered twice. */
  lemma {:induction false} DeliveredInOrder(events: seq<Event>, pool: string)
    requires forall i, j :: 0 <= i < j < |events| ==> events[i].num < events[j].num
    ensures forall i, j ::
        0 <= i < j < |Matching(events, pool)| ==> Matching(events, pool)[i].num < Matching(events, pool)[j].num
    ensures forall e :: e in Matching(events, pool) <==> e in events && StreamFilter(e, pool)
  {
    if events != [] {
      var front, last := events[..|events| - 1], events[|events| - 1];
      DeliveredInOrder(front, pool);
      assert events == front + [last];
      forall e | e in front ensures e.num < last.num {
        var i :| 0 <= i < |front| && front[i] == e;
        assert events[i] == e;
      }
    }
  }

  /** Strictly increasing numbers, and so no event twice. */
  lemma OutInOrder(sys: Sys, start: int, pool: string)
    requires StreamInv(sys, start, pool)
    ensures var d := EventsOf(sys.loop.out); forall i, j :: 0 <= i < j < |d| ==> d[i].num < d[j].num
  {
    DeliveredInOrder(sys.server.events[start..sys.loop.after], pool);
  }

  // ---- list, then watch, end to end ----------------------------------------------------

  lemma CursorReadsBack(n: nat)
    ensures ParseInt(TrimC(CursorText(n))) == Some(n)
  {
    DecimalRoundTrip(n);
    hide Decimal, ParseInt;
    assert CursorText(n)[1..] == Decimal(n);
  }

  /** The cursor is known, and was last issued no earlier than `since`. */
  predicate Issued(s: State, cursor: string, since: int) { cursor in s.cursors && s.cursors[cursor] >= since }

  /** Listings are the only handlers that issue cursors, and time does not go back for them. */
  predicate ListsAfter(ops: seq<Op>,
      since: int) { forall i :: 0 <= i < |ops| && ops[i].OpList? ==> ops[i].now >= since }

  lemma StaysIssued(s: State, op: Op, cursor: string, since: int)
    requires Enabled(s, op) && Issued(s, cursor, since) && (op.OpList? ==> op.now >= since)
    ensures Issued(Apply(s, op), cursor, since)
  {
    hide CutPage, Listed, CursorText;
  }

  lemma {:induction false} IssuedLater(s: State, ops: seq<Op>, cursor: string, since: int)
    requires Legal(s, ops) && Issued(s, cursor, since) && ListsAfter(ops, since)
    ensures Issued(Run(s, ops), cursor, since)
    decreases |ops|
  {
    if ops != [] {
      StaysIssued(s, ops[0], cursor, since);
      IssuedLater(Apply(s, ops[0]), ops[1..], cursor, since);
    }
  }

  lemma ListingIssues(s: State, pool: string, limit: int, token: string, nowMs: int)
    requires Inv(s) && ListPending(s, pool, limit, token, nowMs).1.Some?
    ensures var (s', page) := ListPending(s, pool, limit, token, nowMs);
      page.value.cursor == CursorText(s.lastSeq) && Issued(s', page.value.cursor, nowMs) && s.lastSeq >= 0
  {
  }

  /** The cursor a listing hands out, used any time within its life and whatever the
      server did in between, opens the stream right after the events the listing reflects. */
  lemma OpenedAtListing(s: State, pool: string, limit: int, token: string, listedMs: int, ops: seq<Op>, openMs: int,
      ttlMs: int)
    requires Inv(s) && ListPending(s, pool, limit, token, listedMs).1.Some?
    requires Legal(ListPending(s, pool, limit, token, listedMs).0, ops) && ListsAfter(ops, listedMs)
    requires openMs - listedMs <= ttlMs
    ensures var (s', page) := ListPending(s, pool, limit, token, listedMs);
      OpenStream(Run(s', ops), page.value.cursor, openMs, ttlMs) == StreamAfter(s.lastSeq)
  {
    var (s', page) := ListPending(s, pool, limit, token, listedMs);
    ListingIssues(s, pool, limit, token, listedMs);
    IssuedLater(s', ops, page.value.cursor, listedMs);
    CursorReadsBack(s.lastSeq);
    hide ParseInt, TrimC, CursorText, ListPending, Inv, Legal, Run;
  }

  /** Some delivered event announces `id` with `worker` and `labels`, and no later delivered one announces it again. */
  ghost predicate Delivered(out: seq<Frame>, id: string, worker: string, labels: seq<Label>) {
    exists e :: e in EventsOf(out) && Announces(e, id) && Carries(e, worker, labels)
      && forall f :: f in EventsOf(out) && Announces(f, id) ==> f.num <= e.num
  }

  /** The controller's whole view: list a pool, open the stream at the listing's
      cursor at any later time, and let everything interleave. Whenever the loop
      sleeps on an open channel, each request of the pool that is pending or
      awaits a wake was in the listing with its current worker or has been
      delivered, newest delivery up to date. */
  lemma WatcherMissesNothing(listed: State, before: seq<Op>, actions: seq<Action>, pool: string, id: string)
    requires Inv(listed) && Legal(listed, before)
    requires CanRun(Opened(Run(listed, before), listed.lastSeq), actions, pool)
    requires var end := RunStream(Opened(Run(listed, before), listed.lastSeq), actions, pool);
      && end.loop.pc.Asleep? && !CanAct(end, Wake)
      && id in end.server.requests && end.server.requests[id].IsPending()
      && (pool == "" || end.server.requests[id].View(0).Pool() == pool)
    ensures var end := RunStream(Opened(Run(listed, before), listed.lastSeq), actions, pool);
      var r := end.server.requests[id];
      || InListing(Listed(listed, listed.order, pool), id, r.claimedWorkerId, r.labels)
      || Delivered(end.loop.out, id, r.claimedWorkerId, r.labels)
  {
    var start := listed.lastSeq;
    var s := Run(listed, before);
    var sys := Opened(s, start);
    InvHoldsAlways(listed, before);
    TrackedFromStart(listed, id);
    TrackedAlways(listed, listed, before, id);
    assert s.events[start..start] == [];
    assert StreamInv(sys, start, pool);
    TrackedByStream(listed, sys, actions, start, pool, id);
    DeliveredExactly(sys, actions, start, pool);
    var end := RunStream(sys, actions, pool);
    NoLostWakeup(end, start, pool);
    TrackedMeans(listed, end.server, pool, id);
    var r := end.server.requests[id];
    if !InListing(Listed(listed, listed.order, pool), id, r.claimedWorkerId, r.labels) {
      var k: nat :| ToldBy(end.server, k, start, pool, id, r.claimedWorkerId, r.labels);
      ToldIsDelivered(end, start, pool, id, r.claimedWorkerId, r.labels, k);
    }
  }

  lemma ToldIsDelivered(sys: Sys, start: int, pool: string, id: string, worker: string, labels: seq<Label>, k: nat)
    requires StreamInv(sys, start, pool) && EventsOf(sys.loop.out) == Matching(sys.server.events[start..], pool)
    requires ToldBy(sys.server, k, start, pool, id, worker, labels)
    ensures Delivered(sys.loop.out, id, worker, labels)
  {
    var later := sys.server.events[start..];
    DeliveredInOrder(later, pool);
    var e := sys.server.events[k];
    assert later[k - start] == e;
    forall f | f in EventsOf(sys.loop.out) && Announces(f, id) ensures f.num <= e.num {
      var j :| 0 <= j < |later| && later[j] == f;
      assert sys.server.events[start + j] == f;
    }
  }

  lemma {:induction false} TrackedByStream(listed: State, sys: Sys, actions: seq<Action>, start: int, pool: string,
      id: string)
    requires StreamInv(sys, start, pool) && CanRun(sys, actions, pool) && Tracked(listed, sys.server, id)
    ensures Tracked(listed, RunStream(sys, actions, pool).server, id)
    decreases |actions|
  {
    if actions != [] {
      ActKeeps(sys, actions[0], start, pool);
      if actions[0].Serve? {
        StepAnnounces(sys.server, actions[0].op, id);
        TrackedExtends(listed, sys.server, Apply(sys.server, actions[0].op), id);
      }
      hide StreamInv, Tracked;
      TrackedByStream(listed, Act(sys, actions[0], pool), actions[1..], start, pool, id);
    }
  }

  // ---- the loop, in place ---------------------------------------------------------------

  /** One stream request: `after` and `out` are the handler's locals; each method
      is one stretch of the handler between two points where others may run. */
  class StreamLoop {
    const pool: string
    ghost const start: int
    var pc: Pc
    var after: int
    var out: seq<Frame>

    function Model(): Loop
      reads this
    {
      Loop(pc, after, out)
    }

    constructor (pool: string, start: int)
      ensures Model() == Loop(Top, start, []) && this.pool == pool && this.start == start
    {
      this.pool, this.start := pool, start;
      pc, after, out := Top, start, [];
    }

    /** What was written so far is exactly what matches up to the position, and what is
        collected is what comes next. */
    ghost predicate Valid(server: FleetServer.Server)
      reads this, server
    {
      Numbered(server.Model()) && LoopOk(Sys(server.Model(), Model()), start, pool)
    }

    /** Under the lock: collect the newer events and read the channel. */
    method Collect(server: FleetServer.Server)
      requires Valid(server) && pc.Top?
      modifies this
      ensures Valid(server) && pc.Writing? && pc.queue == server.events[after..]
      ensures Sys(server.Model(), Model()) == Act(Sys(server.Model(), old(Model())), Snapshot, pool)
    {
      var pending := [];
      for i := 0 to |server.events|
        invariant pending == NewerThan(server.events[..i], after)
        invariant unchanged(this)
      {
        assert server.events[..i + 1][..i] == server.events[..i];
        if server.events[i].num > after {
          pending := pending + [server.events[i]];
        }
      }
      assert server.events[..|server.events|] == server.events;
      SnapshotKeeps(Sys(server.Model(), Model()), start, pool);
      NewerIsSuffix(server.events, after);
      pc := Writing(pending, server.notify);
    }

    /** Without the lock: write the next collected event if the pool wants it. */
    method WriteOne(server: FleetServer.Server)
      requires Valid(server) && CanAct(Sys(server.Model(), Model()), WriteNext)
      modifies this
      ensures Valid(server) && after == old(after) + 1
      ensures EventsOf(out) == Matching(server.events[start..old(after) + 1], pool)
      ensures Sys(server.Model(), Model()) == Act(Sys(server.Model(), old(Model())), WriteNext, pool)
    {
      hide LoopOk, Numbered, EventsOf, Matching, EventMatchesPool;
      ghost var sys := Sys(server.Model(), Model());
      WriteKeeps(sys, start, pool);
      WrittenIsNext(sys, start, pool);
      var e := pc.queue[0];
      after := e.num;
      if pool != "" && !EventMatchesPool(e, pool) {
      } else {
        out := out + [EventFrame(e)];
      }
      pc := Writing(pc.queue[1..], pc.channel);
      assert out == old(out) + if StreamFilter(e, pool) then [EventFrame(e)] else [];
      assert Sys(server.Model(), Model()) == Act(sys, WriteNext, pool);
    }

    /** Nothing new for a while: a heartbeat is written, and the loop starts over. */
    method Heartbeat(server: FleetServer.Server)
      requires Valid(server) && pc.Asleep?
      modifies this
      ensures Valid(server) && pc.Top? && after == old(after) && EventsOf(out) == old(EventsOf(out))
      ensures out == old(out) + [HeartbeatFrame(after)]
      ensures Sys(server.Model(), Model()) == Act(Sys(server.Model(), old(Model())), Beat, pool)
    {
      hide LoopOk, Numbered, EventsOf, Matching;
      BeatKeeps(Sys(server.Model(), Model()), start, pool);
      out := out + [HeartbeatFrame(after)];
      pc := Top;
    }
  }
}
