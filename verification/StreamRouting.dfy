/** From the bytes of the stream to the controller's handlers
    (internal/cursorapi/client.go DecodeRequest, DecodeClaimEvent;
    internal/controller/controller.go handleEvent, with the names of types.go). */
module StreamRouting {
  import opened Common
  import opened CursorTypes
  import opened Fleet
  import opened FleetInvariant
  import opened Watch
  import opened Stream
  import opened Routing
  import opened StreamText
  import Sse

  /** The client's JSON decoders; None is an error, or a payload without an id. */
  datatype Decoders = Decoders(request: string -> Option<PendingRequest>, claim: string -> Option<string>)

  /** They read back what the server's encoder writes. */
  ghost predicate Inverse(d: Decoders, encode: Payload -> string) {
    && (forall v: PendingRequest :: v.id != "" ==> d.request(encode(RequestPayload(v))) == Some(v))
    && (forall id :: id != "" ==> d.claim(encode(IdPayload(id))) == Some(id))
  }

  /** One parsed event: dispatched on its name; an undecodable payload is dropped. */
  function HandleText(pools: seq<string>, recent: set<string>, e: Sse.SseEvent, d: Decoders): Route {
    if e.typ == "created" || e.typ == "claimed_offline" then
      match d.request(e.data)
      case None => Nothing
      case Some(r) =>
        if e.typ == "claimed_offline" && r.claimedWorkerId == "" then Nothing
        else if WatchPool(pools) == "" && pools != [] && !Serves(pools, r.Pool()) then Nothing
        else HandleRequest(r)
    else if e.typ == "claimed" then
      match d.claim(e.data)
      case None => Nothing
      case Some(id) => if id in recent then Nothing else ResolveClaim(id)
    else Nothing
  }

  // ---- the server's payloads fit its event types -----------------------------------------

  /** Announcements carry a request, the others an id. */
  ghost predicate Fits(e: Event) {
    && (e.typ == Created || e.typ == ClaimedOffline ==> e.data.RequestPayload? && e.data.view.id != "")
    && (e.typ == ClaimedEvent || e.typ == ExpiredEvent ==> e.data.IdPayload? && e.data.id != "")
  }

  ghost predicate FitFrom(events: seq<Event>, from: nat) { forall i :: from <= i < |events| ==> Fits(events[i]) }

  /** A step adds at most one event, and that fits. */
  ghost predicate AddsFit(s: State, s': State) {
    && s.events <= s'.events && |s'.events| <= |s.events| + 1
    && (|s'.events| == |s.events| + 1 ==> Fits(s'.events[|s.events|]))
  }

  lemma RequeueFits(s: State, id: string)
    requires id in s.requests && s.requests[id].id == id && id != ""
    ensures AddsFit(s, Requeue(s, id))
  {
  }

  lemma AwaitFits(s: State, id: string)
    requires id in s.requests && s.requests[id].id == id && id != ""
    ensures AddsFit(s, AwaitWake(s, id))
  {
  }

  lemma CreateFits(s: State, body: CreateBody, now: int)
    ensures AddsFit(s, CreateAgent(s, body, now).0)
  {
    hide GeneratedId;
  }

  lemma FollowupFits(s: State, id: string, now: int)
    requires Inv(s)
    ensures AddsFit(s, Followup(s, id, now).0)
  {
    if Followup(s, id, now).1 == OK {
      assert RequestOk(s, id);
      var s1 := s.(agents := s.agents[id := s.agents[id].(status := Active, updatedAt := now)]);
      RequeueFits(s1, id);
      AwaitFits(s1, id);
      hide Requeue, AwaitWake, Inv;
    }
  }

  lemma ReleaseFits(s: State, id: string)
    requires Inv(s)
    ensures AddsFit(s, Release(s, id).0)
  {
    if Release(s, id).1 == OK {
      assert RequestOk(s, id);
      RequeueFits(s.(releases := s.releases + [id]), id);
      hide Requeue, Inv;
    }
  }

  lemma ExpireFits(s: State, id: string)
    requires Inv(s)
    ensures AddsFit(s, ExpireRequest(s, id).0)
  {
    if id in s.requests { assert RequestOk(s, id); }
  }

  lemma StepFits(s: State, op: Op)
    requires Inv(s) && Enabled(s, op)
    ensures AddsFit(s, Apply(s, op))
  {
    hide Inv, Fits;
    match op
    case OpCreate(body, now) => CreateFits(s, body, now);
    case OpClaim(id, worker) => ClaimFits(s, id, worker);
    case OpRelease(id) => ReleaseFits(s, id);
    case OpFollowup(id, now) => FollowupFits(s, id, now);
    case OpExpire(id) => ExpireFits(s, id);
    case _ => QuietStep(s, op);
  }

  lemma ClaimFits(s: State, id: string, worker: string)
    ensures AddsFit(s, Claim(s, id, worker).0)
  {
  }

  lemma QuietStep(s: State, op: Op)
    requires Enabled(s, op)
    requires op.OpArchive? || op.OpDelete? || op.OpConnect? || op.OpDisconnect? || op.OpRegisterPool? || op.OpList?
    ensures Apply(s, op).events == s.events
  {
  }

  lemma FitMore(s: State, s': State, from: nat)
    requires AddsFit(s, s') && from <= |s.events| && FitFrom(s.events, from)
    ensures FitFrom(s'.events, from)
  {
    forall i | from <= i < |s'.events| ensures Fits(s'.events[i]) {
      if i < |s.events| { assert s'.events[i] == s.events[i]; }
    }
  }

  lemma {:induction false} RunFits(s: State, ops: seq<Op>, from: nat)
    requires Inv(s) && Legal(s, ops) && from <= |s.events| && FitFrom(s.events, from)
    ensures from <= |Run(s, ops).events| && FitFrom(Run(s, ops).events, from)
    decreases |ops|
  {
    if ops != [] {
      InvStep(s, ops[0]);
      StepFits(s, ops[0]);
      FitMore(s, Apply(s, ops[0]), from);
      hide Inv, FitFrom;
      RunFits(Apply(s, ops[0]), ops[1..], from);
    }
  }

  /** While the stream runs, what the server adds fits and the frames are numbered from 0. */
  lemma {:induction false} StreamFits(sys: Sys, actions: seq<Action>, start: int, pool: string, from: nat)
    requires StreamInv(sys, start, pool) && CanRun(sys, actions, pool)
    requires from <= |sys.server.events| && FitFrom(sys.server.events, from) && NumbersOk(sys.loop.out)
    ensures var events := RunStream(sys, actions, pool).server.events; from <= |events| && FitFrom(events, from)
    ensures NumbersOk(RunStream(sys, actions, pool).loop.out)
    decreases |actions|
  {
    if actions != [] {
      var next := Act(sys, actions[0], pool);
      ActKeeps(sys, actions[0], start, pool);
      ActFits(sys, actions[0], start, pool, from);
      hide StreamInv, FitFrom, NumbersOk;
      StreamFits(next, actions[1..], start, pool, from);
    }
  }

  lemma ActFits(sys: Sys, a: Action, start: int, pool: string, from: nat)
    requires StreamInv(sys, start, pool) && CanAct(sys, a)
    requires from <= |sys.server.events| && FitFrom(sys.server.events, from) && NumbersOk(sys.loop.out)
    ensures var t := Act(sys, a, pool);
      from <= |t.server.events| && FitFrom(t.server.events, from) && NumbersOk(t.loop.out)
  {
    var t := Act(sys, a, pool);
    if a.Serve? {
      StepFits(sys.server, a.op);
      FitMore(sys.server, t.server, from);
    } else if a.WriteNext? {
      var e := sys.loop.pc.queue[0];
      assert e.num >= 0 by { assert Numbered(sys.server) && e == sys.server.events[sys.loop.after]; }
      assert t.loop.out == sys.loop.out || t.loop.out == sys.loop.out + [EventFrame(e)];
    }
    hide Inv, Apply, FitFrom;
  }

  // ---- names and payloads ------------------------------------------------------------------

  /** The parsed event of an event frame leads where the event does; a heartbeat leads nowhere. */
  lemma TextRoutesAlike(pools: seq<string>, recent: set<string>, f: Frame, encode: Payload -> string, d: Decoders)
    requires Inverse(d, encode) && NumOf(f) >= 0
    ensures match f
      case EventFrame(e) =>
        Fits(e) ==> HandleText(pools, recent, FrameEvent(f, encode), d) == HandleEvent(pools, recent, e)
      case HeartbeatFrame(_) => HandleText(pools, recent, FrameEvent(f, encode), d) == Nothing
  {
    hide Decimal;
  }

  lemma {:induction false} FrameIsParsed(out: seq<Frame>, encode: Payload -> string, e: Event)
    requires NumbersOk(out) && e in EventsOf(out)
    ensures EventFrame(e) in out && e.num >= 0
  {
    if out[|out| - 1] != EventFrame(e) {
      FrameIsParsed(out[..|out| - 1], encode, e);
    } else {
      assert NumOf(out[|out| - 1]) >= 0;
    }
  }

  lemma {:induction false} EventIsParsed(out: seq<Frame>, encode: Payload -> string, f: Frame)
    requires NumbersOk(out) && f in out
    ensures FrameEvent(f, encode) in FrameEvents(out, encode)
  {
    if out[0] != f { EventIsParsed(out[1..], encode, f); }
  }

  /** Which recent claims there are does not matter to an announcement. */
  lemma RecentDoesNotMatter(pools: seq<string>, one: set<string>, other: set<string>, e: Event)
    requires HandleEvent(pools, one, e).WakeFor? || HandleEvent(pools, one, e).ClaimFor?
    ensures HandleEvent(pools, other, e) == HandleEvent(pools, one, e)
  {
  }

  /** Some listed request, or some event parsed from the bytes, is routed to `id`'s handler. */
  ghost predicate ReachedByText(pools: seq<string>, recent: Sse.SseEvent -> set<string>, listing: seq<PendingRequest>,
                                bytes: string, d: Decoders, id: string, worker: string) {
    || (exists v :: v in listing && Handles(HandleListed(pools, v), id, worker))
    || (exists e :: e in Sse.Parse(bytes) && Handles(HandleText(pools, recent(e), e, d), id, worker))
  }

  /** End to end, from the server's state through the bytes to the controller's handlers: list,
      open the stream at the listing's cursor, let everything interleave. Whenever the stream is
      drained, each request of a served pool that is pending or awaits a wake was listed, or is
      announced by an event parsed from the bytes written, and routed to the handler that fits. */
  lemma ServedFromTheBytes(
      listed: State, before: seq<Op>, actions: seq<Action>, pools: seq<string>, recent: Sse.SseEvent -> set<string>,
      encode: Payload -> string, d: Decoders, id: string)
    requires Inv(listed) && Legal(listed, before) && OneLine(encode) && Inverse(d, encode)
    requires CanRun(Opened(Run(listed, before), listed.lastSeq), actions, WatchPool(pools))
    requires var end := RunStream(Opened(Run(listed, before), listed.lastSeq), actions, WatchPool(pools));
      && end.loop.pc.Asleep? && !Stream.CanAct(end, Wake)
      && id in end.server.requests && end.server.requests[id].IsPending()
      && Serves(pools, end.server.requests[id].View(0).Pool())
    ensures OrderKnown(listed)
    ensures var end := RunStream(Opened(Run(listed, before), listed.lastSeq), actions, WatchPool(pools));
      NumbersOk(end.loop.out) && ReachedByText(pools, recent, Listed(listed, listed.order, WatchPool(pools)),
        ": connected\n\n" + FramesText(end.loop.out, encode), d, id, end.server.requests[id].claimedWorkerId)
  {
    hide Inv, CanRun, RunStream, Legal, Run, Listed, Reached, StreamInv, FitFrom, NumbersOk, FramesText, Sse.Parse,
      Inverse, OneLine;
    var pool := WatchPool(pools);
    var s := Run(listed, before);
    var sys := Opened(s, listed.lastSeq);
    InvKeys(listed);
    OpensFitting(listed, before, pool);
    StreamFits(sys, actions, listed.lastSeq, pool, listed.lastSeq);
    var end := RunStream(sys, actions, pool);
    DeliveredExactly(sys, actions, listed.lastSeq, pool);
    EverythingServedIsHandled(listed, before, actions, pools, _ => {}, id);
    ClientReads(end.loop.out, encode);
    HeardFromText(end, listed.lastSeq, pool, pools, recent, Listed(listed, listed.order, pool), encode, d, id,
      end.server.requests[id].claimedWorkerId);
  }

  lemma OpensFitting(listed: State, before: seq<Op>, pool: string)
    requires Inv(listed) && Legal(listed, before)
    ensures var s := Run(listed, before);
      && 0 <= listed.lastSeq <= |s.events| && FitFrom(s.events, listed.lastSeq)
      && StreamInv(Opened(s, listed.lastSeq), listed.lastSeq, pool) && NumbersOk([])
  {
    LastNumber(listed);
    InvHoldsAlways(listed, before);
    RunFits(listed, before, |listed.events|);
    var s := Run(listed, before);
    assert s.events[listed.lastSeq..listed.lastSeq] == [];
  }

  lemma HeardFromText(
      end: Sys, start: nat, pool: string, pools: seq<string>, recent: Sse.SseEvent -> set<string>,
      listing: seq<PendingRequest>, encode: Payload -> string, d: Decoders, id: string, worker: string)
    requires StreamInv(end, start, pool) && start <= |end.server.events| && FitFrom(end.server.events, start)
    requires NumbersOk(end.loop.out) && Inverse(d, encode)
    requires Sse.Parse(": connected\n\n" + FramesText(end.loop.out, encode)) == FrameEvents(end.loop.out, encode)
    requires Reached(pools, _ => {}, listing, EventsOf(end.loop.out), id, worker)
    ensures ReachedByText(pools, recent, listing, ": connected\n\n" + FramesText(end.loop.out, encode), d, id, worker)
  {
    hide Sse.Parse, FramesText, FrameEvents, HandleText, HandleEvent, HandleListed, NumbersOk, FitFrom, Inverse, Fits,
      FrameEvent, EventsOf;
    if !exists v :: v in listing && Handles(HandleListed(pools, v), id, worker) {
      var e :| e in EventsOf(end.loop.out) && Handles(HandleEvent(pools, {}, e), id, worker);
      DeliveredFits(end, start, pool, e);
      FrameIsParsed(end.loop.out, encode, e);
      EventIsParsed(end.loop.out, encode, EventFrame(e));
      var t := FrameEvent(EventFrame(e), encode);
      RecentDoesNotMatter(pools, {}, recent(t), e);
      TextRoutesAlike(pools, recent(t), EventFrame(e), encode, d);
    }
  }

  lemma DeliveredFits(end: Sys, start: nat, pool: string, e: Event)
    requires StreamInv(end, start, pool) && start <= |end.server.events| && FitFrom(end.server.events, start)
    requires e in EventsOf(end.loop.out)
    ensures Fits(e)
  {
    hide Fits, EventsOf;
    var some := end.server.events[start..end.loop.after];
    MatchingFrom(some, pool, e);
    var i :| 0 <= i < |some| && some[i] == e;
    assert end.server.events[start + i] == e;
  }

  lemma {:induction false} MatchingFrom(events: seq<Event>, pool: string, e: Event)
    requires e in Matching(events, pool)
    ensures e in events
  {
    if e in Matching(events[..|events| - 1], pool) { MatchingFrom(events[..|events| - 1], pool, e); }
  }
}
