/** Reading a text/event-stream body (internal/cursorapi/sse.go), and the text a
    server prints for it (internal/fakeapi/server.go, stream). Field rules follow
    sections 9.2.5 and 9.2.6 of the WHATWG HTML Living Standard, except that this
    reader also dispatches at end of input, dispatches an event without data, and
    ends lines only at LF. */
module Sse {
  import opened Common

  datatype SseEvent = SseEvent(typ: string, id: string, data: string)

  // ---- lines -------------------------------------------------------------------

  function IndexOf(t: string, c: char): (i: nat)
    ensures i <= |t|
    ensures i < |t| ==> t[i] == c
    ensures forall j :: 0 <= j < i ==> t[j] != c
  {
    if t == [] || t[0] == c then 0 else 1 + IndexOf(t[1..], c)
  }

  function DropCR(s: string): string {
    if s != [] && s[|s| - 1] == '\r' then s[..|s| - 1] else s
  }

  /** `bufio.ScanLines`: lines end at LF, lose one trailing CR, and a last
      unterminated line counts when it is not empty. */
  function ScanLines(t: string): seq<string> {
    if t == [] then [] else
    var i := IndexOf(t, '\n');
    if i < |t| then [DropCR(t[..i])] + ScanLines(t[i + 1..]) else [DropCR(t)]
  }

  // ---- fields ------------------------------------------------------------------

  datatype Field = Blank | Ignored | TypeField(value: string) | IdField(value: string) | DataField(value: string)

  function TrimSpace(s: string): string {
    if s != [] && s[0] == ' ' then s[1..] else s
  }

  /** What one scanned line means. A second CR goes here, and an unknown field
      (retry among them) means nothing. */
  function Classify(scanned: string): Field {
    var line := DropCR(scanned);
    var i := IndexOf(line, ':');
    var name := line[..i];
    var value := TrimSpace(if i < |line| then line[i + 1..] else "");
    if line == "" then Blank
    else if i == 0 then Ignored
    else if name == "event" then TypeField(value)
    else if name == "id" then IdField(value)
    else if name == "data" then DataField(value)
    else Ignored
  }

  function Fields(t: string): seq<Field> { ClassifyAll(ScanLines(t)) }

  function ClassifyAll(lines: seq<string>): (r: seq<Field>)
    ensures |r| == |lines|
    ensures forall i :: 0 <= i < |lines| ==> r[i] == Classify(lines[i])
  {
    if lines == [] then [] else [Classify(lines[0])] + ClassifyAll(lines[1..])
  }

  // ---- the reference: events are blocks between blank lines -----------------------

  function LastType(block: seq<Field>): string {
    if block == [] then ""
    else if block[|block| - 1].TypeField? then block[|block| - 1].value
    else LastType(block[..|block| - 1])
  }

  function LastId(block: seq<Field>): string {
    if block == [] then ""
    else if block[|block| - 1].IdField? then block[|block| - 1].value
    else LastId(block[..|block| - 1])
  }

  function DataLines(block: seq<Field>): seq<string> {
    if block == [] then [] else
    DataLines(block[..|block| - 1]) + if block[|block| - 1].DataField? then [block[|block| - 1].value] else []
  }

  /** The block holds a type, id or data field. */
  predicate HasField(block: seq<Field>) {
    block != [] && (HasField(block[..|block| - 1]) || !(block[|block| - 1].Blank? || block[|block| - 1].Ignored?))
  }

  /** `strings.Join(lines, "\n")`. */
  function Join(lines: seq<string>): string {
    if lines == [] then "" else if |lines| == 1 then lines[0] else lines[0] + "\n" + Join(lines[1..])
  }

  function EventOf(block: seq<Field>): SseEvent {
    SseEvent(LastType(block), LastId(block), Join(DataLines(block)))
  }

  function Flushed(block: seq<Field>): seq<SseEvent> {
    if HasField(block) then [EventOf(block)] else []
  }

  function FirstBlank(fields: seq<Field>): (i: nat)
    ensures i <= |fields|
    ensures i < |fields| ==> fields[i].Blank?
    ensures forall j :: 0 <= j < i ==> !fields[j].Blank?
  {
    if fields == [] || fields[0].Blank? then 0 else 1 + FirstBlank(fields[1..])
  }

  /** Cut at blank lines; each block with a field is one event. */
  function Dispatch(fields: seq<Field>): seq<SseEvent>
    decreases |fields|
  {
    var i := FirstBlank(fields);
    Flushed(fields[..i]) + if i < |fields| then Dispatch(fields[i + 1..]) else []
  }

  function Parse(t: string): seq<SseEvent> { Dispatch(Fields(t)) }

  /** The events a callback sees: all of them, up to the first it rejects. */
  function Consumed(events: seq<SseEvent>, accepts: SseEvent -> bool): seq<SseEvent> {
    if events == [] then []
    else if accepts(events[0]) then [events[0]] + Consumed(events[1..], accepts)
    else [events[0]]
  }

  predicate AllAccepted(events: seq<SseEvent>, accepts: SseEvent -> bool) {
    forall i :: 0 <= i < |events| ==> accepts(events[i])
  }

  // ---- the reader ------------------------------------------------------------------

  /** The loop's variables, and what they hold after reading a block. */
  datatype Pending = Pending(typ: string, id: string, data: seq<string>, dirty: bool)

  function PendingOf(block: seq<Field>): Pending {
    Pending(LastType(block), LastId(block), DataLines(block), HasField(block))
  }

  const NothingPending := Pending("", "", [], false)

  /** One line that is not blank, as the loop's switch reads it. */
  function ReadLine(p: Pending, line: string): Pending {
    var cut := IndexOf(line, ':');
    var value := TrimSpace(if cut < |line| then line[cut + 1..] else "");
    if cut == 0 then p
    else if line[..cut] == "event" then p.(typ := value, dirty := true)
    else if line[..cut] == "id" then p.(id := value, dirty := true)
    else if line[..cut] == "data" then p.(data := p.data + [value], dirty := true)
    else p
  }

  lemma ReadLineExtends(block: seq<Field>, scanned: string)
    requires DropCR(scanned) != ""
    ensures PendingOf(block + [Classify(scanned)]) == ReadLine(PendingOf(block), DropCR(scanned))
  {
    var b := block + [Classify(scanned)];
    assert b[..|b| - 1] == block && b[|b| - 1] == Classify(scanned);
  }

  /** The loop's switch on one line that is not blank. */
  method TakeLine(pending: Pending, line: string) returns (ev: Pending)
    requires line != ""
    ensures ev == ReadLine(pending, line)
  {
    ev := pending;
    if line[0] != ':' {
      var cut := IndexOf(line, ':');
      var value := TrimSpace(if cut < |line| then line[cut + 1..] else "");
      if line[..cut] == "event" {
        ev := ev.(typ := value, dirty := true);
      } else if line[..cut] == "id" {
        ev := ev.(id := value, dirty := true);
      } else if line[..cut] == "data" {
        ev := ev.(data := ev.data + [value], dirty := true);
      }
    }
  }

  /** The scan loop: a pending event, its data lines so far and a dirty flag.
      It reports exactly the reference's events, stopping at the first one the
      callback rejects. */
  method ParseSSE(body: string, accepts: SseEvent -> bool) returns (seen: seq<SseEvent>, ok: bool)
    ensures seen == Consumed(Parse(body), accepts)
    ensures ok == AllAccepted(Parse(body), accepts)
  {
    var lines := ScanLines(body);
    var ev := NothingPending;
    seen := [];
    ghost var all := Parse(body);
    ghost var fields := Fields(body);
    ghost var block := [];
    assert Progress(all, [], [], fields[0..], accepts) by {
      assert [] + fields[0..] == fields;
      assert [] + Consumed(all, accepts) == Consumed(all, accepts);
    }
    NothingInEmpty();
    hide PendingOf, Dispatch, Consumed, AllAccepted, ScanLines, Classify, HasNoBlank, Progress, Parse, ReadLine;
    for i := 0 to |lines|
      invariant HasNoBlank(block) && ev == PendingOf(block)
      invariant Progress(all, seen, block, fields[i..], accepts)
    {
      var line := DropCR(lines[i]);
      NextField(lines, i);
      if line == "" {
        FlushAtBlank(all, seen, block, fields[i + 1..], ev, accepts);
        NothingInEmpty();
        if ev.dirty {
          var event := SseEvent(ev.typ, ev.id, Join(ev.data));
          seen := seen + [event];
          if !accepts(event) {
            return seen, false;
          }
        }
        ev, block := NothingPending, [];
      } else {
        KeepField(all, seen, block, fields[i + 1..], lines[i], accepts);
        block := block + [Classify(lines[i])];
        ev := TakeLine(ev, line);
      }
    }
    NoMoreFields(lines);
    FlushAtEnd(all, seen, block, ev, accepts);
    if ev.dirty {
      var event := SseEvent(ev.typ, ev.id, Join(ev.data));
      seen := seen + [event];
      return seen, accepts(event);
    }
    ok := true;
  }

  /** What is still to come, added to what the callback saw, is the whole. */
  ghost predicate Progress(all: seq<SseEvent>, seen: seq<SseEvent>, block: seq<Field>, rest: seq<Field>,
      accepts: SseEvent -> bool) {
    && Consumed(all, accepts) == seen + Consumed(Dispatch(block + rest), accepts)
    && AllAccepted(all, accepts) == AllAccepted(Dispatch(block + rest), accepts)
  }

  lemma NextField(lines: seq<string>, i: nat)
    requires i < |lines|
    ensures ClassifyAll(lines)[i..] == [Classify(lines[i])] + ClassifyAll(lines)[i + 1..]
    ensures Classify(lines[i]).Blank? <==> DropCR(lines[i]) == ""
  {
    BlankLines(lines[i]);
    hide Classify, ClassifyAll, DropCR;
    Headed(ClassifyAll(lines), i);
  }

  lemma Headed<T>(s: seq<T>, i: nat)
    requires i < |s|
    ensures s[i..] == [s[i]] + s[i + 1..]
  {
  }

  lemma BlankLines(line: string)
    ensures Classify(line).Blank? <==> DropCR(line) == ""
  {
  }

  lemma NoMoreFields(lines: seq<string>)
    ensures ClassifyAll(lines)[|lines|..] == []
  {
  }

  predicate HasNoBlank(block: seq<Field>) { forall j :: 0 <= j < |block| ==> !block[j].Blank? }

  lemma KeepField(all: seq<SseEvent>, seen: seq<SseEvent>, block: seq<Field>, rest: seq<Field>, scanned: string,
      accepts: SseEvent -> bool)
    requires HasNoBlank(block) && DropCR(scanned) != ""
    requires Progress(all, seen, block, [Classify(scanned)] + rest, accepts)
    ensures HasNoBlank(block + [Classify(scanned)])
    ensures PendingOf(block + [Classify(scanned)]) == ReadLine(PendingOf(block), DropCR(scanned))
    ensures Progress(all, seen, block + [Classify(scanned)], rest, accepts)
  {
    hide Classify, Dispatch, Consumed, AllAccepted, PendingOf, ReadLine, DropCR;
    ReadLineExtends(block, scanned);
    BlankLines(scanned);
    assert block + ([Classify(scanned)] + rest) == block + [Classify(scanned)] + rest;
  }

  lemma NothingInEmpty()
    ensures PendingOf([]) == NothingPending && HasNoBlank([])
  {
  }

  lemma DispatchSplit(block: seq<Field>, rest: seq<Field>)
    requires HasNoBlank(block)
    ensures Dispatch(block + [Blank] + rest) == Flushed(block) + Dispatch(rest)
    ensures Dispatch(block) == Flushed(block)
  {
    var all := block + [Blank] + rest;
    assert all[|block|] == Blank && forall j :: 0 <= j < |block| ==> all[j] == block[j];
    assert FirstBlank(all) == |block| && all[..|block|] == block && all[|block| + 1..] == rest;
    assert FirstBlank(block) == |block| && block[..|block|] == block;
  }

  lemma FlushAtBlank(all: seq<SseEvent>, seen: seq<SseEvent>, block: seq<Field>, rest: seq<Field>, ev: Pending,
      accepts: SseEvent -> bool)
    requires HasNoBlank(block) && ev == PendingOf(block) && Progress(all, seen, block, [Blank] + rest, accepts)
    ensures !ev.dirty ==> ev == NothingPending && Progress(all, seen, [], rest, accepts)
    ensures ev.dirty ==>
      var event := SseEvent(ev.typ, ev.id, Join(ev.data));
      if accepts(event) then Progress(all, seen + [event], [], rest, accepts)
      else Consumed(all, accepts) == seen + [event] && !AllAccepted(all, accepts)
  {
    hide Consumed, AllAccepted, Dispatch, Join;
    DispatchSplit(block, rest);
    assert block + ([Blank] + rest) == block + [Blank] + rest && [] + rest == rest;
    if ev.dirty {
      ConsumedCons(EventOf(block), Dispatch(rest), accepts);
      assert seen + ([EventOf(block)] + Consumed(Dispatch(rest), accepts))
        == seen + [EventOf(block)] + Consumed(Dispatch(rest), accepts);
    } else {
      NothingWithoutField(block);
      assert [] + Dispatch(rest) == Dispatch(rest);
    }
  }

  lemma FlushAtEnd(all: seq<SseEvent>, seen: seq<SseEvent>, block: seq<Field>, ev: Pending, accepts: SseEvent -> bool)
    requires HasNoBlank(block) && ev == PendingOf(block) && Progress(all, seen, block, [], accepts)
    ensures !ev.dirty ==> Consumed(all, accepts) == seen && AllAccepted(all, accepts)
    ensures ev.dirty ==>
      var event := SseEvent(ev.typ, ev.id, Join(ev.data));
      Consumed(all, accepts) == seen + [event] && AllAccepted(all, accepts) == accepts(event)
  {
    DispatchSplit(block, []);
    assert block + [] == block;
    if ev.dirty {
      ConsumedCons(EventOf(block), [], accepts);
      assert [EventOf(block)] + [] == [EventOf(block)];
    }
  }

  lemma ConsumedCons(event: SseEvent, rest: seq<SseEvent>, accepts: SseEvent -> bool)
    ensures Consumed([event] + rest, accepts) == [event] + if accepts(event) then Consumed(rest, accepts) else []
    ensures AllAccepted([event] + rest, accepts) == (accepts(event) && AllAccepted(rest, accepts))
  {
  }

  lemma {:induction false} NothingWithoutField(block: seq<Field>)
    requires !HasField(block)
    ensures PendingOf(block) == NothingPending
  {
    if block != [] {
      NothingWithoutField(block[..|block| - 1]);
    }
  }
}
