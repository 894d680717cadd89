/** The bytes of the event stream, and what the client's reader makes of them
    (internal/fakeapi/server.go stream, internal/cursorapi/sse.go). */
module StreamText {
  import opened Common
  import opened Fleet
  import opened Stream
  import Sse
  import SseRoundTrip

  function TypeText(t: EventType): string {
    match t
    case Created => "created"
    case ClaimedEvent => "claimed"
    case ClaimedOffline => "claimed_offline"
    case ExpiredEvent => "expired"
  }

  function NumOf(f: Frame): int { if f.HeartbeatFrame? then f.num else f.event.num }

  /** The client-side event a frame stands for; `encode` is the JSON encoder. */
  function FrameEvent(f: Frame, encode: Payload -> string): Sse.SseEvent
    requires NumOf(f) >= 0
  {
    match f
    case EventFrame(e) => Sse.SseEvent(TypeText(e.typ), CursorText(e.num), encode(e.data))
    case HeartbeatFrame(n) => Sse.SseEvent("heartbeat", CursorText(n), "{}")
  }

  /** `fmt.Fprintf(w, "event: %s\nid: c%d\ndata: %s\n\n", ...)`. */
  function FrameText(e: Sse.SseEvent): string {
    "event: " + e.typ + "\n" + ("id: " + e.id + "\n" + ("data: " + e.data + "\n" + "\n"))
  }

  predicate NumbersOk(out: seq<Frame>) { forall i :: 0 <= i < |out| ==> NumOf(out[i]) >= 0 }

  function FrameEvents(out: seq<Frame>, encode: Payload -> string): seq<Sse.SseEvent>
    requires NumbersOk(out)
  {
    if out == [] then [] else [FrameEvent(out[0], encode)] + FrameEvents(out[1..], encode)
  }

  function FramesText(out: seq<Frame>, encode: Payload -> string): string
    requires NumbersOk(out)
  {
    if out == [] then "" else FrameText(FrameEvent(out[0], encode)) + FramesText(out[1..], encode)
  }

  /** The names of the API's events, and the fields of its frames, as the documentation has them. */
  lemma WireFrame(f: Frame, encode: Payload -> string)
    requires NumOf(f) >= 0
    ensures var e := FrameEvent(f, encode);
      match f
      case HeartbeatFrame(n) => e == Sse.SseEvent("heartbeat", "c" + Decimal(n), "{}")
      case EventFrame(v) => e.id == "c" + Decimal(v.num) && e.data == encode(v.data) && match v.typ
        case Created => e.typ == "created"
        case ClaimedEvent => e.typ == "claimed"
        case ClaimedOffline => e.typ == "claimed_offline"
        case ExpiredEvent => e.typ == "expired"
  {
  }

  /** `json.Marshal` writes one line and never ends it in CR. */
  ghost predicate OneLine(encode: Payload -> string) {
    forall p :: SseRoundTrip.NoLF(encode(p)) && SseRoundTrip.NoCR(encode(p))
  }

  lemma DigitsAreClean(s: string)
    requires AllDigits(s) && s != ""
    ensures SseRoundTrip.NoLF("c" + s) && SseRoundTrip.NoCR("c" + s)
  {
  }

  lemma OneLineData(e: Sse.SseEvent)
    requires SseRoundTrip.NoLF(e.data)
    ensures SseRoundTrip.Split(e.data) == [e.data] && FrameText(e) == SseRoundTrip.PrintEvent(e)
  {
    assert Sse.IndexOf(e.data, '\n') == |e.data|;
    var lines := [e.data];
    assert SseRoundTrip.DataText(lines) == "data: " + e.data + "\n" + SseRoundTrip.DataText([]);
  }

  lemma NamesAreClean(f: Frame, encode: Payload -> string)
    requires OneLine(encode) && NumOf(f) >= 0
    ensures var e := FrameEvent(f, encode);
      SseRoundTrip.NoLF(e.typ) && SseRoundTrip.NoCR(e.typ) && SseRoundTrip.NoLF(e.data) && SseRoundTrip.NoCR(e.data)
  {
    hide Decimal;
    match f
    case HeartbeatFrame(_) =>
    case EventFrame(e) => TypeIsClean(e.typ);
  }

  lemma TypeIsClean(t: EventType)
    ensures SseRoundTrip.NoLF(TypeText(t)) && SseRoundTrip.NoCR(TypeText(t))
  {
  }

  lemma FramePrintable(f: Frame, encode: Payload -> string)
    requires OneLine(encode) && NumOf(f) >= 0
    ensures var e := FrameEvent(f, encode); SseRoundTrip.Printable(e) && FrameText(e) == SseRoundTrip.PrintEvent(e)
  {
    DigitsAreClean(Decimal(NumOf(f)));
    NamesAreClean(f, encode);
    hide Decimal, SseRoundTrip.Split, FrameText, SseRoundTrip.PrintEvent, SseRoundTrip.NoLF, SseRoundTrip.NoCR,
      TypeText;
    OneLineData(FrameEvent(f, encode));
  }

  lemma {:induction false} FramesPrinted(out: seq<Frame>, encode: Payload -> string)
    requires OneLine(encode) && NumbersOk(out)
    ensures FramesText(out, encode) == SseRoundTrip.PrintAll(FrameEvents(out, encode))
    ensures SseRoundTrip.AllPrintable(FrameEvents(out, encode))
  {
    if out != [] {
      FramePrintable(out[0], encode);
      FramesPrinted(out[1..], encode);
    }
  }

  lemma BlankIsNothing(text: string)
    ensures Sse.Parse("\n" + text) == Sse.Parse(text)
  {
    SseRoundTrip.BlankText();
    Sse.DispatchSplit([], []);
    assert [] + [Sse.Blank] + [] == [Sse.Blank];
    assert SseRoundTrip.EndsBlank("\n") && Sse.Parse("\n") == [];
    hide Sse.Parse, SseRoundTrip.EndsBlank;
    SseRoundTrip.ParseConcat("\n", text);
  }

  lemma CommentIsNothing(text: string)
    ensures Sse.Parse(": connected" + "\n" + text) == Sse.Parse(text)
  {
    var line := ": connected";
    assert Sse.Classify(Sse.DropCR(line)).Ignored? && SseRoundTrip.NoLF(line) && SseRoundTrip.WholeLines("");
    hide Sse.Parse, Sse.Classify, SseRoundTrip.NoLF;
    SseRoundTrip.InsertedLineChangesNothing("", line, text);
    assert "" + line == line && "" + text == text;
  }

  /** The handler's opening comment is no event. */
  lemma PreambleIsNothing(text: string)
    ensures Sse.Parse(": connected\n\n" + text) == Sse.Parse(text)
  {
    hide Sse.Parse;
    CommentIsNothing("\n" + text);
    BlankIsNothing(text);
    assert ": connected\n\n" == ": connected" + "\n" + "\n";
    SseRoundTrip.ConcatAssoc(": connected" + "\n", "\n", text);
  }

  /** The reader and the writer agree on every byte: parsing what the handler
      wrote, opening comment included, yields its frames, one event each. */
  lemma ClientReads(out: seq<Frame>, encode: Payload -> string)
    requires OneLine(encode) && NumbersOk(out)
    ensures Sse.Parse(": connected\n\n" + FramesText(out, encode)) == FrameEvents(out, encode)
  {
    FramesPrinted(out, encode);
    SseRoundTrip.RoundTrip(FrameEvents(out, encode));
    PreambleIsNothing(FramesText(out, encode));
  }
}
