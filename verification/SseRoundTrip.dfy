/** Printing and parsing event streams: composition, lines that change nothing,
    and exactly which events survive the round trip. */
module SseRoundTrip {
  import opened Common
  import opened Sse

  // ---- text is read line by line ---------------------------------------------------

  predicate NoLF(s: string) { forall i :: 0 <= i < |s| ==> s[i] != '\n' }

  /** Nothing, or a text whose last line is complete. */
  predicate WholeLines(t: string) { t == "" || t[|t| - 1] == '\n' }

  lemma ScanOneLine(line: string, rest: string)
    requires NoLF(line)
    ensures ScanLines(line + "\n" + rest) == [DropCR(line)] + ScanLines(rest)
  {
    var t := line + "\n" + rest;
    assert t[|line|] == '\n';
    assert forall j :: 0 <= j < |line| ==> t[j] == line[j];
    assert IndexOf(t, '\n') == |line|;
    assert t[..|line|] == line && t[|line| + 1..] == rest;
  }

  lemma ConcatAssoc<T>(a: seq<T>, b: seq<T>, c: seq<T>)
    ensures a + b + c == a + (b + c)
  {
  }

  lemma {:induction false} ScanConcat(a: string, b: string)
    requires WholeLines(a)
    ensures ScanLines(a + b) == ScanLines(a) + ScanLines(b)
    decreases |a|
  {
    if a == "" {
      assert a + b == b;
    } else {
      var i := IndexOf(a, '\n');
      var line, rest := a[..i], a[i + 1..];
      assert NoLF(line) && WholeLines(rest);
      hide ScanLines, WholeLines, NoLF, IndexOf;
      assert a == line + "\n" + rest;
      assert a + b == line + "\n" + (rest + b);
      ScanOneLine(line, rest);
      ScanOneLine(line, rest + b);
      ScanConcat(rest, b);
      ConcatAssoc([DropCR(line)], ScanLines(rest), ScanLines(b));
    }
  }

  lemma {:induction false} ClassifyConcat(a: seq<string>, b: seq<string>)
    ensures ClassifyAll(a + b) == ClassifyAll(a) + ClassifyAll(b)
  {
  }

  lemma FieldsConcat(a: string, b: string)
    requires WholeLines(a)
    ensures Fields(a + b) == Fields(a) + Fields(b)
  {
    ScanConcat(a, b);
    ClassifyConcat(ScanLines(a), ScanLines(b));
  }

  lemma FieldsOfLine(line: string, rest: string)
    requires NoLF(line)
    ensures Fields(line + "\n" + rest) == [Classify(DropCR(line))] + Fields(rest)
  {
    ScanOneLine(line, rest);
    ClassifyConcat([DropCR(line)], ScanLines(rest));
  }

  // ---- composition --------------------------------------------------------------------

  lemma LastOfRest<T>(a: seq<T>, i: nat)
    requires i < |a|
    ensures a[i + 1..] == [] || a[i + 1..][|a[i + 1..]| - 1] == a[|a| - 1]
  {
  }

  lemma Regrouped<T>(block: seq<T>, y: seq<T>, rest: seq<T>, b: seq<T>)
    ensures (block + y + rest) + b == block + y + (rest + b)
  {
  }

  lemma {:induction false} DispatchConcat(a: seq<Field>, b: seq<Field>)
    requires a == [] || a[|a| - 1].Blank?
    ensures Dispatch(a + b) == Dispatch(a) + Dispatch(b)
    decreases |a|
  {
    if a == [] {
      assert a + b == b;
    } else {
      var i := FirstBlank(a);
      hide Dispatch, FirstBlank;
      var block, rest := a[..i], a[i + 1..];
      CutAt(a, i);
      LastOfRest(a, i);
      DispatchConcat(rest, b);
      BlockConcat(block, rest, b);
    }
  }

  lemma BlockConcat(block: seq<Field>, rest: seq<Field>, b: seq<Field>)
    requires HasNoBlank(block) && Dispatch(rest + b) == Dispatch(rest) + Dispatch(b)
    ensures Dispatch(block + [Blank] + rest + b) == Dispatch(block + [Blank] + rest) + Dispatch(b)
  {
    hide Dispatch, Flushed, HasNoBlank;
    DispatchSplit(block, rest);
    DispatchSplit(block, rest + b);
    Regrouped(block, [Blank], rest, b);
    ConcatAssoc(Flushed(block), Dispatch(rest), Dispatch(b));
  }

  /** The text is empty or ends with a blank line. */
  predicate EndsBlank(t: string) {
    WholeLines(t) && (t == "" || (Fields(t) != [] && Fields(t)[|Fields(t)| - 1].Blank?))
  }

  /** Composition: after a blank line, the rest is parsed as if it stood alone. */
  lemma ParseConcat(a: string, b: string)
    requires EndsBlank(a)
    ensures Parse(a + b) == Parse(a) + Parse(b)
  {
    FieldsConcat(a, b);
    DispatchConcat(Fields(a), Fields(b));
  }

  // ---- lines that change nothing ---------------------------------------------------------

  lemma {:induction false} IgnoredInBlock(a: seq<Field>, b: seq<Field>)
    ensures PendingOf(a + [Ignored] + b) == PendingOf(a + b)
  {
    var with, without := a + [Ignored] + b, a + b;
    if b == [] {
      assert with[..|with| - 1] == a && without == a;
    } else {
      var front, last := b[..|b| - 1], b[|b| - 1];
      assert with[..|with| - 1] == a + [Ignored] + front && with[|with| - 1] == last;
      assert without[..|without| - 1] == a + front && without[|without| - 1] == last;
      IgnoredInBlock(a, front);
    }
  }

  lemma {:induction false} DispatchIgnores(a: seq<Field>, b: seq<Field>)
    ensures Dispatch(a + [Ignored] + b) == Dispatch(a + b)
    decreases |a|
  {
    var i := FirstBlank(a);
    if i < |a| {
      var block, rest := a[..i], a[i + 1..];
      assert a + [Ignored] + b == block + [Blank] + (rest + [Ignored] + b);
      assert a + b == block + [Blank] + (rest + b);
      DispatchSplit(block, rest + [Ignored] + b);
      DispatchSplit(block, rest + b);
      DispatchIgnores(rest, b);
    } else {
      IgnoredBeforeBlank(a, b);
    }
  }

  lemma CutAt(b: seq<Field>, j: nat)
    requires j < |b| && b[j].Blank?
    ensures b == b[..j] + [Blank] + b[j + 1..]
  {
  }

  lemma Regroup<T>(a: seq<T>, x: seq<T>, block: seq<T>, y: seq<T>, rest: seq<T>)
    ensures a + x + (block + y + rest) == a + x + block + y + rest
    ensures a + (block + y + rest) == a + block + y + rest
  {
  }

  lemma SameBlock(x: seq<Field>, y: seq<Field>, rest: seq<Field>)
    requires HasNoBlank(x) && HasNoBlank(y) && PendingOf(x) == PendingOf(y)
    ensures Dispatch(x + [Blank] + rest) == Dispatch(y + [Blank] + rest) && Dispatch(x) == Dispatch(y)
  {
    DispatchSplit(x, rest);
    DispatchSplit(y, rest);
  }

  lemma NoBlankInside(a: seq<Field>, block: seq<Field>)
    requires HasNoBlank(a) && forall j :: 0 <= j < |block| ==> !block[j].Blank?
    ensures HasNoBlank(a + block) && HasNoBlank(a + [Ignored] + block)
  {
  }

  lemma IgnoredBeforeBlank(a: seq<Field>, b: seq<Field>)
    requires HasNoBlank(a)
    ensures Dispatch(a + [Ignored] + b) == Dispatch(a + b)
  {
    var j := FirstBlank(b);
    var block := b[..j];
    IgnoredInBlock(a, block);
    NoBlankInside(a, block);
    hide Dispatch, PendingOf, FirstBlank, HasNoBlank;
    if j < |b| {
      CutAt(b, j);
      SameBlock(a + [Ignored] + block, a + block, b[j + 1..]);
      Regroup(a, [Ignored], block, [Blank], b[j + 1..]);
    } else {
      assert b[..j] == b;
      SameBlock(a + [Ignored] + block, a + block, []);
    }
  }

  /** A comment, a retry hint or a field nobody knows: inserted as a whole line
      anywhere between lines, it changes no event. */
  lemma InsertedLineChangesNothing(a: string, line: string, b: string)
    requires WholeLines(a) && NoLF(line) && Classify(DropCR(line)).Ignored?
    ensures Parse(a + line + "\n" + b) == Parse(a + b)
  {
    assert Classify(DropCR(line)) == Ignored;
    hide Classify, Fields, Dispatch, DropCR, WholeLines, NoLF;
    FieldsOfLine(line, b);
    FieldsConcat(a, line + "\n" + b);
    FieldsConcat(a, b);
    DispatchIgnores(Fields(a), Fields(b));
    ConcatAssoc(Fields(a), [Ignored], Fields(b));
    ConcatAssoc(a + line, "\n", b);
    ConcatAssoc(a, line, "\n" + b);
    ConcatAssoc(line, "\n", b);
  }

  /** Which lines those are: comments, and any field other than the three it reads. */
  lemma IgnoredLines(line: string)
    requires line != "" && line[|line| - 1] != '\r'
    ensures Classify(line).Ignored? <==>
      line[0] == ':' || line[..IndexOf(line, ':')] !in {"event", "id", "data"}
  {
  }

  /** In the text's own terms: a line that starts with a colon, or whose name is none of
      the three, inserted anywhere between lines, changes no event. */
  lemma CommentsAndUnknownFields(a: string, line: string, b: string)
    requires WholeLines(a) && NoLF(line) && line != "" && line[|line| - 1] != '\r'
    requires line[0] == ':' || line[..IndexOf(line, ':')] !in {"event", "id", "data"}
    ensures Parse(a + line + "\n" + b) == Parse(a + b)
  {
    IgnoredLines(line);
    assert DropCR(line) == line;
    hide Parse, Classify, WholeLines, NoLF, IndexOf;
    InsertedLineChangesNothing(a, line, b);
  }

  // ---- printing ------------------------------------------------------------------------------

  /** `strings.Split(s, "\n")`. */
  function Split(s: string): (lines: seq<string>)
    ensures |lines| > 0 && forall i :: 0 <= i < |lines| ==> NoLF(lines[i])
  {
    var i := IndexOf(s, '\n');
    if i < |s| then [s[..i]] + Split(s[i + 1..]) else [s]
  }

  function DataText(lines: seq<string>): string {
    if lines == [] then "" else "data: " + lines[0] + "\n" + DataText(lines[1..])
  }

  function PrintEvent(e: SseEvent): string {
    "event: " + e.typ + "\n" + ("id: " + e.id + "\n" + (DataText(Split(e.data)) + "\n"))
  }

  function PrintAll(events: seq<SseEvent>): string {
    if events == [] then "" else PrintEvent(events[0]) + PrintAll(events[1..])
  }

  /** What the reader makes of a value: the scanner and the loop each drop a CR. */
  function Strip(s: string): string { DropCR(DropCR(s)) }

  function StripAll(lines: seq<string>): (r: seq<string>)
    ensures |r| == |lines| && forall i :: 0 <= i < |lines| ==> r[i] == Strip(lines[i])
  {
    if lines == [] then [] else [Strip(lines[0])] + StripAll(lines[1..])
  }

  function StripEvent(e: SseEvent): SseEvent {
    SseEvent(Strip(e.typ), Strip(e.id), Join(StripAll(Split(e.data))))
  }

  lemma DropCRAppend(prefix: string, v: string)
    requires prefix != "" && prefix[|prefix| - 1] != '\r'
    ensures DropCR(prefix + v) == prefix + DropCR(v)
  {
  }

  lemma PrintedField(name: string, v: string)
    requires name in {"event", "id", "data"}
    ensures Classify(DropCR(name + ": " + v)) ==
      if name == "event" then TypeField(Strip(v)) else if name == "id" then IdField(Strip(v)) else DataField(Strip(v))
  {
    DropCRAppend(name + ": ", v);
    DropCRAppend(name + ": ", DropCR(v));
    NameAndValue(name, Strip(v));
    hide DropCR, IndexOf, TrimSpace;
  }

  lemma NameAndValue(name: string, v: string)
    requires forall j :: 0 <= j < |name| ==> name[j] != ':'
    ensures var line := name + ": " + v;
      IndexOf(line, ':') == |name| < |line| && line[..|name|] == name && TrimSpace(line[|name| + 1..]) == v
  {
    var line := name + ": " + v;
    assert line[|name|] == ':' && forall j :: 0 <= j < |name| ==> line[j] == name[j];
    hide IndexOf;
    assert line[|name| + 1..] == " " + v;
    assert (" " + v)[1..] == v;
  }

  // ---- one event, printed and read back ---------------------------------------------------------

  function DataFields(lines: seq<string>): seq<Field> {
    if lines == [] then [] else [DataField(Strip(lines[0]))] + DataFields(lines[1..])
  }

  predicate AllNoLF(lines: seq<string>) { forall i :: 0 <= i < |lines| ==> NoLF(lines[i]) }

  lemma {:induction false} FieldsOfData(lines: seq<string>, rest: string)
    requires AllNoLF(lines)
    ensures Fields(DataText(lines) + rest) == DataFields(lines) + Fields(rest)
  {
    if lines == [] {
      assert DataText(lines) + rest == rest;
    } else {
      var line := "data: " + lines[0];
      assert NoLF(line) && AllNoLF(lines[1..]);
      PrintedField("data", lines[0]);
      assert "data" + ": " + lines[0] == line;
      FieldsOfData(lines[1..], rest);
      hide Fields, Classify, NoLF, AllNoLF;
      FieldsOfLine(line, DataText(lines[1..]) + rest);
      ConcatAssoc(line + "\n", DataText(lines[1..]), rest);
      ConcatAssoc([DataField(Strip(lines[0]))], DataFields(lines[1..]), Fields(rest));
    }
  }

  lemma TypeLine(v: string)
    requires NoLF(v)
    ensures NoLF("event: " + v) && Classify(DropCR("event: " + v)) == TypeField(Strip(v))
  {
    PrintedField("event", v);
    assert "event" + ": " == "event: ";
  }

  lemma IdLine(v: string)
    requires NoLF(v)
    ensures NoLF("id: " + v) && Classify(DropCR("id: " + v)) == IdField(Strip(v))
  {
    PrintedField("id", v);
    assert "id" + ": " == "id: ";
  }

  lemma BlankText()
    ensures Fields("\n") == [Blank]
  {
  }

  lemma FieldsOfEvent(e: SseEvent)
    requires NoLF(e.typ) && NoLF(e.id)
    ensures Fields(PrintEvent(e)) == [TypeField(Strip(e.typ))]
      + ([IdField(Strip(e.id))] + (DataFields(Split(e.data)) + [Blank]))
  {
    hide Classify, NoLF, Fields, Split, DataText, DataFields;
    TypeLine(e.typ);
    IdLine(e.id);
    BlankText();
    var data := DataText(Split(e.data)) + "\n";
    FieldsOfData(Split(e.data), "\n");
    FieldsOfLine("id: " + e.id, data);
    FieldsOfLine("event: " + e.typ, "id: " + e.id + "\n" + data);
  }

  lemma {:induction false} PendingData(block: seq<Field>, lines: seq<string>)
    requires HasField(block) && HasNoBlank(block)
    ensures HasNoBlank(block + DataFields(lines))
    ensures PendingOf(block + DataFields(lines)) == PendingOf(block).(data := DataLines(block) + StripAll(lines))
    decreases |lines|
  {
    if lines == [] {
      assert block + DataFields(lines) == block;
    } else {
      var next := block + [DataField(Strip(lines[0]))];
      assert next[..|next| - 1] == block;
      PendingData(next, lines[1..]);
      hide HasNoBlank, LastType, LastId, HasField;
      ConcatAssoc(block, [DataField(Strip(lines[0]))], DataFields(lines[1..]));
      ConcatAssoc(DataLines(block), [Strip(lines[0])], StripAll(lines[1..]));
    }
  }

  lemma PendingHead(typ: string, id: string)
    ensures var head := [TypeField(typ), IdField(id)]; PendingOf(head) == Pending(typ, id, [], true) && HasNoBlank(head)
  {
    var one, head := [TypeField(typ)], [TypeField(typ), IdField(id)];
    assert one[..|one| - 1] == [] && head[..|head| - 1] == one;
    NothingInEmpty();
    assert LastType(one) == typ && HasField(one);
    assert LastId(one) == LastId([]) && DataLines(one) == DataLines([]) + [];
    assert DataLines(head) == DataLines(one) + [];
  }

  lemma HeadHasField(typ: string, id: string)
    ensures HasField([TypeField(typ), IdField(id)])
  {
  }

  lemma NoDispatch()
    ensures Dispatch([]) == []
  {
  }

  lemma DispatchOfEvent(typ: string, id: string, lines: seq<string>)
    ensures Dispatch([TypeField(typ)] + ([IdField(id)] + (DataFields(lines) + [Blank])))
         == [SseEvent(typ, id, Join(StripAll(lines)))]
  {
    var head := [TypeField(typ), IdField(id)];
    hide Dispatch, HasNoBlank, Join, StripAll, DataFields;
    HeadHasField(typ, id);
    PendingHead(typ, id);
    PendingData(head, lines);
    NoDispatch();
    DispatchSplit(head + DataFields(lines), []);
    assert [TypeField(typ)] + ([IdField(id)] + (DataFields(lines) + [Blank]))
      == head + DataFields(lines) + [Blank] + [];
    assert [] + StripAll(lines) == StripAll(lines);
  }

  /** Reading back one printed event gives it with each value's trailing CRs (up to two) dropped. */
  lemma ReadBackOne(e: SseEvent)
    requires NoLF(e.typ) && NoLF(e.id)
    ensures Parse(PrintEvent(e)) == [StripEvent(e)] && EndsBlank(PrintEvent(e))
  {
    FieldsOfEvent(e);
    DispatchOfEvent(Strip(e.typ), Strip(e.id), Split(e.data));
    var fields := Fields(PrintEvent(e));
    hide Dispatch, Fields, Split;
    assert fields[|fields| - 1] == Blank;
    var t := PrintEvent(e);
    assert t[|t| - 1] == '\n';
  }

  function StripEvents(events: seq<SseEvent>): (r: seq<SseEvent>)
    ensures |r| == |events| && forall i :: 0 <= i < |events| ==> r[i] == StripEvent(events[i])
  {
    seq(|events|, i requires 0 <= i < |events| => StripEvent(events[i]))
  }

  predicate OneLineNames(events: seq<SseEvent>) {
    forall i :: 0 <= i < |events| ==> NoLF(events[i].typ) && NoLF(events[i].id)
  }

  lemma {:induction false} ReadBackAll(events: seq<SseEvent>)
    requires OneLineNames(events)
    ensures Parse(PrintAll(events)) == StripEvents(events)
  {
    if events == [] {
      assert Parse("") == [];
    } else {
      var e, rest := events[0], events[1..];
      assert PrintAll(events) == PrintEvent(e) + PrintAll(rest);
      StripEventsCons(events);
      assert OneLineNames(rest);
      hide PrintAll, PrintEvent, StripEvents, StripEvent, Parse, EndsBlank, NoLF;
      ReadBackOne(e);
      ReadBackAll(rest);
      ParseConcat(PrintEvent(e), PrintAll(rest));
    }
  }

  lemma StripEventsCons(events: seq<SseEvent>)
    requires events != []
    ensures StripEvents(events) == [StripEvent(events[0])] + StripEvents(events[1..])
  {
    hide StripEvent;
  }

  // ---- exactly which events survive ----------------------------------------------------------------

  predicate NoCR(s: string) { s != "" ==> s[|s| - 1] != '\r' }

  /** Type and id stay on their line, and no line of the event ends in CR. */
  predicate Printable(e: SseEvent) {
    && NoLF(e.typ) && NoLF(e.id) && NoCR(e.typ) && NoCR(e.id)
    && forall i :: 0 <= i < |Split(e.data)| ==> NoCR(Split(e.data)[i])
  }

  lemma StripFixed(s: string)
    ensures Strip(s) == s <==> NoCR(s)
    ensures NoLF(s) ==> NoLF(Strip(s))
  {
  }

  lemma {:induction false} JoinSplit(s: string)
    ensures Join(Split(s)) == s
  {
    hide Join, NoLF;
    var i := IndexOf(s, '\n');
    if i >= |s| {
      JoinOne(s);
    } else {
      JoinSplit(s[i + 1..]);
      var line, rest := s[..i], s[i + 1..];
      assert Split(s) == [line] + Split(rest);
      AtBreak(s, i);
      hide Split, IndexOf;
      JoinCons(line, Split(rest));
    }
  }

  lemma AtBreak(s: string, i: nat)
    requires i < |s| && s[i] == '\n'
    ensures s[..i] + "\n" + s[i + 1..] == s
  {
  }

  lemma JoinOne(s: string)
    ensures Join([s]) == s
  {
  }

  lemma JoinCons(line: string, rest: seq<string>)
    requires rest != []
    ensures Join([line] + rest) == line + "\n" + Join(rest)
  {
    assert ([line] + rest)[1..] == rest;
  }

  lemma {:induction false} SplitJoin(lines: seq<string>)
    requires lines != [] && AllNoLF(lines)
    ensures Split(Join(lines)) == lines
  {
    if |lines| == 1 {
      assert IndexOf(lines[0], '\n') == |lines[0]| && lines == [lines[0]];
    } else {
      SplitJoin(lines[1..]);
      SplitLine(lines[0], Join(lines[1..]));
      assert lines == [lines[0]] + lines[1..];
    }
  }

  lemma SplitLine(line: string, rest: string)
    requires NoLF(line)
    ensures Split(line + "\n" + rest) == [line] + Split(rest)
  {
    var t := line + "\n" + rest;
    assert t[|line|] == '\n' && forall j :: 0 <= j < |line| ==> t[j] == line[j];
    assert IndexOf(t, '\n') == |line|;
    assert t[..|line|] == line && t[|line| + 1..] == rest;
  }

  lemma StripEventFixed(e: SseEvent)
    requires NoLF(e.typ) && NoLF(e.id)
    ensures StripEvent(e) == e <==> Printable(e)
  {
    StripFixed(e.typ);
    StripFixed(e.id);
    var lines := Split(e.data);
    forall i | 0 <= i < |lines| ensures Strip(lines[i]) == lines[i] <==> NoCR(lines[i]) { StripFixed(lines[i]); }
    JoinSplit(e.data);
    if forall i :: 0 <= i < |lines| ==> NoCR(lines[i]) {
      assert StripAll(lines) == lines;
    }
    if Join(StripAll(lines)) == e.data {
      forall i | 0 <= i < |lines| ensures NoLF(StripAll(lines)[i]) { StripFixed(lines[i]); }
      SplitJoin(StripAll(lines));
      assert StripAll(lines) == lines;
    }
  }

  lemma {:induction false} ScannedNoLF(t: string)
    ensures AllNoLF(ScanLines(t))
  {
    var i := IndexOf(t, '\n');
    if i < |t| {
      ScannedNoLF(t[i + 1..]);
    }
  }

  predicate NamesNoLF(fields: seq<Field>) {
    forall i :: 0 <= i < |fields| && (fields[i].TypeField? || fields[i].IdField?) ==> NoLF(fields[i].value)
  }

  lemma {:induction false} BlockNames(block: seq<Field>)
    requires NamesNoLF(block)
    ensures NoLF(LastType(block)) && NoLF(LastId(block))
  {
    if block != [] {
      BlockNames(block[..|block| - 1]);
    }
  }

  lemma FlushedNames(block: seq<Field>)
    requires NoLF(LastType(block)) && NoLF(LastId(block))
    ensures OneLineNames(Flushed(block))
  {
  }

  lemma {:induction false} DispatchedNames(fields: seq<Field>)
    requires NamesNoLF(fields)
    ensures OneLineNames(Dispatch(fields))
    decreases |fields|
  {
    hide NoLF, Flushed;
    var i := FirstBlank(fields);
    NamesInside(fields, 0, i);
    BlockNames(fields[..i]);
    FlushedNames(fields[..i]);
    if i < |fields| {
      NamesInside(fields, i + 1, |fields|);
      DispatchedNames(fields[i + 1..]);
      NamesTogether(Flushed(fields[..i]), Dispatch(fields[i + 1..]));
    } else {
      NamesTogether(Flushed(fields[..i]), []);
    }
  }

  lemma NamesInside(fields: seq<Field>, i: nat, j: nat)
    requires NamesNoLF(fields) && i <= j <= |fields|
    ensures NamesNoLF(fields[i..j])
  {
  }

  lemma NamesTogether(a: seq<SseEvent>, b: seq<SseEvent>)
    requires OneLineNames(a) && OneLineNames(b)
    ensures OneLineNames(a + b)
  {
  }

  /** No parsed event has a line feed in its type or id. */
  lemma ParsedNames(t: string)
    ensures OneLineNames(Parse(t))
  {
    ScannedNoLF(t);
    ClassifiedNames(ScanLines(t));
    DispatchedNames(Fields(t));
  }

  lemma {:induction false} ClassifiedNames(lines: seq<string>)
    requires AllNoLF(lines)
    ensures NamesNoLF(ClassifyAll(lines))
  {
    hide NoLF, Classify;
    forall i | 0 <= i < |lines|
      ensures ClassifyAll(lines)[i].TypeField? || ClassifyAll(lines)[i].IdField? ==> NoLF(ClassifyAll(lines)[i].value)
    {
      ClassifiedNoLF(lines[i]);
    }
  }

  lemma ClassifiedNoLF(line: string)
    requires NoLF(line)
    ensures (Classify(line).TypeField? || Classify(line).IdField?) ==> NoLF(Classify(line).value)
  {
    var l := DropCR(line);
    var i := IndexOf(l, ':');
    SliceNoLF(line, 0, |l|);
    assert line[0..|l|] == l;
    if i < |l| {
      var v := l[i + 1..];
      SliceNoLF(l, i + 1, |l|);
      assert l[i + 1..|l|] == v;
      if v != "" { SliceNoLF(v, 1, |v|); }
    }
    hide NoLF, IndexOf;
  }

  lemma SliceNoLF(s: string, i: nat, j: nat)
    requires NoLF(s) && i <= j <= |s|
    ensures NoLF(s[i..j])
  {
  }

  predicate AllPrintable(events: seq<SseEvent>) {
    forall i :: 0 <= i < |events| ==> Printable(events[i])
  }

  lemma StripEventsFixed(events: seq<SseEvent>)
    requires OneLineNames(events)
    ensures StripEvents(events) == events <==> AllPrintable(events)
  {
    hide Printable, StripEvent, NoLF;
    var stripped := StripEvents(events);
    if AllPrintable(events) {
      forall i | 0 <= i < |events| ensures stripped[i] == events[i] {
        StripEventFixed(events[i]);
        assert Printable(events[i]);
      }
      assert stripped == events;
    }
    if stripped == events {
      forall i | 0 <= i < |events| ensures Printable(events[i]) {
        StripEventFixed(events[i]);
        assert stripped[i] == events[i];
      }
    }
  }

  /** The round trip, with its exact condition: printed events are read back
      unchanged if and only if each of them is printable. */
  lemma RoundTrip(events: seq<SseEvent>)
    ensures Parse(PrintAll(events)) == events <==> AllPrintable(events)
  {
    if OneLineNames(events) {
      ReadBackAll(events);
      StripEventsFixed(events);
    } else {
      ParsedNames(PrintAll(events));
      var i :| 0 <= i < |events| && !(NoLF(events[i].typ) && NoLF(events[i].id));
      assert !Printable(events[i]);
    }
  }
}
