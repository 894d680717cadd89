/** What the lines of an event stream mean whatever stands around them
    (internal/cursorapi/sse.go): line ends, the optional space, fields without a colon, and
    fields given twice. */
module SseLines {
  import opened Common
  import opened Sse
  import opened SseRoundTrip

  // ---- fields that can replace each other ------------------------------------------------

  lemma {:induction false} PendingSame(x: seq<Field>, y: seq<Field>, more: seq<Field>)
    requires PendingOf(x) == PendingOf(y)
    ensures PendingOf(x + more) == PendingOf(y + more)
  {
    if more == [] {
      assert x + more == x && y + more == y;
    } else {
      var front, last := more[..|more| - 1], more[|more| - 1];
      assert (x + more)[..|x + more| - 1] == x + front && (x + more)[|x + more| - 1] == last;
      assert (y + more)[..|y + more| - 1] == y + front && (y + more)[|y + more| - 1] == last;
      PendingSame(x, y, front);
    }
  }

  /** After any block the two stretches leave the same event in the making. */
  ghost predicate Alike(x: seq<Field>, y: seq<Field>) {
    HasNoBlank(x) && HasNoBlank(y) && forall a: seq<Field> :: PendingOf(a + x) == PendingOf(a + y)
  }

  lemma {:induction false} DispatchSame(a: seq<Field>, x: seq<Field>, y: seq<Field>, b: seq<Field>)
    requires Alike(x, y)
    ensures Dispatch(a + x + b) == Dispatch(a + y + b)
    decreases |a|
  {
    hide Alike;
    var i := FirstBlank(a);
    if i < |a| {
      var block, rest := a[..i], a[i + 1..];
      assert a + x + b == block + [Blank] + (rest + x + b);
      assert a + y + b == block + [Blank] + (rest + y + b);
      DispatchSplit(block, rest + x + b);
      DispatchSplit(block, rest + y + b);
      DispatchSame(rest, x, y, b);
    } else {
      BeforeBlank(a, x, y, b);
    }
  }

  lemma JoinedBlocks(a: seq<Field>, x: seq<Field>, b: seq<Field>)
    requires HasNoBlank(a) && HasNoBlank(x) && HasNoBlank(b)
    ensures HasNoBlank(a + x + b)
  {
  }

  lemma BeforeBlank(a: seq<Field>, x: seq<Field>, y: seq<Field>, b: seq<Field>)
    requires HasNoBlank(a) && Alike(x, y)
    ensures Dispatch(a + x + b) == Dispatch(a + y + b)
  {
    var j := FirstBlank(b);
    var block := b[..j];
    JoinedBlocks(a, x, block);
    JoinedBlocks(a, y, block);
    PendingSame(a + x, a + y, block);
    hide Dispatch, PendingOf, FirstBlank, HasNoBlank;
    if j < |b| {
      CutAt(b, j);
      SameBlock(a + x + block, a + y + block, b[j + 1..]);
      Regroup(a, x, block, [Blank], b[j + 1..]);
      Regroup(a, y, block, [Blank], b[j + 1..]);
    } else {
      assert b[..j] == b;
      SameBlock(a + x + block, a + y + block, []);
    }
  }

  // ---- lines that can replace each other --------------------------------------------------

  lemma FieldsOfInserted(a: string, line: string, b: string)
    requires WholeLines(a) && NoLF(line)
    ensures Fields(a + line + "\n" + b) == Fields(a) + [Classify(DropCR(line))] + Fields(b)
  {
    hide Classify, DropCR, Fields, WholeLines, NoLF;
    FieldsOfLine(line, b);
    FieldsConcat(a, line + "\n" + b);
    ConcatAssoc(a + line, "\n", b);
    ConcatAssoc(a, line, "\n" + b);
    ConcatAssoc(line, "\n", b);
    ConcatAssoc(Fields(a), [Classify(DropCR(line))], Fields(b));
  }

  lemma SameField(a: string, line: string, other: string, b: string)
    requires WholeLines(a) && NoLF(line) && NoLF(other) && Classify(DropCR(line)) == Classify(DropCR(other))
    ensures Parse(a + line + "\n" + b) == Parse(a + other + "\n" + b)
  {
    hide Classify, DropCR, Fields, WholeLines, NoLF, Dispatch;
    FieldsOfInserted(a, line, b);
    FieldsOfInserted(a, other, b);
  }

  /** Lines may end in CRLF as well as in LF. */
  lemma CrLf(a: string, line: string, b: string)
    requires WholeLines(a) && NoLF(line) && NoCR(line)
    ensures Parse(a + (line + "\r") + "\n" + b) == Parse(a + line + "\n" + b)
  {
    assert (line + "\r")[..|line|] == line;
    hide Classify, Parse, WholeLines;
    SameField(a, line + "\r", line, b);
  }

  predicate IsName(name: string) {
    name != "" && forall i :: 0 <= i < |name| ==> name[i] != ':' && name[i] != '\r' && name[i] != '\n'
  }

  lemma ColonAt(name: string, rest: string)
    requires IsName(name)
    ensures var line := name + ":" + rest;
      IndexOf(line, ':') == |name| && line[..|name|] == name && line[|name| + 1..] == rest
  {
    var line := name + ":" + rest;
    assert line[|name|] == ':' && forall j :: 0 <= j < |name| ==> line[j] == name[j];
    hide IndexOf;
  }

  lemma FieldOf(name: string, rest: string)
    requires IsName(name) && NoCR(rest)
    ensures var line := name + ":" + rest; DropCR(line) == line
    ensures Classify(name + ":" + rest) == Meaning(name, TrimSpace(rest))
  {
    var line := name + ":" + rest;
    ColonAt(name, rest);
    assert DropCR(line) == line;
    hide IndexOf, TrimSpace;
  }

  /** What a field of this name and value means. */
  function Meaning(name: string, value: string): Field {
    if name == "event" then TypeField(value)
    else if name == "id" then IdField(value)
    else if name == "data" then DataField(value)
    else Ignored
  }

  lemma NameHasNoLF(name: string, rest: string)
    requires IsName(name) && NoLF(rest)
    ensures NoLF(name + ":" + rest)
  {
  }

  /** One space after the colon is no part of the value, and need not be there. */
  lemma SpaceIsOptional(a: string, name: string, v: string, b: string)
    requires WholeLines(a) && IsName(name) && NoLF(v) && NoCR(v) && (v == "" || v[0] != ' ')
    ensures Parse(a + (name + ":" + v) + "\n" + b) == Parse(a + (name + ":" + (" " + v)) + "\n" + b)
  {
    FieldOf(name, v);
    FieldOf(name, " " + v);
    assert (" " + v)[1..] == v;
    NameHasNoLF(name, v);
    NameHasNoLF(name, " " + v);
    hide Classify, Parse, WholeLines, NoLF, IsName, DropCR;
    SameField(a, name + ":" + v, name + ":" + (" " + v), b);
  }

  /** Only one: a value may begin with spaces. */
  lemma OneSpaceOnly(name: string, v: string)
    requires name in {"event", "id", "data"} && NoCR(v)
    ensures Classify(name + ":" + (" " + v)) == Meaning(name, v)
  {
    assert IsName(name);
    FieldOf(name, " " + v);
    assert (" " + v)[1..] == v;
  }

  /** A field without a colon has an empty value. */
  lemma BareField(a: string, name: string, b: string)
    requires WholeLines(a) && IsName(name)
    ensures Parse(a + name + "\n" + b) == Parse(a + (name + ":" + "") + "\n" + b)
  {
    FieldOf(name, "");
    BareMeans(name);
    NameHasNoLF(name, "");
    assert NoLF(name);
    hide Classify, Parse, WholeLines, NoLF, IsName, DropCR;
    SameField(a, name, name + ":" + "", b);
  }

  lemma BareMeans(name: string)
    requires IsName(name)
    ensures DropCR(name) == name && Classify(name) == Meaning(name, TrimSpace(""))
  {
    assert IndexOf(name, ':') == |name|;
    assert name[..|name|] == name;
    hide IndexOf;
  }

  // ---- fields given twice --------------------------------------------------------------------

  lemma OneField(block: seq<Field>, f: Field)
    requires f.TypeField? || f.IdField?
    ensures var p, q := PendingOf(block), PendingOf(block + [f]);
      && q.typ == (if f.TypeField? then f.value else p.typ) && q.id == (if f.IdField? then f.value else p.id)
      && q.data == p.data && q.dirty
  {
    var more := block + [f];
    assert more[..|more| - 1] == block && more[|more| - 1] == f;
  }

  lemma LaterNameWins(one: Field, two: Field)
    requires (one.TypeField? && two.TypeField?) || (one.IdField? && two.IdField?)
    ensures Alike([one, two], [two])
  {
    forall a: seq<Field> ensures PendingOf(a + [one, two]) == PendingOf(a + [two]) {
      assert a + [one, two] == a + [one] + [two];
      OneField(a, one);
      OneField(a + [one], two);
      OneField(a, two);
      hide PendingOf;
    }
  }

  lemma TwoLines(a: string, one: string, two: string, b: string)
    requires WholeLines(a) && NoLF(one) && NoLF(two)
    ensures Fields(a + one + "\n" + (two + "\n" + b)) ==
      Fields(a) + [Classify(DropCR(one)), Classify(DropCR(two))] + Fields(b)
  {
    hide Classify, DropCR, Fields, WholeLines, NoLF;
    FieldsOfInserted(a, one, two + "\n" + b);
    FieldsOfLine(two, b);
    var f, g := Classify(DropCR(one)), Classify(DropCR(two));
    assert Fields(a) + [f] + ([g] + Fields(b)) == Fields(a) + [f, g] + Fields(b);
  }

  /** Of two types, or two ids, the later counts. */
  lemma LaterFieldWins(a: string, name: string, v: string, w: string, b: string)
    requires WholeLines(a) && name in {"event", "id"} && NoLF(v) && NoCR(v) && NoLF(w) && NoCR(w)
    ensures var one, two := name + ":" + v, name + ":" + w;
      Parse(a + one + "\n" + (two + "\n" + b)) == Parse(a + two + "\n" + b)
  {
    assert IsName(name);
    hide Classify, WholeLines, NoLF, IsName, DropCR, Fields, Dispatch, Alike, TrimSpace, NoCR;
    FieldOf(name, v);
    FieldOf(name, w);
    NameHasNoLF(name, v);
    NameHasNoLF(name, w);
    var one, two := Meaning(name, TrimSpace(v)), Meaning(name, TrimSpace(w));
    LaterNameWins(one, two);
    DispatchSame(Fields(a), [one, two], [two], Fields(b));
    TwoLines(a, name + ":" + v, name + ":" + w, b);
    FieldsOfInserted(a, name + ":" + w, b);
  }

  lemma OneNameOnly(f: Field)
    requires f.TypeField? || f.IdField?
    ensures Dispatch([f] + [Blank]) == [if f.TypeField? then SseEvent(f.value, "", "") else SseEvent("", f.value, "")]
  {
    DispatchSplit([f], []);
    assert [f] + [Blank] + [] == [f] + [Blank] && [f][..0] == [] && [] + [f] == [f];
    OneField([], f);
    assert Dispatch([]) == [];
    assert PendingOf([]) == Pending("", "", [], false);
    hide PendingOf, Dispatch;
    assert EventOf([f]) == SseEvent(LastType([f]), LastId([f]), Join(DataLines([f])));
  }

  /** An event with a type or an id and no data is told with empty data. */
  lemma WithoutData(name: string, v: string)
    requires name in {"event", "id"} && NoLF(v) && NoCR(v) && (v == "" || v[0] != ' ')
    ensures Parse(name + ":" + v + "\n" + "\n") ==
      [if name == "event" then SseEvent(v, "", "") else SseEvent("", v, "")]
  {
    assert IsName(name) && TrimSpace(v) == v;
    hide Classify, NoLF, DropCR, Fields, TrimSpace, NoCR, Dispatch, IsName;
    FieldOf(name, v);
    NameHasNoLF(name, v);
    BlankText();
    FieldsOfLine(name + ":" + v, "\n");
    OneNameOnly(Meaning(name, v));
  }
}
