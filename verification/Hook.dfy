/** The hook backend's bookkeeping (internal/backend/hook/hook.go): a record map, a
    durable file, and a script that runs while the lock is dropped. First the locked
    sections as functions, then every interleaving of them. */
module Hook {
  import opened Common

  datatype Record = Record(id: string, pool: string, requestId: string, createdAt: nat, lastActivity: nat)

  /** `durable`: a state file is configured. `file` is what loading it would give. */
  datatype Book = Book(durable: bool, mem: map<string, Record>, file: map<string, Record>)

  function Entry(m: map<string, Record>, w: string): Option<Record> { if w in m then Some(m[w]) else None }

  function Put(m: map<string, Record>, w: string, r: Option<Record>): map<string, Record> {
    match r
    case Some(x) => m[w := x]
    case None => m - {w}
  }

  predicate WellKeyed(m: map<string, Record>) { forall w :: w in m ==> m[w].id == w }

  // ---- locked sections; `ok` says whether writing the file would succeed ------------------

  /** `saveLocked`: without a state file there is nothing to fail. */
  function Save(b: Book, ok: bool): Book { if b.durable && ok then b.(file := b.mem) else b }

  predicate Saves(b: Book, ok: bool) { !b.durable || ok }

  /** Before the script: record the attempt, or leave everything as it was. */
  function Begin(b: Book, w: string, attempt: Record, ok: bool): Book {
    if Saves(b, ok) then Save(b.(mem := b.mem[w := attempt]), ok) else b
  }

  /** After a failed script: put the previous record back. */
  function Rollback(b: Book, w: string, previous: Option<Record>, ok: bool): Book {
    Save(b.(mem := Put(b.mem, w, previous)), ok)
  }

  /** RecordClaim and the end of Dispose: the change to memory stays if the save fails. */
  function Stamp(b: Book, w: string, requestId: string, now: nat, ok: bool): Book {
    if w in b.mem then Save(b.(mem := b.mem[w := b.mem[w].(requestId := requestId, lastActivity := now)]), ok) else b
  }

  function Remove(b: Book, w: string, ok: bool): Book { Save(b.(mem := b.mem - {w}), ok) }

  function Spawned(w: string, pool: string, requestId: string,
      now: nat): Record { Record(w, pool, requestId, now, now) }

  function Woken(r: Record, requestId: string, now: nat): Record {
    r.(lastActivity := now, requestId := if requestId != "" then requestId else r.requestId)
  }

  // ---- operations interleaved at lock boundaries --------------------------------------------

  /** What an operation whose script is running holds in its local variables. */
  datatype Frame = Starting(previous: Option<Record>, attempt: Record) | Disposing

  /** `owed`: workers whose last start succeeded and that were not removed since. */
  datatype Sys = Sys(book: Book, running: map<string, Frame>, owed: set<string>)

  datatype Act =
    | Spawn(w: string, pool: string, requestId: string, now: nat, ok: bool)
    | Wake(w: string, requestId: string, now: nat, ok: bool)
    | Exit(w: string, success: bool, ok: bool)
    | Claim(w: string, requestId: string, now: nat, ok: bool)
    | Dispose(w: string)
    | Disposed(w: string, success: bool, ok: bool)
    | Restart

  /** Operations on one worker do not overlap. */
  predicate Enabled(s: Sys, a: Act) {
    match a
    case Exit(w, _, _) => w in s.running && s.running[w].Starting?
    case Disposed(w, _, _) => w in s.running && s.running[w].Disposing?
    case Restart => true
    case _ => a.w !in s.running
  }

  function Start(s: Sys, w: string, attempt: Record, ok: bool): Sys {
    s.(book := Begin(s.book, w, attempt, ok),
       running := if Saves(s.book, ok) then s.running[w := Starting(Entry(s.book.mem, w), attempt)] else s.running)
  }

  function Step(s: Sys, a: Act): Sys
    requires Enabled(s, a)
  {
    match a
    case Spawn(w, pool, requestId, now, ok) => Start(s, w, Spawned(w, pool, requestId, now), ok)
    case Wake(w, requestId, now, ok) =>
      if w in s.book.mem then Start(s, w, Woken(s.book.mem[w], requestId, now), ok) else s
    case Exit(w, success, ok) =>
      if success then s.(running := s.running - {w}, owed := s.owed + {w})
      else s.(book := Rollback(s.book, w, s.running[w].previous, ok), running := s.running - {w})
    case Claim(w, requestId, now, ok) => s.(book := Stamp(s.book, w, requestId, now, ok))
    case Dispose(w) => s.(running := s.running[w := Disposing])
    case Disposed(w, success, ok) =>
      if success then s.(book := Remove(s.book, w, ok), running := s.running - {w}, owed := s.owed - {w})
      else s.(running := s.running - {w})
    case Restart => Reloaded(s)
  }

  /** The process stops between two sections and starts again: memory is what the file
      says, no operation is under way, and without a file nothing is known any more. */
  function Reloaded(s: Sys): Sys {
    if s.book.durable then s.(book := s.book.(mem := s.book.file), running := map[])
    else s.(book := s.book.(mem := map[]), running := map[], owed := {})
  }

  predicate Legal(s: Sys, acts: seq<Act>)
    decreases |acts|
  {
    acts == [] || (Enabled(s, acts[0]) && Legal(Step(s, acts[0]), acts[1..]))
  }

  function Run(s: Sys, acts: seq<Act>): Sys
    requires Legal(s, acts)
    decreases |acts|
  {
    if acts == [] then s else Run(Step(s, acts[0]), acts[1..])
  }

  /** A backend that has just loaded its state file. */
  predicate Initial(s: Sys) {
    s.running == map[] && s.owed == {} && WellKeyed(s.book.mem) && (s.book.durable ==> s.book.file == s.book.mem)
  }

  // ---- what holds between any two sections, whether or not saves succeed -----------------------

  /** While a worker's start script runs, memory and file both hold the attempt. */
  ghost predicate WriteAhead(s: Sys) {
    forall w :: w in s.running && s.running[w].Starting? ==>
      && Entry(s.book.mem, w) == Some(s.running[w].attempt)
      && (s.book.durable ==> Entry(s.book.file, w) == Some(s.running[w].attempt))
  }

  /** A worker that was started and not removed is remembered, in the file too, and
      a failing restart would put its record back. */
  ghost predicate Remembered(s: Sys) {
    forall w :: w in s.owed ==>
      && w in s.book.mem && (s.book.durable ==> w in s.book.file)
      && (w in s.running && s.running[w].Starting? ==> s.running[w].previous.Some?)
  }

  ghost predicate Keyed(s: Sys) {
    && WellKeyed(s.book.mem) && (s.book.durable ==> WellKeyed(s.book.file))
    && forall w :: w in s.running && s.running[w].Starting? ==>
         s.running[w].attempt.id == w && (s.running[w].previous.Some? ==> s.running[w].previous.value.id == w)
  }

  ghost predicate Inv(s: Sys) { WriteAhead(s) && Remembered(s) && Keyed(s) }

  lemma StepKeepsInv(s: Sys, a: Act)
    requires Inv(s) && Enabled(s, a)
    ensures Inv(Step(s, a))
  {
    match a
    case Spawn(_, _, _, _, _) => SpawnKeepsInv(s, a);
    case Wake(_, _, _, _) => WakeKeepsInv(s, a);
    case Exit(_, _, _) => ExitKeepsInv(s, a);
    case Claim(_, _, _, _) => ClaimKeepsInv(s, a);
    case Dispose(_) =>
    case Disposed(_, _, _) => DisposedKeepsInv(s, a);
    case Restart =>
  }

  lemma SpawnKeepsInv(s: Sys, a: Act)
    requires Inv(s) && Enabled(s, a) && a.Spawn?
    ensures Inv(Step(s, a))
  {
  }

  lemma WakeKeepsInv(s: Sys, a: Act)
    requires Inv(s) && Enabled(s, a) && a.Wake?
    ensures Inv(Step(s, a))
  {
  }

  lemma ExitKeepsInv(s: Sys, a: Act)
    requires Inv(s) && Enabled(s, a) && a.Exit?
    ensures Inv(Step(s, a))
  {
  }

  lemma ClaimKeepsInv(s: Sys, a: Act)
    requires Inv(s) && Enabled(s, a) && a.Claim?
    ensures Inv(Step(s, a))
  {
  }

  lemma DisposedKeepsInv(s: Sys, a: Act)
    requires Inv(s) && Enabled(s, a) && a.Disposed?
    ensures Inv(Step(s, a))
  {
  }

  /** In every interleaving, even with failing saves: a start script runs only with
      its record on file, and a started worker stays on file until it is removed. */
  lemma {:induction false} InvAlways(s: Sys, acts: seq<Act>)
    requires Initial(s) || Inv(s)
    requires Legal(s, acts)
    ensures Inv(Run(s, acts))
    decreases |acts|
  {
    if acts != [] {
      assert Inv(s);
      StepKeepsInv(s, acts[0]);
      InvAlways(Step(s, acts[0]), acts[1..]);
    }
  }

  predicate Removes(a: Act, w: string) { a.Disposed? && a.w == w && a.success }

  /** A started worker survives restarts: until it is removed it is in memory, whenever
      and however often the process was stopped and started again. */
  lemma {:induction false} SurvivesRestarts(s: Sys, acts: seq<Act>, w: string)
    requires Inv(s) && Legal(s, acts) && s.book.durable && w in s.owed
    requires forall i :: 0 <= i < |acts| ==> !Removes(acts[i], w)
    ensures w in Run(s, acts).owed && w in Run(s, acts).book.mem && w in Run(s, acts).book.file
    decreases |acts|
  {
    if acts != [] {
      StepKeepsInv(s, acts[0]);
      SurvivesRestarts(Step(s, acts[0]), acts[1..], w);
    }
  }

  // ---- each operation touches only its worker ------------------------------------------------------

  lemma TouchesOnlyItsWorker(s: Sys, a: Act, v: string)
    requires Enabled(s, a) && !a.Restart? && a.w != v
    ensures Entry(Step(s, a).book.mem, v) == Entry(s.book.mem, v)
    ensures Entry(Step(s, a).book.file, v) == Entry(s.book.file, v)
      || Entry(Step(s, a).book.file, v) == Entry(s.book.mem, v)
    ensures (v in Step(s, a).running <==> v in s.running) && (v in s.running ==> Step(s, a).running[v] == s.running[v])
  {
  }

  predicate Spares(acts: seq<Act>, w: string) { forall i :: 0 <= i < |acts| ==> !acts[i].Restart? && acts[i].w != w }

  lemma {:induction false} SparedUnchanged(s: Sys, acts: seq<Act>, w: string)
    requires Legal(s, acts) && Spares(acts, w)
    ensures Entry(Run(s, acts).book.mem, w) == Entry(s.book.mem, w)
    ensures (w in Run(s, acts).running <==> w in s.running)
    ensures (w in s.running ==> Run(s, acts).running[w] == s.running[w])
    ensures Run(s, acts).book.durable == s.book.durable
    decreases |acts|
  {
    if acts != [] {
      TouchesOnlyItsWorker(s, acts[0], w);
      SparedUnchanged(Step(s, acts[0]), acts[1..], w);
    }
  }

  /** Nor does a run of other workers' operations leave another record of `w` on file than
      the one that was there or the one in memory. */
  lemma {:induction false} SparedOnFile(s: Sys, acts: seq<Act>, w: string)
    requires Legal(s, acts) && Spares(acts, w)
    ensures Entry(Run(s, acts).book.file, w) == Entry(s.book.file, w)
      || Entry(Run(s, acts).book.file, w) == Entry(s.book.mem, w)
    decreases |acts|
  {
    if acts != [] {
      TouchesOnlyItsWorker(s, acts[0], w);
      SparedOnFile(Step(s, acts[0]), acts[1..], w);
    }
  }

  predicate Starts(a: Act) { a.Spawn? || a.Wake? }

  /** A failed Spawn or Wake puts back exactly the record its worker had before,
      whatever other workers' operations did while its script ran. */
  lemma FailedStartRestores(s: Sys, a: Act, meanwhile: seq<Act>, exit: Act)
    requires Starts(a) && Enabled(s, a) && a.w in Step(s, a).running
    requires Spares(meanwhile, a.w) && Legal(Step(s, a), meanwhile)
    requires exit.Exit? && exit.w == a.w && !exit.success && Enabled(Run(Step(s, a), meanwhile), exit)
    ensures Entry(Step(Run(Step(s, a), meanwhile), exit).book.mem, a.w) == Entry(s.book.mem, a.w)
    ensures s.book.durable && exit.ok ==>
      Entry(Step(Run(Step(s, a), meanwhile), exit).book.file, a.w) == Entry(s.book.mem, a.w)
  {
    SparedUnchanged(Step(s, a), meanwhile, a.w);
  }

  // ---- a worker's life, alone or among others -------------------------------------------------

  /** The record a start is about. */
  ghost predicate IsAttempt(s: Sys, a: Act, r: Record)
    requires Starts(a)
  {
    && r.id == a.w && r.lastActivity == a.now
    && (a.Spawn? ==> r.pool == a.pool && r.requestId == a.requestId && r.createdAt == a.now)
    && (a.Wake? ==> a.w in s.book.mem && r.pool == s.book.mem[a.w].pool && r.createdAt == s.book.mem[a.w].createdAt)
    && (a.Wake? && a.requestId != "" ==> r.requestId == a.requestId)
    && (a.Wake? && a.requestId == "" ==> r.requestId == s.book.mem[a.w].requestId)
  }

  /** A start runs its script exactly if the record could be written, and a Wake only for a
      known worker; when the script succeeds, whatever others did meanwhile, the worker is
      started with just the record asked for. */
  lemma StartSucceeds(s: Sys, a: Act, meanwhile: seq<Act>, exit: Act)
    requires Inv(s) && Starts(a) && Enabled(s, a)
    requires Spares(meanwhile, a.w) && Legal(Step(s, a), meanwhile)
    requires exit.Exit? && exit.w == a.w && exit.success
    ensures a.w in Step(s, a).running <==> (!s.book.durable || a.ok) && (a.Spawn? || a.w in s.book.mem)
    ensures a.w !in Step(s, a).running ==> Step(s, a) == s
    ensures a.w in Step(s, a).running ==>
      && Enabled(Run(Step(s, a), meanwhile), exit)
      && var t := Step(Run(Step(s, a), meanwhile), exit);
         a.w in t.owed && a.w !in t.running && a.w in t.book.mem && IsAttempt(s, a, t.book.mem[a.w])
  {
    SparedUnchanged(Step(s, a), meanwhile, a.w);
    if a.w in Step(s, a).running {
      assert Entry(s.book.mem, a.w).Some? ==> s.book.mem[a.w].id == a.w;
    }
  }

  /** After a successful disposal the worker is forgotten, unless the file could not be
      written; until then it is as it was. */
  lemma DisposalForgets(s: Sys, w: string, meanwhile: seq<Act>, success: bool, ok: bool)
    requires Enabled(s, Dispose(w)) && Spares(meanwhile, w) && Legal(Step(s, Dispose(w)), meanwhile)
    ensures Step(s, Dispose(w)).book == s.book && Enabled(Run(Step(s, Dispose(w)), meanwhile), Disposed(w, success, ok))
    ensures var t := Step(Run(Step(s, Dispose(w)), meanwhile), Disposed(w, success, ok));
      && w !in t.running && (success ==> w !in t.book.mem && w !in t.owed)
      && (success && ok && s.book.durable ==> w !in t.book.file)
      && (!success ==> Entry(t.book.mem, w) == Entry(s.book.mem, w))
  {
    SparedUnchanged(Step(s, Dispose(w)), meanwhile, w);
  }

  /** A restart leaves no operation under way, and in memory just what the file holds. */
  lemma RestartLoads(s: Sys)
    ensures Enabled(s, Restart)
    ensures var t := Step(s, Restart);
      && t.running == map[] && t.book.file == s.book.file && t.book.durable == s.book.durable
      && (s.book.durable ==> t.book.mem == s.book.file && t.owed == s.owed)
      && (!s.book.durable ==> t.book.mem == map[] && t.owed == {})
  {
  }

  // ---- memory and file -------------------------------------------------------------------------------

  predicate AllSave(acts: seq<Act>) {
    forall i :: 0 <= i < |acts| ==> acts[i].Dispose? || acts[i].Restart? || acts[i].ok
  }

  /** While saves succeed the file is the memory, after every section. */
  lemma {:induction false} FileIsMemory(s: Sys, acts: seq<Act>)
    requires s.book.durable && s.book.file == s.book.mem && Legal(s, acts) && AllSave(acts)
    ensures Run(s, acts).book.file == Run(s, acts).book.mem
    decreases |acts|
  {
    if acts != [] {
      FileIsMemory(Step(s, acts[0]), acts[1..]);
    }
  }

  /** A step after which file and memory part, exactly: a failing save in a section
      that does not undo its change, when the change was one. */
  lemma PartsExactlyWhen(s: Sys, a: Act)
    requires s.book.durable && s.book.file == s.book.mem && Enabled(s, a)
    ensures Step(s, a).book.file != Step(s, a).book.mem <==>
      || (a.Claim? && !a.ok && a.w in s.book.mem
          && (s.book.mem[a.w].requestId != a.requestId || s.book.mem[a.w].lastActivity != a.now))
      || (a.Exit? && !a.success && !a.ok && Entry(s.book.mem, a.w) != s.running[a.w].previous)
      || (a.Disposed? && a.success && !a.ok && a.w in s.book.mem)
  {
  }
}
