/** The hook backend as a class (internal/backend/hook/hook.go): its record map and
    state file, with every file write and script able to fail, and operations on
    other workers free to act while a script runs. */
module HookBackend {
  import opened Common
  import opened Backend
  import opened Hook
  import Sorting

  /** How a script ended: exit 0, exit 66, anything else. */
  datatype Outcome = Succeeded | ExitMissing | Failed

  datatype Error = Nil | WorkspaceMissing | UnknownWorker | OtherError

  function OutcomeError(o: Outcome): Error {
    match o
    case Succeeded => Nil
    case ExitMissing => WorkspaceMissing
    case Failed => OtherError
  }

  /** What `load` makes of the records in the file. */
  function Loaded(recs: seq<Record>): map<string, Record> {
    if recs == [] then map[]
    else
      var last := recs[|recs| - 1];
      Loaded(recs[..|recs| - 1])[last.id := last]
  }

  lemma {:induction false} LoadedKeyed(recs: seq<Record>)
    ensures WellKeyed(Loaded(recs))
  {
    if recs != [] { LoadedKeyed(recs[..|recs| - 1]); }
  }

  /** Records that are exactly a map's, in any order, load as that map. */
  lemma {:induction false} LoadedIs(recs: seq<Record>, m: map<string, Record>)
    requires forall r :: r in recs ==> r.id in m && m[r.id] == r
    ensures forall w :: w in Loaded(recs) <==> w in m && m[w] in recs && m[w].id == w
    ensures forall w :: w in Loaded(recs) ==> Loaded(recs)[w] == m[w]
  {
    if recs != [] {
      var n := |recs| - 1;
      assert forall r :: r in recs <==> r in recs[..n] || r == recs[n];
      LoadedIs(recs[..n], m);
    }
  }

  predicate ById(a: Record, b: Record) { Less(a.id, b.id) }

  /** The file's text order: by id, and loading it back gives the map. */
  method Records(m: map<string, Record>) returns (recs: seq<Record>)
    requires WellKeyed(m)
    ensures Sorting.InOrder(recs, ById) && Loaded(recs) == m
    ensures forall i, j :: 0 <= i < j < |recs| ==> Less(recs[i].id, recs[j].id)
    ensures forall r :: r in m.Values <==> r in recs
  {
    var list: seq<Record> := [];
    var todo := m.Keys;
    while todo != {}
      invariant todo <= m.Keys
      invariant forall r :: r in list ==> r.id in m && m[r.id] == r && r.id !in todo
      invariant forall i, j :: 0 <= i < j < |list| ==> list[i].id != list[j].id
      invariant forall w :: w in m && w !in todo ==> m[w] in list
    {
      var w :| w in todo;
      list := list + [m[w]];
      todo := todo - {w};
    }
    Sorting.KeyOrders(ById, (r: Record) => r.id);
    recs := Sorting.Sort(list, ById);
    Sorting.SameElements(recs, list);
    Sorting.SortedStrictly(recs, list, ById, (r: Record) => r.id);
    LoadedIs(recs, m);
    assert Loaded(recs).Keys == m.Keys;
  }

  class HookBackend {
    const durable: bool
    var state: map<string, Record>
    var file: seq<Record>
    var calls: nat
    const saves: nat -> bool
    const script: nat -> Outcome
    const others: (nat, map<string, Record>, seq<Record>) -> (map<string, Record>, seq<Record>)

    function Book(): Book
      reads this
    {
      Hook.Book(durable, state, Loaded(file))
    }

    /** What operations on other workers do while a script for `w` runs. */
    ghost predicate World(w: string) {
      forall n, m, f :: WellKeyed(m) ==>
        && WellKeyed(others(n, m, f).0) && Entry(others(n, m, f).0, w) == Entry(m, w)
        && (Entry(Loaded(others(n, m, f).1), w) == Entry(Loaded(f), w)
          || Entry(Loaded(others(n, m, f).1), w) == Entry(m, w))
    }

    /** What happens while the script for `w` runs is a run of other workers' operations. */
    ghost predicate ByRuns(w: string) {
      forall n, m, f :: WellKeyed(m) ==> ByRun(w, m, Loaded(f), others(n, m, f).0, Loaded(others(n, m, f).1))
    }

    ghost predicate ByRun(w: string, m: map<string, Record>, f: map<string, Record>, m': map<string, Record>,
        f': map<string, Record>) {
      exists s: Sys, acts ::
        && Inv(s) && s.book == Hook.Book(durable, m, f) && Legal(s, acts) && Spares(acts, w)
        && Run(s, acts).book == Hook.Book(durable, m', f')
    }

    /** So what the methods assume of the world is what the interleavings of `Hook` give. */
    lemma RunsRespectWorker(w: string)
      requires ByRuns(w)
      ensures World(w)
    {
      forall n, m, f | WellKeyed(m)
        ensures WellKeyed(others(n, m, f).0) && Entry(others(n, m, f).0, w) == Entry(m, w)
        ensures Entry(Loaded(others(n, m, f).1), w) == Entry(Loaded(f), w)
          || Entry(Loaded(others(n, m, f).1), w) == Entry(m, w)
      {
        var m', f' := others(n, m, f).0, Loaded(others(n, m, f).1);
        assert ByRun(w, m, Loaded(f), m', f');
        var s: Sys, acts :| Inv(s) && s.book == Hook.Book(durable, m, Loaded(f)) && Legal(s, acts) && Spares(acts, w)
          && Run(s, acts).book == Hook.Book(durable, m', f');
        InvAlways(s, acts);
        SparedUnchanged(s, acts, w);
        SparedOnFile(s, acts, w);
      }
    }

    ghost predicate Alone() { forall n, m, f :: others(n, m, f) == (m, f) }

    ghost predicate Valid()
      reads this
    {
      WellKeyed(state)
    }

    /** New: a missing file reads as no records. */
    constructor (durable: bool, file: seq<Record>, saves: nat -> bool, script: nat -> Outcome,
                 others: (nat, map<string, Record>, seq<Record>) -> (map<string, Record>, seq<Record>))
      ensures Valid() && this.durable == durable && this.file == file
      ensures state == if durable then Loaded(file) else map[]
      ensures this.saves == saves && this.script == script && this.others == others
    {
      this.durable, this.file, this.calls := durable, file, 0;
      this.saves, this.script, this.others := saves, script, others;
      this.state := map[];
      new;
      if durable {
        for i := 0 to |file|
          invariant state == Loaded(file[..i]) && this.durable == durable && this.file == file
          invariant this.saves == saves && this.script == script && this.others == others
        {
          state := state[file[i].id := file[i]];
          assert file[..i + 1][..i] == file[..i];
        }
        assert file[..|file|] == file;
        LoadedKeyed(file);
      }
    }

    /** Writes a temporary file and renames it: all or nothing. */
    method SaveLocked() returns (ok: bool)
      requires Valid()
      modifies this`file, this`calls
      ensures Valid() && ok == (!durable || saves(old(calls))) && calls == old(calls) + if durable then 1 else 0
      ensures Book() == Save(old(Book()), ok) && (!ok ==> file == old(file))
      ensures durable && ok ==> Loaded(file) == state && Sorting.InOrder(file, ById)
    {
      if !durable {
        return true;
      }
      ok := saves(calls);
      calls := calls + 1;
      if ok {
        file := Records(state);
      }
    }

    /** The lock is dropped: others act, the script runs. */
    method RunScript(w: string) returns (outcome: Outcome)
      requires Valid() && World(w)
      modifies this
      ensures Valid() && outcome == script(old(calls)) && calls == old(calls) + 1
      ensures Entry(state, w) == old(Entry(state, w))
      ensures Entry(Loaded(file), w) == old(Entry(Loaded(file), w)) || Entry(Loaded(file), w) == old(Entry(state, w))
      ensures Alone() ==> Book() == old(Book())
    {
      var (m, f) := others(calls, state, file);
      outcome := script(calls);
      state, file, calls := m, f, calls + 1;
    }

    /** The script runs after the save, if there was one. */
    function ScriptCall(first: nat): nat { if durable then first + 1 else first }

    /** The part Spawn and Wake share, from the attempt's record to its outcome.
        `ran` is the book at the moment the script started, if it did. */
    method Attempt(w: string, attempt: Record) returns (err: Error, ghost ran: Option<Book>)
      requires Valid() && World(w) && attempt.id == w
      modifies this
      ensures Valid()
      // The script starts only with the attempt recorded, and on file; its exit decides.
      ensures ran.Some? <==> !durable || saves(old(calls))
      ensures ran.Some? ==> err == OutcomeError(script(ScriptCall(old(calls))))
      ensures ran.Some? ==> ran.value == Begin(old(Book()), w, attempt, true) && ran.value.mem[w] == attempt
      ensures ran.Some? && durable ==> Entry(ran.value.file, w) == Some(attempt)
      ensures ran.None? ==> err == OtherError && Book() == old(Book())
      // Success keeps the record in memory and on file; failure puts the old one back.
      ensures err == Nil ==> Entry(state, w) == Some(attempt) && (durable ==> Entry(Loaded(file), w) == Some(attempt))
      ensures err != Nil ==> Entry(state, w) == old(Entry(state, w))
      ensures err != UnknownWorker
      // When no other operation runs, nothing else is touched.
      ensures Alone() && ran.Some? && err == Nil ==> Book() == ran.value
      ensures Alone() && ran.Some? && err != Nil ==>
        || Book() == Rollback(ran.value, w, old(Entry(state, w)), true)
        || Book() == Rollback(ran.value, w, old(Entry(state, w)), false)
    {
      ghost var before := Book();
      ran := None;
      var previous := Entry(state, w);
      state := state[w := attempt];
      var saved := SaveLocked();
      if !saved {
        state := Put(state, w, previous);
        assert state == before.mem;
        return OtherError, ran;
      }
      ran := Some(Book());
      var outcome := RunScript(w);
      if outcome == Succeeded {
        return Nil, ran;
      }
      state := Put(state, w, previous);
      var rolledBack := SaveLocked();
      err := OutcomeError(outcome);
    }

    method Spawn(w: string, pool: string, requestId: string, now: nat) returns (err: Error, ghost ran: Option<Book>)
      requires Valid() && World(w)
      modifies this
      ensures Valid()
      ensures ran.Some? ==> ran.value == Begin(old(Book()), w, Spawned(w, pool, requestId, now), true)
      ensures ran.None? ==> err == OtherError && Book() == old(Book())
      ensures err ==
        if (!durable || saves(old(calls))) && script(ScriptCall(old(calls))) == Succeeded then Nil else OtherError
      ensures err == Nil ==> Entry(state, w) == Some(Record(w, pool, requestId, now, now))
      ensures err == Nil && durable ==> Entry(Loaded(file), w) == Some(Record(w, pool, requestId, now, now))
      ensures err != Nil ==> Entry(state, w) == old(Entry(state, w))
    {
      err, ran := Attempt(w, Spawned(w, pool, requestId, now));
      if err == WorkspaceMissing {
        err := OtherError;
      }
    }

    method Wake(w: string, requestId: string, now: nat) returns (err: Error, ghost ran: Option<Book>)
      requires Valid() && World(w)
      modifies this
      ensures Valid()
      ensures err == UnknownWorker <==> w !in old(state)
      ensures err == UnknownWorker ==> Book() == old(Book()) && ran.None?
      ensures ran.Some? ==>
        w in old(state) && ran.value == Begin(old(Book()), w, Woken(old(state)[w], requestId, now), true)
      ensures ran.None? ==> Book() == old(Book())
      ensures w in old(state) ==>
        err == if durable && !saves(old(calls)) then OtherError else OutcomeError(script(ScriptCall(old(calls))))
      // The record keeps pool and creation time, and takes the request unless it is empty.
      ensures err == Nil ==> w in old(state) && w in state && (durable ==> Entry(Loaded(file), w) == Some(state[w]))
      ensures err == Nil ==> state[w].id == w && state[w].pool == old(state)[w].pool
      ensures err == Nil ==> state[w].createdAt == old(state)[w].createdAt && state[w].lastActivity == now
      ensures err == Nil && requestId != "" ==> state[w].requestId == requestId
      ensures err == Nil && requestId == "" ==> state[w].requestId == old(state)[w].requestId
      ensures err != Nil ==> Entry(state, w) == old(Entry(state, w))
    {
      ran := None;
      if w !in state {
        return UnknownWorker, ran;
      }
      err, ran := Attempt(w, Woken(state[w], requestId, now));
    }

    /** A failing save leaves the change in memory only. */
    method RecordClaim(w: string, requestId: string, now: nat) returns (ok: bool)
      requires Valid()
      modifies this
      ensures Valid() && Book() == Stamp(old(Book()), w, requestId, now, ok)
      ensures w !in old(state) ==> ok
      ensures w in old(state) ==>
        state == old(state)[w := old(state)[w].(requestId := requestId, lastActivity := now)]
      ensures ok && durable && w in old(state) ==> Loaded(file) == state
      ensures !ok ==> file == old(file)
    {
      if w !in state {
        return true;
      }
      state := state[w := state[w].(requestId := requestId, lastActivity := now)];
      ok := SaveLocked();
    }

    /** The dispose script first, when there is one; then the record. */
    method Dispose(w: string, hasScript: bool) returns (ok: bool)
      requires Valid() && World(w)
      modifies this
      ensures Valid()
      // A failing script keeps the record; otherwise it goes, and a failing save does not bring it back.
      ensures hasScript && script(old(calls)) != Succeeded ==> !ok && Entry(state, w) == old(Entry(state, w))
      ensures !hasScript || script(old(calls)) == Succeeded ==> w !in state && (ok && durable ==> w !in Loaded(file))
      ensures ok <==>
        (!hasScript || script(old(calls)) == Succeeded) && (!durable || saves(old(calls) + if hasScript then 1 else 0))
      ensures Alone() && ok ==> Book() == Remove(old(Book()), w, true)
    {
      if hasScript {
        var outcome := RunScript(w);
        if outcome != Succeeded {
          return false;
        }
      }
      state := state - {w};
      ok := SaveLocked();
    }

    method ListWorkers() returns (out: seq<WorkerInfo>)
      requires Valid()
      ensures forall i, j :: 0 <= i < j < |out| ==> Less(out[i].id, out[j].id)
      // Every record, and what it says, with unknown liveness.
      ensures forall w :: w in state <==> exists x :: x in out && x.id == w
      ensures forall x :: x in out ==> x.id in state && x.pool == state[x.id].pool
      ensures forall x :: x in out ==> x.requestId == state[x.id].requestId
      ensures forall x :: x in out ==> x.live.None? && !x.startupTimedOut
      ensures forall x :: x in out ==>
        x.lastActivity == state[x.id].lastActivity && x.createdAt == state[x.id].createdAt
    {
      var recs := Records(state);
      out := seq(|recs|, i requires 0 <= i < |recs| => Info(recs[i]));
      forall x | x in out ensures x.id in state && x == Info(state[x.id]) {
        var i :| 0 <= i < |out| && out[i] == x;
        assert recs[i] in recs;
      }
      forall w | w in state ensures exists x :: x in out && x.id == w {
        assert state[w] in state.Values;
        var i :| 0 <= i < |recs| && recs[i] == state[w];
        assert out[i].id == w;
      }
    }
  }

  function Info(r: Record): WorkerInfo {
    WorkerInfo(r.id, r.pool, r.requestId, None, false, r.lastActivity, r.createdAt)
  }
}
