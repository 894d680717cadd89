/** The client's pagination loops (internal/cursorapi/client.go ListAllPendingRequests,
    ListAllWorkers), against the server's offset tokens and against any paged source. */
module Paging {
  import opened Common
  import opened CursorTypes
  import opened Fleet
  import opened FleetInvariant
  import opened FleetServer

  const PAGE_BOUND := 100
  const PAGE_SIZE := 100

  // ---- pending requests, from the fleet server ----------------------------------------

  lemma {:induction false} ListedIgnoresCursors(s: State, s': State, ids: seq<string>, pool: string)
    requires forall i :: i in ids ==> i in s.requests
    requires s' == s.(cursors := s'.cursors)
    ensures Listed(s', ids, pool) == Listed(s, ids, pool)
  {
    if ids != [] {
      ListedIgnoresCursors(s, s', ids[..|ids| - 1], pool);
    }
  }

  /** A listing never shows a request twice. */
  lemma {:induction false} ListedDistinct(s: State, ids: seq<string>, pool: string)
    requires forall i :: i in ids ==> i in s.requests && s.requests[i].id == i
    requires forall i, j :: 0 <= i < j < |ids| ==> ids[i] != ids[j]
    ensures forall v :: v in Listed(s, ids, pool) ==> v.id in ids
    ensures forall i, j ::
        0 <= i < j < |Listed(s, ids, pool)| ==> Listed(s, ids, pool)[i].id != Listed(s, ids, pool)[j].id
  {
    if ids != [] {
      var front := ids[..|ids| - 1];
      ListedDistinct(s, front, pool);
      assert ids == front + [ids[|ids| - 1]];
      forall i | 0 <= i < |Listed(s, front, pool)| ensures Listed(s, front, pool)[i].id != ids[|ids| - 1] {
        assert Listed(s, front, pool)[i] in Listed(s, front, pool);
      }
    }
  }

  lemma PageCut(all: seq<PendingRequest>, start: nat, token: string, cursor: string)
    requires start <= |all| && Atoi(token) == start
    ensures CutPage(all, PAGE_SIZE, token, cursor)
         == Some(Page(all[start..Min(start + 100, |all|)],
                      if start + 100 < |all| then Decimal(start + 100) else "", cursor))
  {
  }

  /** The whole listing of `pool`, as one page would show it. */
  function Pending(s: State, pool: string): seq<PendingRequest>
    requires OrderKnown(s)
  {
    Listed(s, s.order, pool)
  }

  /** One call: the page at `start`, and a cursor issued. */
  method FetchPage(server: Server, pool: string, start: nat, token: string, nowMs: int) returns (page: Page)
    requires server.Valid() && OrderKnown(server.Model())
    requires start <= |Pending(server.Model(), pool)| && Atoi(token) == start
    modifies server`cursors
    ensures server.Valid() && server.Model() == old(server.Model()).(cursors := server.cursors)
    ensures OrderKnown(server.Model()) && Pending(server.Model(), pool) == old(Pending(server.Model(), pool))
    ensures var pending := old(Pending(server.Model(), pool));
      page == Page(pending[start..Min(start + 100, |pending|)],
                   if start + 100 < |pending| then Decimal(start + 100) else "",
                   CursorText(server.lastSeq))
  {
    hide Inv, Listed, CutPage;
    ghost var s := server.Model();
    PageCut(Pending(s, pool), start, token, CursorText(s.lastSeq));
    var reply := server.ListPending(pool, PAGE_SIZE, token, nowMs);
    page := reply.value;
    ListedIgnoresCursors(s, server.Model(), s.order, pool);
  }

  lemma NextPage(pending: seq<PendingRequest>, start: nat)
    requires start <= |pending|
    ensures pending[..start] + pending[start..Min(start + 100, |pending|)] == pending[..Min(start + 100, |pending|)]
  {
  }

  lemma TokenReadsBack(n: nat)
    ensures Atoi(Decimal(n)) == n && Decimal(n) != ""
    ensures forall m: nat :: Decimal(m) == Decimal(n) ==> m == n
  {
    DecimalRoundTrip(n);
    forall m: nat | Decimal(m) == Decimal(n) ensures m == n { DecimalRoundTrip(m); }
    hide Decimal;
  }

  lemma NoTokenIsZero()
    ensures Atoi("") == 0
  {
    assert ParseInt("") == None;
  }

  /** Against a server nobody else changes, following the tokens 100 at a time
      returns the first 10000 pending requests, in order, with the first page's
      cursor; only cursors are issued. */
  method ListAllPendingRequests(server: Server, pool: string, clock: nat -> int)
      returns (all: seq<PendingRequest>, cursor: string)
    requires server.Valid() && OrderKnown(server.Model())
    modifies server`cursors
    ensures server.Valid() && server.Model() == old(server.Model()).(cursors := server.cursors)
    ensures var pending := old(Pending(server.Model(), pool)); all == pending[..Min(|pending|, 10_000)]
    ensures cursor == CursorText(old(server.lastSeq))
  {
    hide Inv, Listed;
    ghost var s := server.Model();
    ghost var pending := Pending(s, pool);
    hide Pending, OrderKnown, Decimal, CursorText;
    all, cursor := [], "";
    var token := "";
    NoTokenIsZero();
    hide Atoi;
    for i := 0 to PAGE_BOUND
      invariant server.Valid() && server.Model() == s.(cursors := server.cursors)
      invariant OrderKnown(server.Model()) && Pending(server.Model(), pool) == pending
      invariant i == 0 || 100 * i < |pending|
      invariant all == pending[..100 * i] && Atoi(token) == 100 * i
      invariant if i == 0 then token == "" else token == Decimal(100 * i) && cursor == CursorText(s.lastSeq)
    {
      var page := FetchPage(server, pool, 100 * i, token, clock(i));
      if i == 0 {
        cursor := page.cursor;
      }
      NextPage(pending, 100 * i);
      all := all + page.requests;
      TokenReadsBack(100 * i + 100);
      if page.next == "" || page.next == token {
        return;
      }
      token := page.next;
    }
  }

  // ---- workers, from any paged source ---------------------------------------------------

  datatype WorkersPage = WorkersPage(workers: seq<string>, next: string)

  /** What the source answers to call number `n` with a token; None is an error. */
  type Source = (nat, string) -> Option<WorkersPage>

  /** The token sent with call `n`. */
  function TokenAt(source: Source, first: string, n: nat): string {
    if n == 0 then first
    else match source(n - 1, TokenAt(source, first, n - 1)) case Some(p) => p.next case None => ""
  }

  function Answer(source: Source, first: string, n: nat): Option<WorkersPage> { source(n, TokenAt(source, first, n)) }

  /** The first `n` answers arrived and each pointed to another page. */
  ghost predicate GoesOn(source: Source, first: string, n: nat) {
    forall i: nat :: i < n ==> Answer(source, first, i).Some? && Answer(source, first, i).value.next != ""
  }

  /** The workers of the first `n` pages, in order. */
  function Concat(source: Source, first: string, n: nat): seq<string> {
    if n == 0 then []
    else Concat(source, first, n - 1) + (match Answer(source, first, n - 1) case Some(p) => p.workers case None => [])
  }

  /** The listing ends on page `n` (counted from 0), which points nowhere. */
  ghost predicate EndsAt(source: Source, first: string, n: nat) {
    GoesOn(source, first, n) && Answer(source, first, n).Some? && Answer(source, first, n).value.next == ""
  }

  /** All pages or an error, never a truncated list: it succeeds exactly when the
      source ends within 100 pages, and then returns every page's workers. */
  method ListAllWorkers(source: Source, first: string) returns (workers: Option<seq<string>>)
    ensures workers.Some? <==> exists n: nat :: n < 100 && EndsAt(source, first, n)
    ensures forall n: nat :: EndsAt(source, first, n) && workers.Some? ==> workers.value == Concat(source, first, n + 1)
  {
    var all := [];
    var token := first;
    for i := 0 to PAGE_BOUND
      invariant token == TokenAt(source, first, i) && all == Concat(source, first, i) && GoesOn(source, first, i)
    {
      var page := source(i, token);
      assert page == Answer(source, first, i);
      if page.None? {
        forall n: nat { NoEndYet(source, first, i, n); }
        return None;
      }
      all := all + page.value.workers;
      if page.value.next == "" {
        assert EndsAt(source, first, i);
        forall n: nat | EndsAt(source, first, n) ensures n == i { EndIsUnique(source, first, i, n); }
        return Some(all);
      }
      token := page.value.next;
    }
    forall n: nat { NoEndYet(source, first, PAGE_BOUND, n); }
    workers := None;
  }

  lemma EndIsUnique(source: Source, first: string, n: nat, m: nat)
    requires EndsAt(source, first, n) && EndsAt(source, first, m)
    ensures m == n
  {
  }

  /** Pages that go on, up to an error or up to the bound, have not ended. */
  lemma NoEndYet(source: Source, first: string, n: nat, m: nat)
    requires GoesOn(source, first, n) && (n == PAGE_BOUND || Answer(source, first, n).None?)
    ensures m < PAGE_BOUND ==> !EndsAt(source, first, m)
  {
  }
}
