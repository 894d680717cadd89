/** Which request ListWorkers names when a worker's objects name different ones
    (internal/backend/kube/kube.go:274-276, 298-300), and exactly when that does not
    depend on the order in which they are listed. */
module KubeRequest {
  import opened Common
  import Sorting

  /** A pod as this question sees it: the request it names ("" for none), its claim
      stamp, and its latest activity, which is never before the stamp. */
  datatype Claimant = Claimant(request: string, claimed: nat, active: nat)

  /** A record in the making: the request it names so far, and the latest activity met. */
  datatype Held = Held(request: string, active: nat)

  predicate Takes(h: Held, o: Claimant) { o.request != "" && (h.request == "" || o.claimed > h.active) }

  function Meet(h: Held, o: Claimant): Held {
    Held(if Takes(h, o) then o.request else h.request, if o.active > h.active then o.active else h.active)
  }

  function MeetAll(h: Held, os: seq<Claimant>): Held
    decreases |os|
  {
    if os == [] then h else MeetAll(Meet(h, os[0]), os[1..])
  }

  predicate Sane(os: seq<Claimant>) { forall o :: o in os ==> o.claimed <= o.active }

  lemma {:induction false} MeetConcat(h: Held, a: seq<Claimant>, b: seq<Claimant>)
    ensures MeetAll(h, a + b) == MeetAll(MeetAll(h, a), b)
    decreases |a|
  {
    if a == [] {
      assert a + b == b;
    } else {
      MeetConcat(Meet(h, a[0]), a[1..], b);
      assert (a + b)[1..] == a[1..] + b;
    }
  }

  // ---- the two ways in which a request is settled --------------------------------------

  /** Nobody who could take over from the start names another request, and some object,
      or the start itself, names this one. */
  predicate Unanimous(h: Held, os: seq<Claimant>, r: string) {
    && (forall o :: o in os && Takes(h, o) ==> o.request == r)
    && (h.request == r || (h.request == "" && exists o :: o in os && o.request == r))
  }

  predicate Since1(o: Claimant, r: string, t: nat) { o.request == r && o.claimed >= t }

  /** From some moment on, everyone still active was claimed for this request, at that
      moment or later. */
  predicate Since(h: Held, os: seq<Claimant>, r: string, t: nat) {
    && h.active < t
    && (forall o :: o in os ==> o.active < t || Since1(o, r, t))
    && (exists o :: o in os && Since1(o, r, t))
  }

  ghost predicate Decided(h: Held, os: seq<Claimant>,
      r: string) { Unanimous(h, os, r) || exists t :: Since(h, os, r, t) }

  // ---- each is enough ----------------------------------------------------------------------

  lemma {:induction false} UnanimousHolds(h: Held, os: seq<Claimant>, r: string)
    requires r != "" && Unanimous(h, os, r)
    ensures MeetAll(h, os).request == r
    decreases |os|
  {
    if os != [] {
      var o, rest := os[0], os[1..];
      assert o in os && forall x :: x in rest ==> x in os;
      assert forall x :: x in os ==> x == o || x in rest;
      UnanimousHolds(Meet(h, o), rest, r);
    }
  }

  lemma {:induction false} SinceStays(h: Held, os: seq<Claimant>, r: string, t: nat)
    requires r != "" && Sane(os) && h.request == r && h.active >= t
    requires forall o :: o in os ==> o.active < t || Since1(o, r, t)
    ensures MeetAll(h, os).request == r
    decreases |os|
  {
    if os != [] {
      assert os[0] in os && forall x :: x in os[1..] ==> x in os;
      SinceStays(Meet(h, os[0]), os[1..], r, t);
    }
  }

  lemma {:induction false} SinceHolds(h: Held, os: seq<Claimant>, r: string, t: nat)
    requires r != "" && Sane(os) && Since(h, os, r, t)
    ensures MeetAll(h, os).request == r
    decreases |os|
  {
    var o, rest := os[0], os[1..];
    assert o in os && forall x :: x in rest ==> x in os;
    assert forall x :: x in os ==> x == o || x in rest;
    if Since1(o, r, t) {
      SinceStays(Meet(h, o), rest, r, t);
    } else {
      SinceHolds(Meet(h, o), rest, r, t);
    }
  }

  lemma DecidedHolds(h: Held, os: seq<Claimant>, r: string)
    requires r != "" && Sane(os) && Decided(h, os, r)
    ensures MeetAll(h, os).request == r
  {
    if Unanimous(h, os, r) {
      UnanimousHolds(h, os, r);
    } else {
      var t :| Since(h, os, r, t);
      SinceHolds(h, os, r, t);
    }
  }

  // ---- and nothing else is -------------------------------------------------------------------

  /** Objects no more active than what was met change nothing. */
  lemma {:induction false} NoneTakes(h: Held, os: seq<Claimant>)
    requires h.request != "" && Sane(os) && forall o :: o in os ==> o.claimed <= h.active
    ensures MeetAll(h, os).request == h.request
    decreases |os|
  {
    if os != [] {
      assert os[0] in os && forall x :: x in os[1..] ==> x in os;
      NoneTakes(Meet(h, os[0]), os[1..]);
    }
  }

  /** Each object's activity keeps the next from taking over. */
  predicate Chained(c: seq<Claimant>) { forall i :: 0 <= i < |c| - 1 ==> c[i + 1].claimed <= c[i].active }

  lemma {:induction false} ChainTakesNothing(h: Held, c: seq<Claimant>)
    requires h.request != "" && c != [] && Chained(c) && c[0].claimed <= h.active
    ensures MeetAll(h, c).request == h.request && MeetAll(h, c).active >= c[|c| - 1].active
    decreases |c|
  {
    var next := Meet(h, c[0]);
    if |c| > 1 {
      assert c[0 + 1].claimed <= c[0].active;
      var rest := c[1..];
      forall i | 0 <= i < |rest| - 1 ensures rest[i + 1].claimed <= rest[i].active {
        assert c[i + 1 + 1].claimed <= c[i + 1].active;
      }
      ChainTakesNothing(next, c[1..]);
    } else {
      assert c[1..] == [];
    }
  }

  /** After a start that names another request, a chain that ends with the most active
      object keeps everyone from taking over. */
  lemma ChainBlocks(h: Held, c: seq<Claimant>, rest: seq<Claimant>)
    requires h.request != "" && c != [] && Chained(c) && c[0].claimed <= h.active && Sane(rest)
    requires forall o :: o in rest ==> o.active <= c[|c| - 1].active
    ensures MeetAll(h, c + rest).request == h.request
  {
    ChainTakesNothing(h, c);
    MeetConcat(h, c, rest);
    forall o | o in rest ensures o.claimed <= MeetAll(h, c).active {}
    NoneTakes(MeetAll(h, c), rest);
  }

  lemma Without<T>(s: seq<T>, x: T) returns (rest: seq<T>)
    requires x in s
    ensures multiset(s) == multiset{x} + multiset(rest) && |rest| == |s| - 1
    ensures forall y :: y in rest ==> y in s
    ensures forall y :: y in s ==> y == x || y in rest
  {
    var i :| 0 <= i < |s| && s[i] == x;
    rest := s[..i] + s[i + 1..];
    assert s == s[..i] + [x] + s[i + 1..];
  }

  /** From a start naming another request: grow the chain downwards until an object that
      names another request can start it, or a moment is found since which all is decided. */
  lemma GrowChain(h: Held, os: seq<Claimant>, r: string, c: seq<Claimant>,
      rest: seq<Claimant>) returns (p: seq<Claimant>)
    requires h.request != "" && h.request != r && r != "" && Sane(os) && multiset(c + rest) == multiset(os)
    requires c != [] && Chained(c) && forall o :: o in c ==> o.request == r && o.claimed >= c[0].claimed
    requires forall o :: o in rest ==> o.active <= c[|c| - 1].active
    requires forall t :: !Since(h, os, r, t)
    ensures multiset(p) == multiset(os) && MeetAll(h, p).request != r
    decreases c[0].claimed
  {
    if c[0].claimed <= h.active {
      ChainParts(os, c, rest);
      ChainBlocks(h, c, rest);
      return c + rest;
    }
    var x := Blocker(h, os, r, c, rest);
    var less := Without(rest, x);
    RestParts(os, c, rest, x, less);
    hide Sane, Chained;
    if x.request != r {
      ChainBlocks(Meet(h, x), c, less);
      p := [x] + (c + less);
      assert p[1..] == c + less;
    } else {
      ChainGrows(x, c);
      assert ([x] + c)[|c|] == c[|c| - 1];
      p := GrowChain(h, os, r, [x] + c, less);
    }
  }

  lemma ChainParts(os: seq<Claimant>, c: seq<Claimant>, rest: seq<Claimant>)
    requires Sane(os) && multiset(c + rest) == multiset(os)
    ensures Sane(c) && Sane(rest) && forall o :: o in os <==> o in c || o in rest
  {
    Sorting.SameElements(c + rest, os);
    assert forall o :: o in c + rest <==> o in c || o in rest;
  }

  lemma RestParts(os: seq<Claimant>, c: seq<Claimant>, rest: seq<Claimant>, x: Claimant, less: seq<Claimant>)
    requires Sane(os) && multiset(c + rest) == multiset(os) && multiset(rest) == multiset{x} + multiset(less)
    ensures Sane(less) && multiset([x] + (c + less)) == multiset(os) && multiset([x] + c + less) == multiset(os)
    ensures x.claimed <= x.active
  {
    ChainParts(os, c, rest);
    assert x in multiset(rest);
    assert forall o :: o in less ==> o in multiset(rest);
  }

  lemma ChainGrows(x: Claimant, c: seq<Claimant>)
    requires c != [] && Chained(c) && c[0].claimed <= x.active
    ensures Chained([x] + c)
  {
    var d := [x] + c;
    forall i | 0 <= i < |d| - 1 ensures d[i + 1].claimed <= d[i].active {
      if i > 0 { assert c[i - 1 + 1].claimed <= c[i - 1].active; }
    }
  }

  /** Since nothing is decided at the chain's first stamp, somebody else was active then. */
  lemma Blocker(h: Held, os: seq<Claimant>, r: string, c: seq<Claimant>, rest: seq<Claimant>) returns (x: Claimant)
    requires Sane(os) && multiset(c + rest) == multiset(os) && c != [] && h.active < c[0].claimed
    requires forall o :: o in c ==> o.request == r && o.claimed >= c[0].claimed
    requires forall t :: !Since(h, os, r, t)
    ensures x in rest && x.active >= c[0].claimed && (x.request != r || x.claimed < c[0].claimed)
  {
    var t := c[0].claimed;
    ChainParts(os, c, rest);
    assert c[0] in c && Since1(c[0], r, t) && !Since(h, os, r, t);
    x :| x in os && !(x.active < t || Since1(x, r, t));
  }

  lemma {:induction false} MostActive(os: seq<Claimant>) returns (m: Claimant)
    requires os != []
    ensures m in os && forall o :: o in os ==> o.active <= m.active
    decreases |os|
  {
    m := os[0];
    if |os| > 1 {
      var n := MostActive(os[1..]);
      assert forall o :: o in os ==> o == os[0] || o in os[1..];
      if n.active > m.active { m := n; }
    }
  }

  /** From a start naming another request, unless a moment decides, some order ends with
      another request. */
  lemma SomeOrderDiffers(h: Held, os: seq<Claimant>, r: string) returns (p: seq<Claimant>)
    requires h.request != "" && h.request != r && r != "" && Sane(os) && forall t :: !Since(h, os, r, t)
    ensures multiset(p) == multiset(os) && MeetAll(h, p).request != r
  {
    if os == [] {
      return [];
    }
    var m := MostActive(os);
    var rest := Without(os, m);
    assert Sane(rest) && multiset([m] + rest) == multiset(os);
    if m.request == r && m.claimed > h.active {
      p := GrowChain(h, os, r, [m], rest);
    } else {
      p := [m] + rest;
      assert p[1..] == rest;
      forall o | o in rest ensures o.claimed <= Meet(h, m).active {}
      NoneTakes(Meet(h, m), rest);
    }
  }

  lemma {:induction false} NobodyNames(h: Held, os: seq<Claimant>)
    requires h.request == ""
    ensures MeetAll(h, os).request == "" <==> forall o :: o in os ==> o.request == ""
    decreases |os|
  {
    if os != [] {
      assert forall o :: o in os <==> o == os[0] || o in os[1..];
      if os[0].request == "" { NobodyNames(Meet(h, os[0]), os[1..]); } else { StaysNamed(Meet(h, os[0]), os[1..]); }
    }
  }

  lemma {:induction false} StaysNamed(h: Held, os: seq<Claimant>)
    requires h.request != ""
    ensures MeetAll(h, os).request != ""
    decreases |os|
  {
    if os != [] { StaysNamed(Meet(h, os[0]), os[1..]); }
  }

  lemma UndecidedOrder(h: Held, os: seq<Claimant>, r: string) returns (p: seq<Claimant>)
    requires r != "" && Sane(os) && !Decided(h, os, r)
    ensures multiset(p) == multiset(os) && MeetAll(h, p).request != r
  {
    if h.request != "" && h.request != r {
      p := SomeOrderDiffers(h, os, r);
    } else if x :| x in os && Takes(h, x) && x.request != r {
      var rest := Without(os, x);
      forall t ensures !Since(Meet(h, x), rest, r, t) {
        if Since(Meet(h, x), rest, r, t) { assert Since(h, os, r, t); }
      }
      var q := SomeOrderDiffers(Meet(h, x), rest, r);
      p := [x] + q;
      assert p[1..] == q;
    } else {
      NobodyNames(h, os);
      p := os;
    }
  }

  /** Every order of the objects ends with this request. */
  ghost predicate EveryOrder(h: Held, os: seq<Claimant>, r: string) {
    forall p :: multiset(p) == multiset(os) ==> MeetAll(h, p).request == r
  }

  lemma DecidedAnyOrder(h: Held, os: seq<Claimant>, p: seq<Claimant>, r: string)
    requires multiset(p) == multiset(os) && Decided(h, os, r)
    ensures Decided(h, p, r)
  {
    Sorting.SameElements(p, os);
    if !Unanimous(h, os, r) {
      var t :| Since(h, os, r, t);
      assert Since(h, p, r, t);
    }
  }

  /** The exact condition: all orders name `r` if and only if it is unanimous among those
      who could take over, or decided since some moment. */
  lemma EveryOrderExactlyWhen(h: Held, os: seq<Claimant>, r: string)
    requires r != "" && Sane(os)
    ensures EveryOrder(h, os, r) <==> Decided(h, os, r)
  {
    if Decided(h, os, r) {
      forall p | multiset(p) == multiset(os) ensures MeetAll(h, p).request == r {
        DecidedAnyOrder(h, os, p, r);
        Sorting.SameElements(p, os);
        DecidedHolds(h, p, r);
      }
    } else {
      var p := UndecidedOrder(h, os, r);
    }
  }
}
