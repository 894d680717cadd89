/** `sort.Slice`, as far as its callers rely on it: a permutation in order. */
module Sorting {
  import opened Common

  /** `before` orders like a total preorder: never both ways, and ties chain. */
  ghost predicate WeakOrder<T(!new)>(before: (T, T) -> bool) {
    && (forall x, y :: before(x, y) ==> !before(y, x))
    && (forall x, y, z :: !before(y, x) && !before(z, y) ==> !before(z, x))
  }

  /** Comparing string keys orders like that. */
  lemma KeyOrders<T(!new)>(before: (T, T) -> bool, key: T -> string)
    requires forall x, y :: before(x, y) <==> Less(key(x), key(y))
    ensures WeakOrder(before)
  {
    forall x, y | before(x, y) ensures !before(y, x) { LessTotal(key(x), key(y)); }
    forall x, y, z | !before(y, x) && !before(z, y) ensures !before(z, x) { NotLessChains(key(x), key(y), key(z)); }
  }

  ghost predicate InOrder<T(!new)>(s: seq<T>, before: (T, T) -> bool) {
    forall i, j :: 0 <= i < j < |s| ==> !before(s[j], s[i])
  }

  method Insert<T(!new)>(x: T, s: seq<T>, before: (T, T) -> bool) returns (r: seq<T>)
    requires WeakOrder(before) && InOrder(s, before)
    ensures InOrder(r, before) && multiset(r) == multiset(s) + multiset{x}
  {
    var k := 0;
    while k < |s| && !before(x, s[k])
      invariant 0 <= k <= |s|
      invariant forall i :: 0 <= i < k ==> !before(x, s[i])
    {
      k := k + 1;
    }
    r := s[..k] + [x] + s[k..];
    Inserted(x, s, k, before);
  }

  lemma Inserted<T(!new)>(x: T, s: seq<T>, k: nat, before: (T, T) -> bool)
    requires WeakOrder(before) && InOrder(s, before) && k <= |s|
    requires forall i :: 0 <= i < k ==> !before(x, s[i])
    requires k < |s| ==> before(x, s[k])
    ensures InOrder(s[..k] + [x] + s[k..], before)
    ensures multiset(s[..k] + [x] + s[k..]) == multiset(s) + multiset{x}
  {
    assert s == s[..k] + s[k..];
    var r := s[..k] + [x] + s[k..];
    forall i, j | 0 <= i < j < |r| ensures !before(r[j], r[i]) {
      InsertedPair(x, s, k, before, i, j);
    }
  }

  lemma InsertedPair<T(!new)>(x: T, s: seq<T>, k: nat, before: (T, T) -> bool, i: nat, j: nat)
    requires WeakOrder(before) && InOrder(s, before) && k <= |s| && i < j <= |s|
    requires forall i :: 0 <= i < k ==> !before(x, s[i])
    requires k < |s| ==> before(x, s[k])
    ensures var r := s[..k] + [x] + s[k..]; !before(r[j], r[i])
  {
    var r := s[..k] + [x] + s[k..];
    assert r[i] == if i < k then s[i] else if i == k then x else s[i - 1];
    assert r[j] == if j < k then s[j] else if j == k then x else s[j - 1];
    if i == k {
      assert !before(s[k], x);
      if j - 1 > k { assert !before(s[j - 1], s[k]); }
    } else if j == k {
      assert !before(x, s[i]);
    } else if i < k {
      assert !before(s[if j < k then j else j - 1], s[i]);
    }
  }

  method Sort<T(!new)>(s: seq<T>, before: (T, T) -> bool) returns (r: seq<T>)
    requires WeakOrder(before)
    ensures InOrder(r, before) && multiset(r) == multiset(s)
  {
    r := [];
    for i := 0 to |s|
      invariant InOrder(r, before) && multiset(r) == multiset(s[..i])
    {
      assert s[..i + 1] == s[..i] + [s[i]];
      r := Insert(s[i], r, before);
    }
    assert s[..|s|] == s;
  }

  lemma SameElements<T>(a: seq<T>, b: seq<T>)
    requires multiset(a) == multiset(b)
    ensures |a| == |b| && forall x :: x in a <==> x in b
  {
    assert |multiset(a)| == |a| && |multiset(b)| == |b|;
    forall x ensures x in a <==> x in b {
      assert x in a <==> x in multiset(a);
      assert x in b <==> x in multiset(b);
    }
  }

  // ---- distinct keys make the order strict ---------------------------------------------

  ghost predicate Distinct<T(!new)>(s: seq<T>, key: T -> string) {
    forall i, j :: 0 <= i < j < |s| ==> key(s[i]) != key(s[j])
  }

  lemma Twice<T>(s: seq<T>, i: nat, j: nat)
    requires i < j < |s| && s[i] == s[j]
    ensures multiset(s)[s[i]] >= 2
  {
    assert s == s[..i] + [s[i]] + s[i + 1..j] + [s[j]] + s[j + 1..];
  }

  lemma Once<T(!new)>(s: seq<T>, key: T -> string, a: nat)
    requires a < |s| && Distinct(s, key)
    ensures multiset(s)[s[a]] == 1
  {
    assert s == s[..a] + [s[a]] + s[a + 1..];
    assert s[a] !in s[..a] && s[a] !in s[a + 1..];
  }

  /** Sorting keeps keys distinct: two elements with one key would be one listed twice. */
  lemma StillDistinct<T(!new)>(out: seq<T>, s: seq<T>, key: T -> string, i: nat, j: nat)
    requires multiset(out) == multiset(s) && i < j < |out| && Distinct(s, key)
    ensures key(out[i]) != key(out[j])
  {
    SameElements(out, s);
    assert out[i] in out && out[j] in out;
    var a :| 0 <= a < |s| && s[a] == out[i];
    var b :| 0 <= b < |s| && s[b] == out[j];
    Once(s, key, a);
    if out[i] == out[j] { Twice(out, i, j); }
  }

  lemma SortedStrictly<T(!new)>(out: seq<T>, s: seq<T>, before: (T, T) -> bool, key: T -> string)
    requires InOrder(out, before) && multiset(out) == multiset(s) && Distinct(s, key)
    requires forall x, y :: before(x, y) <==> Less(key(x), key(y))
    ensures forall i, j :: 0 <= i < j < |out| ==> Less(key(out[i]), key(out[j]))
  {
    forall i, j | 0 <= i < j < |out| ensures Less(key(out[i]), key(out[j])) {
      LessTotal(key(out[i]), key(out[j]));
      StillDistinct(out, s, key, i, j);
      assert !before(out[j], out[i]);
    }
  }
}
