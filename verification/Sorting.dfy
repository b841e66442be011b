/** Stable sorting by a comparison, shared by every part that orders rows by time. */
module Sorting {

  /** Compares any two elements, and chains. */
  ghost predicate TotalOrder<T(!new)>(le: (T, T) -> bool) {
    (forall a, b :: le(a, b) || le(b, a)) && (forall a, b, c :: le(a, b) && le(b, c) ==> le(a, c))
  }

  predicate SortedBy<T>(s: seq<T>, le: (T, T) -> bool) {
    forall i, j :: 0 <= i < j < |s| ==> le(s[i], s[j])
  }

  /** The elements that tie with x, in their order. */
  function Peers<T>(s: seq<T>, le: (T, T) -> bool, x: T): seq<T> {
    if s == [] then []
    else
      var last := s[|s| - 1];
      Peers(s[..|s| - 1], le, x) + (if le(last, x) && le(x, last) then [last] else [])
  }

  lemma {:induction false} PeersOfConcat<T>(s: seq<T>, t: seq<T>, le: (T, T) -> bool, x: T)
    ensures Peers(s + t, le, x) == Peers(s, le, x) + Peers(t, le, x)
  {
    if t == [] {
      assert s + t == s;
    } else {
      PeersOfConcat(s, t[..|t| - 1], le, x);
      assert (s + t)[..|s + t| - 1] == s + t[..|t| - 1];
    }
  }

  lemma {:induction false} NoPeersAbove<T(!new)>(s: seq<T>, le: (T, T) -> bool, x: T)
    requires forall i :: 0 <= i < |s| ==> !le(s[i], x)
    ensures Peers(s, le, x) == []
  {
    if s != [] {
      NoPeersAbove(s[..|s| - 1], le, x);
    }
  }

  lemma Chains<T(!new)>(le: (T, T) -> bool, a: T, b: T, c: T)
    requires TotalOrder(le)
    ensures le(a, b) && le(b, c) ==> le(a, c)
  {
  }

  /** What is after x is after everything that ties with x. */
  lemma AboveItsPeers<T(!new)>(s: seq<T>, k: nat, x: T, le: (T, T) -> bool, a: T)
    requires TotalOrder(le) && k <= |s| && forall j :: k <= j < |s| ==> !le(s[j], x)
    requires le(x, a) && le(a, x)
    ensures Peers(s[k..], le, a) == []
  {
    var t := s[k..];
    forall i | 0 <= i < |t| ensures !le(t[i], a) {
      assert t[i] == s[k + i];
      Chains(le, t[i], a, x);
    }
    NoPeersAbove(t, le, a);
  }

  /** Inserting x behind everything not after it leaves every tie in order. */
  lemma InsertedKeeps<T(!new)>(s: seq<T>, k: nat, x: T, le: (T, T) -> bool, a: T)
    requires TotalOrder(le) && k <= |s| && forall j :: k <= j < |s| ==> !le(s[j], x)
    ensures Peers(s[..k] + [x] + s[k..], le, a) == Peers(s + [x], le, a)
  {
    if le(x, a) && le(a, x) {
      AboveItsPeers(s, k, x, le, a);
    } else {
      assert Peers([x], le, a) == [];
    }
    PeersAround(s[..k], [x], s[k..], le, a);
    assert s[..k] + s[k..] == s;
  }

  /** The middle may move behind the end when one of the two has no peers of a. */
  lemma PeersAround<T>(front: seq<T>, middle: seq<T>, end: seq<T>, le: (T, T) -> bool, a: T)
    requires Peers(middle, le, a) == [] || Peers(end, le, a) == []
    ensures Peers(front + middle + end, le, a) == Peers(front + end + middle, le, a)
  {
    PeersOfConcat(front + middle, end, le, a);
    PeersOfConcat(front, middle, le, a);
    PeersOfConcat(front + end, middle, le, a);
    PeersOfConcat(front, end, le, a);
    EitherEmpty(Peers(front, le, a), Peers(middle, le, a), Peers(end, le, a));
  }

  lemma EitherEmpty<T>(front: seq<T>, middle: seq<T>, end: seq<T>)
    requires middle == [] || end == []
    ensures front + middle + end == front + end + middle
  {
  }

  lemma InsertedAmong<T>(s: seq<T>, k: nat, x: T)
    requires k <= |s|
    ensures multiset(s[..k] + [x] + s[k..]) == multiset(s) + multiset{x}
  {
    assert s[..k] + s[k..] == s;
    assert multiset(s[..k] + [x] + s[k..]) == multiset(s[..k]) + multiset([x]) + multiset(s[k..]);
    assert multiset(s) == multiset(s[..k]) + multiset(s[k..]);
  }

  method Insert<T(!new)>(s: seq<T>, x: T, le: (T, T) -> bool) returns (r: seq<T>)
    requires TotalOrder(le) && SortedBy(s, le)
    ensures SortedBy(r, le) && multiset(r) == multiset(s) + multiset{x}
    ensures forall a :: Peers(r, le, a) == Peers(s + [x], le, a)
  {
    var k := |s|;
    while k > 0 && !le(s[k - 1], x)
      invariant 0 <= k <= |s| && forall j :: k <= j < |s| ==> !le(s[j], x)
    {
      k := k - 1;
    }
    r := s[..k] + [x] + s[k..];
    InsertedAmong(s, k, x);
    forall a ensures Peers(r, le, a) == Peers(s + [x], le, a) {
      InsertedKeeps(s, k, x, le, a);
    }
    SortedAround(s, k, x, le);
  }

  lemma SortedAround<T(!new)>(s: seq<T>, k: nat, x: T, le: (T, T) -> bool)
    requires TotalOrder(le) && SortedBy(s, le) && k <= |s|
    requires (k > 0 ==> le(s[k - 1], x)) && forall j :: k <= j < |s| ==> !le(s[j], x)
    ensures SortedBy(s[..k] + [x] + s[k..], le)
  {
    forall j | 0 <= j < k ensures le(s[j], x) {
      assert j < k - 1 ==> le(s[j], s[k - 1]);
    }
    assert forall j :: k <= j < |s| ==> le(x, s[j]);
  }

  /** Sorted, a permutation, and stable: which pins the result down. */
  method StableSort<T(!new)>(xs: seq<T>, le: (T, T) -> bool) returns (r: seq<T>)
    requires TotalOrder(le)
    ensures SortedBy(r, le) && multiset(r) == multiset(xs)
    ensures forall a :: Peers(r, le, a) == Peers(xs, le, a)
  {
    r := [];
    for i := 0 to |xs|
      invariant SortedBy(r, le) && multiset(r) == multiset(xs[..i])
      invariant forall a :: Peers(r, le, a) == Peers(xs[..i], le, a)
    {
      ghost var before := r;
      assert xs[..i + 1] == xs[..i] + [xs[i]];
      r := Insert(r, xs[i], le);
      forall a ensures Peers(r, le, a) == Peers(xs[..i + 1], le, a) {
        PeersOfConcat(before, [xs[i]], le, a);
        PeersOfConcat(xs[..i], [xs[i]], le, a);
      }
    }
    assert xs[..|xs|] == xs;
  }

  lemma SameMembers<T>(a: seq<T>, b: seq<T>)
    requires multiset(a) == multiset(b)
    ensures |a| == |b| && forall x :: x in a <==> x in b
  {
    assert |multiset(a)| == |a| && |multiset(b)| == |b|;
    forall x ensures x in a <==> x in b {
      assert x in a <==> x in multiset(a);
      assert x in b <==> x in multiset(b);
    }
  }

  predicate Distinct<T(==)>(s: seq<T>) {
    forall i, j :: 0 <= i < j < |s| ==> s[i] != s[j]
  }

  lemma TwiceMeansTwo<T>(s: seq<T>, i: nat, j: nat)
    requires i < j < |s| && s[i] == s[j]
    ensures multiset(s)[s[i]] >= 2
  {
    assert s == s[..j] + [s[j]] + s[j + 1..];
    assert s[..j][i] == s[i];
    assert s[i] in multiset(s[..j]);
  }

  lemma {:induction false} OnceMeansOne<T>(s: seq<T>, x: T)
    requires Distinct(s)
    ensures multiset(s)[x] <= 1
  {
    if s != [] {
      var init, last := s[..|s| - 1], s[|s| - 1];
      OnceMeansOne(init, x);
      assert s == init + [last];
      if last == x {
        assert x !in init;
        assert x !in multiset(init);
      }
    }
  }

  lemma DistinctShuffled<T>(a: seq<T>, b: seq<T>)
    requires multiset(a) == multiset(b) && Distinct(a)
    ensures Distinct(b)
  {
    forall i, j | 0 <= i < j < |b| ensures b[i] != b[j] {
      if b[i] == b[j] {
        TwiceMeansTwo(b, i, j);
        OnceMeansOne(a, b[i]);
      }
    }
  }
}
