/** Greedy placement under a per-day cap, for any rule that says which day an
offset falls on. Kept apart from the calendar so that the counting arguments
need only two facts about the rule: it is monotone, and seven offsets later is
always a later day. */
module GreedySlots {
  import opened Sets

  /** The day each offset falls on. */
  type DayRule = nat -> int

  /** Claims per calendar day. */
  type Occupancy = map<int, nat>

  function Claims(occ: Occupancy, day: int): nat {
    if day in occ then occ[day] else 0
  }

  function Bump(occ: Occupancy, day: int): Occupancy {
    occ[day := Claims(occ, day) + 1]
  }

  predicate HasRoom(f: DayRule, cap: int, occ: Occupancy, offset: nat) {
    Claims(occ, f(offset)) < cap
  }

  /** Days already at or past the cap. */
  function FullDays(cap: int, occ: Occupancy): set<int> {
    set d | d in occ && occ[d] >= cap
  }

  ghost predicate Monotone(f: DayRule) {
    forall i: nat, j: nat :: i <= j ==> f(i) <= f(j)
  }

  ghost predicate WeeklyProgress(f: DayRule) {
    forall i: nat, j: nat :: 0 < i && i + 7 <= j ==> f(i) < f(j)
  }

  ghost predicate Spreads(f: DayRule, cap: int) {
    Monotone(f) && WeeklyProgress(f) && cap >= 1
  }

  // ----- a free offset exists within 7 * (full days) + 1

  /** The days of the offsets 1, 8, 15, ..., 7n+1. */
  function WeeklyDays(f: DayRule, n: nat): set<int> {
    if n == 0 then {f(1)} else WeeklyDays(f, n - 1) + {f(7 * n + 1)}
  }

  lemma {:induction false} WeeklyDaysAreDistinct(f: DayRule, n: nat)
    requires WeeklyProgress(f)
    ensures |WeeklyDays(f, n)| == n + 1
    ensures forall d :: d in WeeklyDays(f, n) ==> d <= f(7 * n + 1)
    ensures forall d :: d in WeeklyDays(f, n) ==> exists k: nat :: k <= 7 * n + 1 && f(k) == d
  {
    if n > 0 {
      WeeklyDaysAreDistinct(f, n - 1);
      assert f(7 * (n - 1) + 1) < f(7 * n + 1);
    }
  }

  /** Counting argument behind a search with no bound of its own: the offsets
      1, 8, 15, ... fall on different days, so one more of them than there are full days is free. */
  lemma RoomWithinBound(f: DayRule, cap: int, occ: Occupancy)
    requires Spreads(f, cap)
    ensures exists k: nat :: k <= 7 * |FullDays(cap, occ)| + 1 && HasRoom(f, cap, occ, k)
  {
    var full := FullDays(cap, occ);
    var days := WeeklyDays(f, |full|);
    WeeklyDaysAreDistinct(f, |full|);
    assert exists d :: d in days && d !in full by {
      if forall d :: d in days ==> d in full {
        SubsetIsSmaller(days, full);
      }
    }
    var d :| d in days && d !in full;
    var k: nat :| k <= 7 * |full| + 1 && f(k) == d;
    assert HasRoom(f, cap, occ, k);
  }

  // ----- the placement rule

  ghost predicate IsLeastFree(f: DayRule, cap: int, occ: Occupancy, k: nat) {
    HasRoom(f, cap, occ, k) && forall j: nat :: j < k ==> !HasRoom(f, cap, occ, j)
  }

  lemma {:induction false} LeastFreeExists(f: DayRule, cap: int, occ: Occupancy, k: nat)
    requires HasRoom(f, cap, occ, k)
    ensures exists least: nat :: least <= k && IsLeastFree(f, cap, occ, least)
  {
    if exists j: nat :: j < k && HasRoom(f, cap, occ, j) {
      var j: nat :| j < k && HasRoom(f, cap, occ, j);
      LeastFreeExists(f, cap, occ, j);
    } else {
      assert IsLeastFree(f, cap, occ, k);
    }
  }

  /** The least offset with room (0 when there is none, which a spreading rule excludes). */
  ghost function FreeOffset(f: DayRule, cap: int, occ: Occupancy): nat {
    if exists k: nat :: IsLeastFree(f, cap, occ, k) then
      var k: nat :| IsLeastFree(f, cap, occ, k); k
    else 0
  }

  lemma FreeOffsetIsLeast(f: DayRule, cap: int, occ: Occupancy)
    requires Spreads(f, cap)
    ensures IsLeastFree(f, cap, occ, FreeOffset(f, cap, occ))
    ensures FreeOffset(f, cap, occ) <= 7 * |FullDays(cap, occ)| + 1
  {
    RoomWithinBound(f, cap, occ);
    var k: nat :| k <= 7 * |FullDays(cap, occ)| + 1 && HasRoom(f, cap, occ, k);
    LeastFreeExists(f, cap, occ, k);
    var least: nat :| least <= k && IsLeastFree(f, cap, occ, least);
    var chosen := FreeOffset(f, cap, occ);
    assert IsLeastFree(f, cap, occ, chosen);
    assert !(least < chosen) && !(chosen < least);
  }

  /** Occupancy after claiming the free slot. */
  ghost function AfterClaim(f: DayRule, cap: int, occ: Occupancy): Occupancy
  {
    Bump(occ, f(FreeOffset(f, cap, occ)))
  }

  /** Occupancy after n claims. */
  ghost function AfterClaims(f: DayRule, cap: int, occ: Occupancy, n: nat): Occupancy
  {
    if n == 0 then occ else AfterClaim(f, cap, AfterClaims(f, cap, occ, n - 1))
  }

  /** The first n offsets handed out from an occupancy. */
  ghost function Offsets(f: DayRule, cap: int, occ: Occupancy, n: nat): (r: seq<nat>)
    ensures |r| == n
  {
    if n == 0 then []
    else Offsets(f, cap, occ, n - 1) + [FreeOffset(f, cap, AfterClaims(f, cap, occ, n - 1))]
  }

  /** No day is ever pushed past the cap, or past where it already stood. */
  lemma {:induction false} NeverPastCap(f: DayRule, cap: int, occ: Occupancy, n: nat, day: int)
    requires Spreads(f, cap)
    ensures Claims(occ, day) <= Claims(AfterClaims(f, cap, occ, n), day)
    ensures Claims(AfterClaims(f, cap, occ, n), day) <= if Claims(occ, day) > cap then Claims(occ, day) else cap
  {
    if n > 0 {
      NeverPastCap(f, cap, occ, n - 1, day);
      FreeOffsetIsLeast(f, cap, AfterClaims(f, cap, occ, n - 1));
    }
  }

  lemma {:induction false} OffsetAt(f: DayRule, cap: int, occ: Occupancy, n: nat, i: nat)
    requires i < n
    ensures Offsets(f, cap, occ, n)[i] == FreeOffset(f, cap, AfterClaims(f, cap, occ, i))
  {
    if i < n - 1 {
      OffsetAt(f, cap, occ, n - 1, i);
    }
  }

  /** The offset free after so many claims. */
  ghost function Pick(f: DayRule, cap: int, occ: Occupancy): nat -> nat {
    (n: nat) => FreeOffset(f, cap, AfterClaims(f, cap, occ, n))
  }

  lemma {:induction false} StepwiseGrows(g: nat -> nat, i: nat, j: nat)
    requires i <= j && forall n: nat :: g(n) <= g(n + 1)
    ensures g(i) <= g(j)
  {
    if i < j {
      var k: nat := j - 1;
      StepwiseGrows(g, i, k);
      assert g(k) <= g(k + 1);
    }
  }

  /** Filling a day never makes an earlier offset free again. */
  lemma FreeOffsetsGrow(f: DayRule, cap: int, occ: Occupancy, i: nat, j: nat)
    requires Spreads(f, cap) && i <= j
    ensures FreeOffset(f, cap, AfterClaims(f, cap, occ, i)) <= FreeOffset(f, cap, AfterClaims(f, cap, occ, j))
  {
    var g := Pick(f, cap, occ);
    forall n: nat ensures g(n) <= g(n + 1) {
      NextClaimGrows(f, cap, occ, n);
    }
    StepwiseGrows(g, i, j);
  }

  lemma NextClaimGrows(f: DayRule, cap: int, occ: Occupancy, n: nat)
    requires Spreads(f, cap)
    ensures FreeOffset(f, cap, AfterClaims(f, cap, occ, n)) <= FreeOffset(f, cap, AfterClaims(f, cap, occ, n + 1))
  {
    OneClaimGrows(f, cap, AfterClaims(f, cap, occ, n));
  }

  lemma OneClaimGrows(f: DayRule, cap: int, occ: Occupancy)
    requires Spreads(f, cap)
    ensures FreeOffset(f, cap, occ) <= FreeOffset(f, cap, AfterClaim(f, cap, occ))
  {
    var after := AfterClaim(f, cap, occ);
    FreeOffsetIsLeast(f, cap, occ);
    FreeOffsetIsLeast(f, cap, after);
    assert HasRoom(f, cap, occ, FreeOffset(f, cap, after));
  }

  lemma OffsetsNonDecreasing(f: DayRule, cap: int, occ: Occupancy, n: nat, i: nat, j: nat)
    requires Spreads(f, cap) && i <= j < n
    ensures Offsets(f, cap, occ, n)[i] <= Offsets(f, cap, occ, n)[j]
  {
    OffsetAt(f, cap, occ, n, i);
    OffsetAt(f, cap, occ, n, j);
    FreeOffsetsGrow(f, cap, occ, i, j);
  }

  // ----- occupancy as a function of the days claimed

  function FromDays(days: seq<int>): Occupancy {
    if days == [] then map[]
    else Bump(FromDays(days[..|days| - 1]), days[|days| - 1])
  }

  /** The occupancy map is nothing but the multiset of claimed days. */
  lemma {:induction false} ClaimsAreMultiplicity(days: seq<int>, day: int)
    ensures Claims(FromDays(days), day) == multiset(days)[day]
  {
    if days != [] {
      var init, last := days[..|days| - 1], days[|days| - 1];
      ClaimsAreMultiplicity(init, day);
      assert days == init + [last];
    }
  }

  /** Two occupancies that agree day by day. */
  ghost predicate SameClaims(a: Occupancy, b: Occupancy) {
    forall d :: Claims(a, d) == Claims(b, d)
  }

  lemma SameClaimsAfterBump(a: Occupancy, b: Occupancy, day: int)
    requires SameClaims(a, b)
    ensures SameClaims(Bump(a, day), Bump(b, day))
  {
    forall d ensures Claims(Bump(a, day), d) == Claims(Bump(b, day), d) {
      assert Claims(a, d) == Claims(b, d) && Claims(a, day) == Claims(b, day);
    }
  }

  lemma SameClaimsSameOffset(f: DayRule, cap: int, a: Occupancy, b: Occupancy)
    requires Spreads(f, cap) && SameClaims(a, b)
    ensures FreeOffset(f, cap, a) == FreeOffset(f, cap, b)
  {
    FreeOffsetIsLeast(f, cap, a);
    FreeOffsetIsLeast(f, cap, b);
    assert HasRoom(f, cap, b, FreeOffset(f, cap, a));
    assert HasRoom(f, cap, a, FreeOffset(f, cap, b));
  }

  lemma {:induction false} SameClaimsSameOffsets(f: DayRule, cap: int, a: Occupancy, b: Occupancy, n: nat)
    requires Spreads(f, cap) && SameClaims(a, b)
    ensures SameClaims(AfterClaims(f, cap, a, n), AfterClaims(f, cap, b, n))
    ensures Offsets(f, cap, a, n) == Offsets(f, cap, b, n)
  {
    if n > 0 {
      SameClaimsSameOffsets(f, cap, a, b, n - 1);
      OneClaimAlike(f, cap, AfterClaims(f, cap, a, n - 1), AfterClaims(f, cap, b, n - 1));
    }
  }

  /** From occupancies that agree, one more claim takes one offset and leaves them agreeing. */
  lemma OneClaimAlike(f: DayRule, cap: int, a: Occupancy, b: Occupancy)
    requires Spreads(f, cap) && SameClaims(a, b)
    ensures FreeOffset(f, cap, a) == FreeOffset(f, cap, b)
    ensures SameClaims(AfterClaim(f, cap, a), AfterClaim(f, cap, b))
  {
    SameClaimsSameOffset(f, cap, a, b);
    SameClaimsAfterBump(a, b, f(FreeOffset(f, cap, a)));
  }

  /** Apply a rule to every element. */
  function Map<T>(g: T -> int, xs: seq<T>): (r: seq<int>)
    ensures |r| == |xs| && forall i :: 0 <= i < |r| ==> r[i] == g(xs[i])
  {
    seq(|xs|, i requires 0 <= i < |xs| => g(xs[i]))
  }

  /** Permuting the elements permutes the images. */
  lemma {:induction false} MapOfPermutation<T>(g: T -> int, a: seq<T>, b: seq<T>)
    requires multiset(a) == multiset(b)
    ensures multiset(Map(g, a)) == multiset(Map(g, b))
  {
    if a == [] {
      assert |multiset(b)| == 0;
      assert b == [];
    } else {
      assert a[0] in multiset(b);
      var i :| 0 <= i < |b| && b[i] == a[0];
      RemovedOne(a, 0);
      RemovedOne(b, i);
      assert multiset(Without(a, 0)) == multiset(a) - multiset{a[0]};
      assert multiset(Without(b, i)) == multiset(b) - multiset{b[i]};
      MapOfPermutation(g, Without(a, 0), Without(b, i));
      MapWithout(g, a, 0);
      MapWithout(g, b, i);
    }
  }

  function Without<T>(xs: seq<T>, i: nat): (r: seq<T>)
    requires i < |xs|
    ensures |r| == |xs| - 1
  {
    xs[..i] + xs[i + 1..]
  }

  lemma MapWithout<T>(g: T -> int, xs: seq<T>, i: nat)
    requires i < |xs|
    ensures multiset(Map(g, xs)) == multiset(Map(g, Without(xs, i))) + multiset{g(xs[i])}
  {
    RemovedOne(Map(g, xs), i);
    assert Without(Map(g, xs), i) == Map(g, Without(xs, i));
  }

  lemma RemovedOne<T>(xs: seq<T>, i: nat)
    requires i < |xs|
    ensures multiset(xs) == multiset(Without(xs, i)) + multiset{xs[i]}
  {
    assert xs == xs[..i] + [xs[i]] + xs[i + 1..];
  }

  /** Claiming n slots leaves exactly the occupancy that recording them rebuilds. */
  lemma {:induction false} ClaimsMatchRecord(f: DayRule, cap: int, days: seq<int>, n: nat)
    ensures AfterClaims(f, cap, FromDays(days), n)
         == FromDays(days + Map(f, Offsets(f, cap, FromDays(days), n)))
  {
    var occ := FromDays(days);
    if n == 0 {
      assert days + Map(f, Offsets(f, cap, occ, 0)) == days;
    } else {
      ClaimsMatchRecord(f, cap, days, n - 1);
      var before, k := Offsets(f, cap, occ, n - 1), FreeOffset(f, cap, AfterClaims(f, cap, occ, n - 1));
      RecordOneMore(f, days, before, k);
      assert Offsets(f, cap, occ, n) == before + [k];
    }
  }

  lemma RecordOneMore(f: DayRule, days: seq<int>, offsets: seq<nat>, k: nat)
    ensures FromDays(days + Map(f, offsets + [k])) == Bump(FromDays(days + Map(f, offsets)), f(k))
  {
    var longer := days + Map(f, offsets + [k]);
    assert longer[..|longer| - 1] == days + Map(f, offsets);
  }

  lemma {:induction false} OffsetsCompose(f: DayRule, cap: int, occ: Occupancy, n: nat, m: nat)
    ensures AfterClaims(f, cap, occ, n + m) == AfterClaims(f, cap, AfterClaims(f, cap, occ, n), m)
    ensures Offsets(f, cap, occ, n + m) == Offsets(f, cap, occ, n) + Offsets(f, cap, AfterClaims(f, cap, occ, n), m)
  {
    if m > 0 {
      OffsetsCompose(f, cap, occ, n, m - 1);
    }
  }

  /** Splitting a batch does not matter, whatever order the record is read back in. */
  lemma SplitBatch(f: DayRule, cap: int, days: seq<int>, n: nat, m: nat, reread: seq<int>)
    requires Spreads(f, cap)
    requires multiset(reread) == multiset(days + Map(f, Offsets(f, cap, FromDays(days), n)))
    ensures Offsets(f, cap, FromDays(days), n + m)
         == Offsets(f, cap, FromDays(days), n) + Offsets(f, cap, FromDays(reread), m)
  {
    var extended := days + Map(f, Offsets(f, cap, FromDays(days), n));
    OffsetsCompose(f, cap, FromDays(days), n, m);
    ClaimsMatchRecord(f, cap, days, n);
    forall d ensures Claims(FromDays(extended), d) == Claims(FromDays(reread), d) {
      ClaimsAreMultiplicity(extended, d);
      ClaimsAreMultiplicity(reread, d);
    }
    SameClaimsSameOffsets(f, cap, FromDays(extended), FromDays(reread), m);
  }
}
